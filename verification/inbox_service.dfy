/** The decision inbox together with the services its handlers call (`bot/services/decision_inbox.py`,
    `bot/services/inbox_handlers`): the proposal lifecycle and the alert store. Diagnostics are an outside service; what
    a run of them finds is an input. */
module InboxService {
  import opened Common
  import opened Domain
  import opened Settings
  import opened DecisionInbox
  import Lifecycle = ProposalLifecycle
  import Alerts = OperatorAlerts

  datatype World = World(inbox: InboxState, lifecycle: Lifecycle.LifecycleState, alerts: Alerts.Store)

  const EMPTY_WORLD: World := World(EMPTY, Lifecycle.EMPTY, Alerts.EMPTY)

  /** What an action reads from outside: the market data for an approval, whether a decision review can be made, and
      which diagnostics checks pass. */
  datatype Outside = Outside(source: Lifecycle.SnapshotSource, reviewable: bool, checks: map<string, bool>)

  /** Approvals through the inbox are given no open positions and no exposure. */
  const NO_EXPOSURE: Lifecycle.Exposure := Lifecycle.Exposure(0, 0.0, 0.0)

  // ---- Specification ----------------------------------------------------------------------------------------------

  function Answered<T, E>(r: Result<T, E>): ServiceAnswer { if r.Ok? then Done(true) else Refuses }

  /** The lifecycle operation behind an action on a proposal review; analysis is logged even when no review can be made
      of it afterwards. */
  function ProposalCall(s: Settings, st: Lifecycle.LifecycleState, id: nat, action: Action, o: Outside, now: int)
    : (Lifecycle.LifecycleState, ServiceAnswer)
  {
    match action
    case Approve =>
      var (st', r) := Lifecycle.Approving(st, s, id, NO_EXPOSURE, o.source, now);
      (st', Answered(r))
    case Reject =>
      var (st', r) := Lifecycle.Rejecting(st, id, now);
      (st', Answered(r))
    case Cancel =>
      var (st', r) := Lifecycle.Cancelling(st, id, now);
      (st', Answered(r))
    case Analysis =>
      var (st', r) := Lifecycle.Analysing(st, id, now);
      (st', if o.reviewable then Answered(r) else Refuses)
    case Details => (st, if id in st.proposals then Done(true) else Refuses)
    case _ => (st, Refuses)
  }

  function AlertCall(st: Alerts.Store, id: nat, action: Action, now: int): (Alerts.Store, ServiceAnswer) {
    match action
    case Acknowledge =>
      var (st', r) := Alerts.Transitioning(st, id, Alerts.Acknowledged, now);
      (st', Answered(r))
    case Details => (st, if id in st.alerts then Done(true) else Refuses)
    case _ => (st, Refuses)
  }

  function CheckCall(check: string, action: Action, o: Outside): ServiceAnswer {
    if action == Details then Done(true)
    else if check in o.checks then Done(o.checks[check])
    else Refuses
  }

  function Calling(s: Settings, w: World, subject: Subject, action: Action, o: Outside, now: int): (World,
      ServiceAnswer) {
    match subject
    case ProposalReview(id) =>
      var (lifecycle, answer) := ProposalCall(s, w.lifecycle, id, action, o, now);
      (w.(lifecycle := lifecycle), answer)
    case AlertNotification(id) =>
      var (alerts, answer) := AlertCall(w.alerts, id, action, now);
      (w.(alerts := alerts), answer)
    case DiagnosticsIssue(check) => (w, CheckCall(check, action, o))
    case ScannerSummary(_) => (w, Done(true))
  }

  function Acting(s: Settings, w: World, id: RequestId, action: Action, o: Outside, now: int)
    : (World, Result<Request, InboxError>)
  {
    var (called, answer) :=
      if id in w.inbox.requests && action != Skip then Calling(s, w, w.inbox.requests[id].subject, action, o, now)
      else (w, Refuses);
    var (inbox, r) := Applying(w.inbox, id, action, answer, now);
    (called.(inbox := inbox), r)
  }

  /** Whether the view of a request can be built: its proposal, alert or check must be known. */
  predicate Viewable(w: World, subject: Subject, o: Outside) {
    match subject
    case ProposalReview(id) => id in w.lifecycle.proposals
    case AlertNotification(id) => id in w.alerts.alerts
    case DiagnosticsIssue(check) => check in o.checks
    case ScannerSummary(_) => true
  }

  /** An action from Telegram: the view is built for the log before anything is done, whatever the action. */
  function Reviewing(s: Settings, w: World, id: RequestId, action: Action, o: Outside, now: int)
    : (World, Result<Request, InboxError>)
  {
    if id in w.inbox.requests && !Viewable(w, w.inbox.requests[id].subject, o) then (w, Err(ServiceError))
    else Acting(s, w, id, action, o, now)
  }

  // ---- The service ------------------------------------------------------------------------------------------------

  class DecisionInboxService {
    const proposalService: Lifecycle.ProposalLifecycleService
    const notificationsService: Alerts.OperatorNotificationsService
    var requests: map<RequestId, Request>
    var records: seq<ActionRecord>
    var nextId: RequestId

    ghost function State(): InboxState
      reads this
    {
      InboxState(requests, records, nextId)
    }

    ghost function All(): World
      reads this, proposalService, notificationsService
    {
      World(State(), proposalService.State(), notificationsService.State())
    }

    constructor (proposalService: Lifecycle.ProposalLifecycleService,
                 notificationsService: Alerts.OperatorNotificationsService)
      ensures State() == EMPTY
      ensures this.proposalService == proposalService && this.notificationsService == notificationsService
    {
      this.proposalService, this.notificationsService := proposalService, notificationsService;
      requests, records, nextId := map[], [], 0;
    }

    method CreateOrUpdateRequest(subject: Subject, now: int)
      modifies this
      ensures State() == Requesting(old(State()), subject, now)
    {
      var found := FindBelow(requests, subject, nextId);
      if found.Some? {
        requests := requests[found.value := requests[found.value].(updatedAt := now)];
      } else {
        requests := requests[nextId := Request(nextId, subject, Open, now, now, None)];
        nextId := nextId + 1;
      }
    }

    method SaveAndRecord(r: Request, action: Action, now: int)
      modifies this
      ensures State() == Recorded(old(State()), r, action, now)
    {
      requests := requests[r.requestId := r];
      records := records + [ActionRecord(r.requestId, action, now)];
    }

    method CallProposalService(s: Settings, id: nat, action: Action, o: Outside,
        now: int) returns (answer: ServiceAnswer)
      requires forall k :: k in proposalService.proposals ==> proposalService.proposals[k].proposalId == k
      modifies proposalService
      ensures (proposalService.State(), answer) == ProposalCall(s, old(proposalService.State()), id, action, o, now)
    {
      match action {
        case Approve =>
          var r := proposalService.Approve(s, id, NO_EXPOSURE, o.source, now);
          answer := Answered(r);
        case Reject =>
          var r := proposalService.Reject(id, now);
          answer := Answered(r);
        case Cancel =>
          var r := proposalService.CancelProposal(id, now);
          answer := Answered(r);
        case Analysis =>
          var r := proposalService.RequestAnalysis(id, now);
          answer := if o.reviewable then Answered(r) else Refuses;
        case Details => answer := if id in proposalService.proposals then Done(true) else Refuses;
        case _ => answer := Refuses;
      }
    }

    method CallAlertService(id: nat, action: Action, now: int) returns (answer: ServiceAnswer)
      modifies notificationsService
      ensures (notificationsService.State(), answer) == AlertCall(old(notificationsService.State()), id, action, now)
    {
      match action {
        case Acknowledge =>
          var r := notificationsService.TransitionAlert(id, Alerts.Acknowledged, now);
          answer := Answered(r);
        case Details => answer := if id in notificationsService.alerts then Done(true) else Refuses;
        case _ => answer := Refuses;
      }
    }

    method CallService(s: Settings, subject: Subject, action: Action, o: Outside,
        now: int) returns (answer: ServiceAnswer)
      requires forall k :: k in proposalService.proposals ==> proposalService.proposals[k].proposalId == k
      modifies proposalService, notificationsService
      ensures (All(), answer) == Calling(s, old(All()), subject, action, o, now)
    {
      match subject {
        case ProposalReview(id) => answer := CallProposalService(s, id, action, o, now);
        case AlertNotification(id) => answer := CallAlertService(id, action, now);
        case DiagnosticsIssue(check) => answer := CheckCall(check, action, o);
        case ScannerSummary(_) => answer := Done(true);
      }
    }

    method ApplyAction(s: Settings, id: RequestId, action: Action, o: Outside, now: int)
      returns (r: Result<Request, InboxError>)
      requires forall k :: k in proposalService.proposals ==> proposalService.proposals[k].proposalId == k
      modifies this, proposalService, notificationsService
      ensures (All(), r) == Acting(s, old(All()), id, action, o, now)
    {
      if id !in requests { return Err(UnknownRequest); }
      var request := requests[id];
      if action == Skip {
        if !request.status.Active() { return Err(CannotSkip); }
        var skipped := request.(status := Acknowledged, updatedAt := now);
        SaveAndRecord(skipped, Skip, now);
        return Ok(skipped);
      }
      var answer := CallService(s, request.subject, action, o, now);
      r := ApplyOutcome(request, action, answer, now);
    }

    /** The second half of `apply_action`: the handler's outcome changes the request and is recorded. */
    method ApplyOutcome(request: Request, action: Action, answer: ServiceAnswer, now: int)
      returns (r: Result<Request, InboxError>)
      modifies this
      ensures r == (match Handle(request.subject, action, answer)
                    case Err(error) => Err(error)
                    case Ok(LeaveAlone) => Ok(request)
                    case Ok(outcome) => Ok(Moved(request, outcome, now)))
      ensures State() == if r.Err? || Handle(request.subject, action, answer).value.LeaveAlone? then old(State())
                         else Recorded(old(State()), r.value, action, now)
    {
      var outcome := Handle(request.subject, action, answer);
      if outcome.Err? { return Err(outcome.error); }
      if outcome.value.LeaveAlone? { return Ok(request); }
      var updated := request.(status := outcome.value.status, updatedAt := now);
      if outcome.value.markActioned {
        updated := updated.(actionedAt := Some(now));
      }
      SaveAndRecord(updated, action, now);
      r := Ok(updated);
    }

    method CanView(subject: Subject, o: Outside) returns (ok: bool)
      ensures ok == Viewable(All(), subject, o)
    {
      match subject {
        case ProposalReview(id) => ok := id in proposalService.proposals;
        case AlertNotification(id) => ok := id in notificationsService.alerts;
        case DiagnosticsIssue(check) => ok := check in o.checks;
        case ScannerSummary(_) => ok := true;
      }
    }

    method ApplyRequestAction(s: Settings, id: RequestId, action: Action, o: Outside, now: int)
      returns (r: Result<Request, InboxError>)
      requires forall k :: k in proposalService.proposals ==> proposalService.proposals[k].proposalId == k
      modifies this, proposalService, notificationsService
      ensures (All(), r) == Reviewing(s, old(All()), id, action, o, now)
    {
      if id in requests {
        var viewable := CanView(requests[id].subject, o);
        if !viewable { return Err(ServiceError); }
      }
      r := ApplyAction(s, id, action, o, now);
    }

    /** `rows` answers the query for open requests that is made after a successful action. What is offered next is an
        oldest open request; nothing is offered only when the queue is empty or the request just looked at heads it. */
    method ApplyRequestActionAndGetNext(s: Settings, id: RequestId, action: Action, o: Outside, now: int,
                                        rows: seq<Request>)
      returns (r: Result<Request, InboxError>, next: Option<Request>)
      requires forall k :: k in proposalService.proposals ==> proposalService.proposals[k].proposalId == k
      requires Keyed(State())
      requires ListsOpen(rows, Reviewing(s, All(), id, action, o, now).0.inbox)
      modifies this, proposalService, notificationsService
      ensures (All(), r) == Reviewing(s, old(All()), id, action, o, now)
      ensures next.Some? ==> r.Ok? && next.value.requestId in OpenRequests(State()) - {id}
      ensures next.Some? ==>
        forall k :: k in OpenRequests(State()) ==> next.value.createdAt <= State().requests[k].createdAt
      ensures r.Ok? && action != Details ==> (next.None? <==> OpenRequests(State()) == {})
    {
      ghost var before := State();
      r := ApplyRequestAction(s, id, action, o, now);
      next := None;
      if r.Ok? {
        ActingIsApplying(s, old(All()), id, action, o, now);
        NextIsOldest(State(), rows);
        next := Next(rows);
        if next.Some? && next.value.requestId == id {
          next := None;
        }
      }
    }
  }

  /** The inbox part of an action is the pure one under some answer, so the queue facts apply to it. */
  lemma ActingIsApplying(s: Settings, w: World, id: RequestId, action: Action, o: Outside, now: int)
    requires Keyed(w.inbox)
    ensures var (w', r) := Acting(s, w, id, action, o, now);
      && Keyed(w'.inbox)
      && OpenRequests(w'.inbox)
         == (if r.Ok? && action != Details then OpenRequests(w.inbox) - {id} else OpenRequests(w.inbox))
      && exists answer :: (w'.inbox, r) == Applying(w.inbox, id, action, answer, now)
  {
    var answer := if id in w.inbox.requests && action != Skip
                  then Calling(s, w, w.inbox.requests[id].subject, action, o, now).1 else Refuses;
    ActionsDrainQueue(w.inbox, id, action, answer, now);
    assert (Acting(s, w, id, action, o, now).0.inbox, Acting(s, w, id, action, o, now).1)
        == Applying(w.inbox, id, action, answer, now);
  }
}
