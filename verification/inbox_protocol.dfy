/** Whole-run properties of the inbox and the services behind it, with proposals and alerts also changing on their own:
    what an actioned request says about its matter, and what becomes of a request whose proposal is already final. */
module InboxProtocol {
  import opened Common
  import opened Domain
  import opened Settings
  import opened DecisionInbox
  import opened InboxService
  import Lifecycle = ProposalLifecycle
  import Proposals = ProposalProtocol
  import Alerts = OperatorAlerts
  import AlertProtocol

  datatype Operation =
    | RequestOp(subject: Subject, now: int)
    | ActionOp(id: RequestId, action: Action, outside: Outside, now: int)
    | OnProposals(proposalOp: Proposals.Operation)
    | OnAlerts(alertOp: AlertProtocol.Operation)

  function Apply(s: Settings, w: World, op: Operation): World {
    match op
    case RequestOp(subject, now) => w.(inbox := Requesting(w.inbox, subject, now))
    case ActionOp(id, action, o, now) => Acting(s, w, id, action, o, now).0
    case OnProposals(p) => w.(lifecycle := Proposals.Apply(s, w.lifecycle, p))
    case OnAlerts(a) => w.(alerts := AlertProtocol.Apply(w.alerts, a))
  }

  predicate Legal(w: World, op: Operation) {
    match op
    case RequestOp(_, _) => true
    case ActionOp(_, _, _, _) => true
    case OnProposals(p) => Proposals.Legal(w.lifecycle, p)
    case OnAlerts(a) => AlertProtocol.Legal(a)
  }

  predicate LegalRun(s: Settings, w: World, ops: seq<Operation>)
    decreases |ops|
  {
    ops == [] || (Legal(w, ops[0]) && LegalRun(s, Apply(s, w, ops[0]), ops[1..]))
  }

  function Run(s: Settings, w: World, ops: seq<Operation>): World
    decreases |ops|
  {
    if ops == [] then w else Run(s, Apply(s, w, ops[0]), ops[1..])
  }

  // ---- One action, from the stored rows ---------------------------------------------------------------------------

  /** Whether an action through the inbox succeeds, told from the rows it meets. A skip needs an active request whose
      matter is known; apart from a look, each action needs its own state of the proposal, alert or check. */
  predicate Succeeds(s: Settings, w: World, r: Request, action: Action, o: Outside, now: int) {
    match r.subject
    case ProposalReview(id) =>
      id in w.lifecycle.proposals
      && var status := w.lifecycle.proposals[id].status;
         (match action
          case Details => true
          case Skip => r.status == Open || r.status == Acknowledged
          case Approve => Lifecycle.Approving(w.lifecycle, s, id, Lifecycle.Exposure(0, 0.0, 0.0), o.source, now).1.Ok?
          case Reject => status == PendingManualConfirmation
          case Cancel => status == PendingManualConfirmation || status == Approved
          case Analysis => o.reviewable
          case _ => false)
    case AlertNotification(id) =>
      id in w.alerts.alerts
      && (match action
          case Details => true
          case Skip => r.status == Open || r.status == Acknowledged
          case Acknowledge => w.alerts.alerts[id].state == Alerts.Open
          case _ => false)
    case DiagnosticsIssue(check) =>
      check in o.checks
      && (action == Details || action == Refresh || (action == Skip && (r.status == Open || r.status == Acknowledged)))
    case ScannerSummary(_) => action == Details || (action == Skip && (r.status == Open || r.status == Acknowledged))
  }

  /** What a successful action leaves of its request. A skip, an analysis and a check that still fails acknowledge it,
      a look leaves it alone, and every decision marks it as done. */
  function Handled(r: Request, action: Action, o: Outside, now: int): Request {
    match action
    case Details => r
    case Skip => r.(status := Acknowledged, updatedAt := now)
    case Analysis => r.(status := Acknowledged, updatedAt := now)
    case Refresh =>
      if r.subject.DiagnosticsIssue? && r.subject.check in o.checks && !o.checks[r.subject.check]
      then r.(status := Acknowledged, updatedAt := now)
      else r.(status := Actioned, updatedAt := now, actionedAt := Some(now))
    case _ => r.(status := Actioned, updatedAt := now, actionedAt := Some(now))
  }

  /** Exactly when an action on a stored request succeeds; a refused one leaves the inbox alone. */
  lemma ActionSucceedsIff(s: Settings, w: World, id: RequestId, action: Action, o: Outside, now: int)
    requires id in w.inbox.requests
    ensures Reviewing(s, w, id, action, o, now).1.Ok? <==> Succeeds(s, w, w.inbox.requests[id], action, o, now)
    ensures Reviewing(s, w, id, action, o, now).1.Err? ==> Reviewing(s, w, id, action, o, now).0.inbox == w.inbox
  {
  }

  /** The one request a successful action changes, and the record it leaves. */
  lemma ActionOutcome(s: Settings, w: World, id: RequestId, action: Action, o: Outside, now: int)
    requires Keyed(w.inbox) && id in w.inbox.requests && Reviewing(s, w, id, action, o, now).1.Ok?
    ensures var (w', result) := Reviewing(s, w, id, action, o, now);
      && result.value == Handled(w.inbox.requests[id], action, o, now)
      && w'.inbox.requests == w.inbox.requests[id := result.value]
      && w'.inbox.records
         == (if action == Details then w.inbox.records else w.inbox.records + [ActionRecord(id, action, now)])
      && w'.inbox.nextId == w.inbox.nextId
  {
    var r := w.inbox.requests[id];
    if action != Skip {
      var answer := Calling(s, w, r.subject, action, o, now).1;
      AnsweredOutcome(w.inbox, id, action, answer, o, now);
    }
  }

  /** The inbox part of an action under the answer of its service. */
  lemma AnsweredOutcome(st: InboxState, id: RequestId, action: Action, answer: ServiceAnswer, o: Outside, now: int)
    requires Keyed(st) && id in st.requests && action != Skip && Applying(st, id, action, answer, now).1.Ok?
    requires var subject := st.requests[id].subject;
      subject.DiagnosticsIssue? && action == Refresh ==>
        subject.check in o.checks && answer == Done(o.checks[subject.check])
    ensures var (st', result) := Applying(st, id, action, answer, now);
      && result.value == Handled(st.requests[id], action, o, now)
      && st'.requests == st.requests[id := result.value]
      && st'.records == (if action == Details then st.records else st.records + [ActionRecord(id, action, now)])
      && st'.nextId == st.nextId
  {
  }

  // ---- Invariant --------------------------------------------------------------------------------------------------

  /** The proposal is past any decision: approved, or final for good. */
  predicate Decided(st: Lifecycle.LifecycleState, id: nat) {
    id in st.proposals && st.proposals[id].status in {Approved, PolicyRejected, Cancelled}
  }

  predicate NoLongerOpen(st: Alerts.Store, id: nat) { id in st.alerts && st.alerts[id].state != Alerts.Open }

  /** What an actioned request stands for. */
  predicate Settled(w: World, subject: Subject) {
    match subject
    case ProposalReview(id) => Decided(w.lifecycle, id)
    case AlertNotification(id) => NoLongerOpen(w.alerts, id)
    case DiagnosticsIssue(_) => true
    case ScannerSummary(_) => false
  }

  ghost predicate ActionedAreSettled(w: World) {
    forall id :: id in w.inbox.requests && w.inbox.requests[id].status == Actioned ==>
      Settled(w, w.inbox.requests[id].subject)
  }

  ghost predicate Invariant(s: Settings, w: World) {
    && Keyed(w.inbox) && Proposals.Invariant(s, w.lifecycle) && AlertProtocol.Invariant(w.alerts)
    && ActionedAreSettled(w)
  }

  /** Neither a decided proposal nor an alert that is no longer open goes back. */
  ghost predicate Forward(before: World, after: World) {
    && (forall id :: Decided(before.lifecycle, id) ==> Decided(after.lifecycle, id))
    && (forall id :: NoLongerOpen(before.alerts, id) ==> NoLongerOpen(after.alerts, id))
  }

  lemma SettledForward(before: World, after: World, subject: Subject)
    requires Forward(before, after) && Settled(before, subject)
    ensures Settled(after, subject)
  {
  }

  lemma ProposalsForward(s: Settings, w: World, op: Proposals.Operation)
    requires Validated(s) && Proposals.Invariant(s, w.lifecycle) && Proposals.Legal(w.lifecycle, op)
    ensures var w' := w.(lifecycle := Proposals.Apply(s, w.lifecycle, op));
      Proposals.Invariant(s, w'.lifecycle) && Forward(w, w')
  {
    Proposals.ApplyKeeps(s, w.lifecycle, op);
    var after := Proposals.Apply(s, w.lifecycle, op);
    forall id | Decided(w.lifecycle, id) ensures Decided(after, id) {
      Proposals.ApplySettles(s, w.lifecycle, op, id);
      assert Proposals.Settled(w.lifecycle.proposals[id], after.proposals[id]);
    }
  }

  lemma AlertsForward(w: World, op: AlertProtocol.Operation)
    requires AlertProtocol.Invariant(w.alerts) && AlertProtocol.Legal(op)
    ensures var w' := w.(alerts := AlertProtocol.Apply(w.alerts, op));
      AlertProtocol.Invariant(w'.alerts) && Forward(w, w')
  {
    AlertProtocol.ApplyKeeps(w.alerts, op);
    var after := AlertProtocol.Apply(w.alerts, op);
    forall id | NoLongerOpen(w.alerts, id) ensures NoLongerOpen(after, id) {
      assert AlertProtocol.Evolves(w.alerts.alerts[id], after.alerts[id]);
    }
  }

  // ---- A call to a service ----------------------------------------------------------------------------------------

  /** The lifecycle operation that an action on a proposal review amounts to. */
  function ProposalOp(id: nat, action: Action, o: Outside, now: int): Proposals.Operation {
    match action
    case Approve => Proposals.ApproveOp(id, NO_EXPOSURE, o.source, now)
    case Reject => Proposals.RejectOp(id, now)
    case Cancel => Proposals.CancelOp(id, now)
    case _ => Proposals.AnalysisOp(id, now)
  }

  /** The call's effect is that operation's, and where there is none nothing changes. */
  lemma CallIsOperation(s: Settings, st: Lifecycle.LifecycleState, id: nat, action: Action, o: Outside, now: int)
    ensures ProposalCall(s, st, id, action, o, now).0 ==
      if action in {Approve, Reject, Cancel, Analysis} then Proposals.Apply(s, st, ProposalOp(id, action, o, now))
      else st
  {
  }

  /** A decision that the service does not refuse leaves the proposal decided. */
  lemma DecisionDecides(s: Settings, st: Lifecycle.LifecycleState, id: nat, action: Action, o: Outside, now: int)
    requires Proposals.KeyedStore(st) && action in {Approve, Reject, Cancel}
    requires ProposalCall(s, st, id, action, o, now).1 != Refuses
    ensures Decided(ProposalCall(s, st, id, action, o, now).0, id)
  {
    if action == Approve {
      var p := st.proposals[id];
      var snapshot := Lifecycle.Resolved(p, o.source).value;
      assert Lifecycle.Revalidating(st, s, p, NO_EXPOSURE, snapshot, now).1.Ok?;
    }
  }

  lemma ProposalCallForward(s: Settings, w: World, id: nat, action: Action, o: Outside, now: int)
    requires Validated(s) && Proposals.Invariant(s, w.lifecycle)
    ensures var (after, answer) := ProposalCall(s, w.lifecycle, id, action, o, now);
      && Proposals.Invariant(s, after) && Forward(w, w.(lifecycle := after))
      && (action in {Approve, Reject, Cancel} && answer != Refuses ==> Decided(after, id))
  {
    CallIsOperation(s, w.lifecycle, id, action, o, now);
    if action in {Approve, Reject, Cancel, Analysis} { ProposalsForward(s, w, ProposalOp(id, action, o, now)); }
    if action in {Approve, Reject, Cancel} && ProposalCall(s, w.lifecycle, id, action, o, now).1 != Refuses {
      DecisionDecides(s, w.lifecycle, id, action, o, now);
    }
  }

  lemma AlertCallForward(w: World, id: nat, action: Action, now: int)
    requires AlertProtocol.Invariant(w.alerts)
    ensures var (after, answer) := AlertCall(w.alerts, id, action, now);
      && AlertProtocol.Invariant(after) && Forward(w, w.(alerts := after))
      && (action == Acknowledge && answer != Refuses ==> NoLongerOpen(after, id))
  {
    AlertsForward(w, AlertProtocol.TransitionOp(id, Alerts.Acknowledged, now));
  }

  lemma CallingForward(s: Settings, w: World, subject: Subject, action: Action, o: Outside, now: int)
    requires Validated(s) && Proposals.Invariant(s, w.lifecycle) && AlertProtocol.Invariant(w.alerts)
    ensures var (after, answer) := Calling(s, w, subject, action, o, now);
      && after.inbox == w.inbox
      && Proposals.Invariant(s, after.lifecycle) && AlertProtocol.Invariant(after.alerts) && Forward(w, after)
      && (Handle(subject, action, answer) == Ok(MoveTo(Actioned, true)) ==> Settled(after, subject))
  {
    match subject
    case ProposalReview(id) => ProposalCallForward(s, w, id, action, o, now);
    case AlertNotification(id) => AlertCallForward(w, id, action, now);
    case DiagnosticsIssue(_) =>
    case ScannerSummary(_) =>
  }

  /** A closed request is closed with its outcome, and no other request changes. */
  lemma ApplyingActions(st: InboxState, id: RequestId, action: Action, answer: ServiceAnswer, now: int, k: RequestId)
    requires Keyed(st)
    ensures var after := Applying(st, id, action, answer, now).0;
      k in after.requests && after.requests[k].status == Actioned ==>
        && k in st.requests && after.requests[k].subject == st.requests[k].subject
        && (st.requests[k].status == Actioned
            || (k == id && action != Skip
              && Handle(st.requests[k].subject, action, answer) == Ok(MoveTo(Actioned, true))))
  {
  }

  lemma ActionKeeps(s: Settings, w: World, id: RequestId, action: Action, o: Outside, now: int)
    requires Validated(s) && Invariant(s, w)
    ensures Invariant(s, Acting(s, w, id, action, o, now).0) && Forward(w, Acting(s, w, id, action, o, now).0)
  {
    var acts := id in w.inbox.requests && action != Skip;
    var (called, answer) := if acts then Calling(s, w, w.inbox.requests[id].subject, action, o, now) else (w, Refuses);
    if acts { CallingForward(s, w, w.inbox.requests[id].subject, action, o, now); }
    ActionsDrainQueue(w.inbox, id, action, answer, now);
    var w' := Acting(s, w, id, action, o, now).0;
    assert w' == called.(inbox := Applying(w.inbox, id, action, answer, now).0);
    forall k | k in w'.inbox.requests && w'.inbox.requests[k].status == Actioned
      ensures Settled(w', w'.inbox.requests[k].subject)
    {
      ApplyingActions(w.inbox, id, action, answer, now, k);
      if w.inbox.requests[k].status == Actioned { SettledForward(w, w', w.inbox.requests[k].subject); }
    }
  }

  lemma ServicesKeep(s: Settings, w: World, w': World)
    requires Invariant(s, w) && Forward(w, w') && w'.inbox == w.inbox
    requires Proposals.Invariant(s, w'.lifecycle) && AlertProtocol.Invariant(w'.alerts)
    ensures Invariant(s, w')
  {
    forall k | k in w.inbox.requests && w.inbox.requests[k].status == Actioned
      ensures Settled(w', w.inbox.requests[k].subject)
    {
      SettledForward(w, w', w.inbox.requests[k].subject);
    }
  }

  lemma ApplyKeeps(s: Settings, w: World, op: Operation)
    requires Validated(s) && Invariant(s, w) && Legal(w, op)
    ensures Invariant(s, Apply(s, w, op)) && Forward(w, Apply(s, w, op))
  {
    match op
    case RequestOp(_, _) =>
    case ActionOp(id, action, o, now) => ActionKeeps(s, w, id, action, o, now);
    case OnProposals(p) =>
      ProposalsForward(s, w, p);
      ServicesKeep(s, w, Apply(s, w, op));
    case OnAlerts(a) =>
      AlertsForward(w, a);
      ServicesKeep(s, w, Apply(s, w, op));
  }

  lemma {:induction false} RunKeepsInvariant(s: Settings, w: World, ops: seq<Operation>)
    requires Validated(s) && Invariant(s, w) && LegalRun(s, w, ops)
    ensures Invariant(s, Run(s, w, ops)) && Forward(w, Run(s, w, ops))
    decreases |ops|
  {
    if ops != [] {
      ApplyKeeps(s, w, ops[0]);
      RunKeepsInvariant(s, Apply(s, w, ops[0]), ops[1..]);
    }
  }

  lemma EmptyIsConsistent(s: Settings)
    ensures Invariant(s, EMPTY_WORLD)
  {
    Proposals.EmptyIsConsistent(s);
  }

  // ---- Whole-run theorems -----------------------------------------------------------------------------------------

  /** In every run, whatever else happens to proposals and alerts, an actioned proposal request means that its proposal
      has been decided, an actioned alert request that its alert is no longer open; no summary is ever actioned. */
  lemma ActionedMeansSettled(s: Settings, ops: seq<Operation>, id: RequestId)
    requires Validated(s) && LegalRun(s, EMPTY_WORLD, ops)
    requires id in Run(s, EMPTY_WORLD, ops).inbox.requests
    requires Run(s, EMPTY_WORLD, ops).inbox.requests[id].status == Actioned
    ensures Settled(Run(s, EMPTY_WORLD, ops), Run(s, EMPTY_WORLD, ops).inbox.requests[id].subject)
  {
    EmptyIsConsistent(s);
    RunKeepsInvariant(s, EMPTY_WORLD, ops);
  }

  predicate Final(st: Lifecycle.LifecycleState, id: nat) {
    id in st.proposals && st.proposals[id].status in {PolicyRejected, Cancelled}
  }

  /** The converse fails for good: once a proposal was cancelled or rejected by policy otherwise, a review request still
      open for it can never be actioned, after any further operations: approving, rejecting and cancelling are refused
      and leave it open, and only skipping it or asking for analysis takes it out of the queue. */
  lemma OrphansAreNeverActioned(s: Settings, w: World, ops: seq<Operation>, id: RequestId, proposalId: nat,
      action: Action,
                                o: Outside, now: int)
    requires Validated(s) && Invariant(s, w) && LegalRun(s, w, ops)
    requires Final(w.lifecycle, proposalId) && action in {Approve, Reject, Cancel}
    requires id in Run(s, w, ops).inbox.requests
    requires Run(s, w, ops).inbox.requests[id].subject == ProposalReview(proposalId)
    ensures Acting(s, Run(s, w, ops), id, action, o, now) == (Run(s, w, ops), Err(ServiceError))
  {
    FinalForever(s, w, ops, proposalId);
  }

  /** How a request comes to that: an approval through it that is refused because the proposal expired, or because fresh
      data fails the policies, makes the proposal final and leaves the inbox as it was, the request open with it. */
  lemma RefusedApprovalOrphans(s: Settings, w: World, id: RequestId, o: Outside, now: int)
    requires Invariant(s, w) && id in w.inbox.requests && w.inbox.requests[id].subject.ProposalReview?
    requires
      var proposalId := w.inbox.requests[id].subject.proposalId;
      Lifecycle.Approving(w.lifecycle, s, proposalId, NO_EXPOSURE, o.source, now).1
      in {Err(Lifecycle.ApprovalTtlExpired), Err(Lifecycle.RevalidationFailed)}
    ensures var (after, r) := Acting(s, w, id, Approve, o, now);
      && r == Err(ServiceError) && after.inbox == w.inbox
      && Final(after.lifecycle, w.inbox.requests[id].subject.proposalId)
  {
    RefusalIsFinal(s, w.lifecycle, w.inbox.requests[id].subject.proposalId, o.source, now);
  }

  lemma RefusalIsFinal(s: Settings, st: Lifecycle.LifecycleState, id: nat, source: Lifecycle.SnapshotSource, now: int)
    requires Proposals.KeyedStore(st)
    ensures Lifecycle.Approving(st, s, id, NO_EXPOSURE, source, now).1
            in {Err(Lifecycle.ApprovalTtlExpired), Err(Lifecycle.RevalidationFailed)} ==>
              Final(Lifecycle.Approving(st, s, id, NO_EXPOSURE, source, now).0, id)
  {
  }

  lemma FinalStays(s: Settings, w: World, op: Operation, id: nat)
    requires Validated(s) && Invariant(s, w) && Legal(w, op) && Final(w.lifecycle, id)
    ensures Final(Apply(s, w, op).lifecycle, id)
  {
    match op
    case RequestOp(_, _) =>
    case OnAlerts(_) =>
    case OnProposals(p) => FinalProposalStays(s, w.lifecycle, p, id);
    case ActionOp(k, action, o, now) =>
      if k in w.inbox.requests && w.inbox.requests[k].subject.ProposalReview? {
        var asked := w.inbox.requests[k].subject.proposalId;
        CallIsOperation(s, w.lifecycle, asked, action, o, now);
        if action in {Approve, Reject, Cancel, Analysis} {
          FinalProposalStays(s, w.lifecycle, ProposalOp(asked, action, o, now), id);
        }
      }
  }

  lemma FinalProposalStays(s: Settings, st: Lifecycle.LifecycleState, op: Proposals.Operation, id: nat)
    requires Proposals.KeyedStore(st) && Proposals.Legal(st, op) && Final(st, id)
    ensures Final(Proposals.Apply(s, st, op), id)
  {
    Proposals.ApplySettles(s, st, op, id);
    assert Proposals.Settled(st.proposals[id], Proposals.Apply(s, st, op).proposals[id]);
  }

  lemma {:induction false} FinalForever(s: Settings, w: World, ops: seq<Operation>, id: nat)
    requires Validated(s) && Invariant(s, w) && LegalRun(s, w, ops) && Final(w.lifecycle, id)
    ensures Final(Run(s, w, ops).lifecycle, id)
    decreases |ops|
  {
    if ops != [] {
      ApplyKeeps(s, w, ops[0]);
      FinalStays(s, w, ops[0], id);
      FinalForever(s, Apply(s, w, ops[0]), ops[1..], id);
    }
  }

  // ---- Reviving a closed request ----------------------------------------------------------------------------------

  /** Four steps from nothing: a failing check is raised, refreshed once it passes, raised again when it fails again,
      and then the first, closed request is refreshed while the check still fails. */
  function RevivalRun(o: Outside): seq<Operation> {
    [RequestOp(DiagnosticsIssue("gamma"), 1),
     ActionOp(0, Refresh, o.(checks := map["gamma" := true]), 2),
     RequestOp(DiagnosticsIssue("gamma"), 3),
     ActionOp(0, Refresh, o.(checks := map["gamma" := false]), 4)]
  }

  /** Half-way: the first request is closed. */
  const HALF_WAY: World := EMPTY_WORLD.(inbox :=
    InboxState(map[0 := Request(0, DiagnosticsIssue("gamma"), Actioned, 1, 2, Some(2))],
        [ActionRecord(0, Refresh, 2)], 1))

  /** A legal run that ends with two active requests on one subject, both for the same check. */
  lemma RevivalExample(s: Settings, o: Outside)
    ensures LegalRun(s, EMPTY_WORLD, RevivalRun(o))
    ensures !OneActivePerSubject(Run(s, EMPTY_WORLD, RevivalRun(o)).inbox)
  {
    var ops := RevivalRun(o);
    RevivalFirstHalf(s, o);
    RevivalSecondHalf(s, o);
    var w1, w3 := Apply(s, EMPTY_WORLD, ops[0]), Apply(s, HALF_WAY, ops[2]);
    OneStep(s, EMPTY_WORLD, ops);
    OneStep(s, w1, ops[1..]);
    OneStep(s, HALF_WAY, ops[1..][1..]);
    OneStep(s, w3, ops[1..][1..][1..]);
  }

  lemma RevivalFirstHalf(s: Settings, o: Outside)
    ensures var ops := RevivalRun(o); var w1 := Apply(s, EMPTY_WORLD, ops[0]);
      Legal(EMPTY_WORLD, ops[0]) && Legal(w1, ops[1]) && Apply(s, w1, ops[1]) == HALF_WAY
  {
    var raised := Request(0, DiagnosticsIssue("gamma"), Open, 1, 1, None);
    assert Apply(s, EMPTY_WORLD, RevivalRun(o)[0]) == EMPTY_WORLD.(inbox := InboxState(map[0 := raised], [], 1));
  }

  lemma RevivalSecondHalf(s: Settings, o: Outside)
    ensures var ops := RevivalRun(o); var w3 := Apply(s, HALF_WAY, ops[2]);
      Legal(HALF_WAY, ops[2]) && Legal(w3, ops[3]) && !OneActivePerSubject(Apply(s, w3, ops[3]).inbox)
  {
    var issue, ops := DiagnosticsIssue("gamma"), RevivalRun(o);
    var w3 := Apply(s, HALF_WAY, ops[2]);
    assert w3.inbox.requests[1] == Request(1, issue, Open, 3, 3, None);
    var w4 := Apply(s, w3, ops[3]);
    assert w4.inbox.requests[0] == Request(0, issue, Acknowledged, 1, 4, Some(2));
    assert w4.inbox.requests[0].status.Active() && ActiveFor(w4.inbox.requests[1], issue);
  }

  lemma OneStep(s: Settings, w: World, ops: seq<Operation>)
    requires ops != []
    ensures Run(s, w, ops) == Run(s, Apply(s, w, ops[0]), ops[1..])
    ensures LegalRun(s, w, ops) <==> Legal(w, ops[0]) && LegalRun(s, Apply(s, w, ops[0]), ops[1..])
  {
  }
}
