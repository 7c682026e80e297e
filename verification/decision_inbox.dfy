/** The decision inbox (`bot/services/decision_inbox.py`, `bot/services/inbox_handlers`, `bot/storage/inbox_repo.py`):
    requests for the operator, the actions on them, and the review queue of open requests, oldest first. */
module DecisionInbox {
  import opened Common
  import opened StableSorting

  type RequestId = nat

  /** What a request is about: its type together with the entity it names. */
  datatype Subject =
    | ProposalReview(proposalId: nat)
    | AlertNotification(alertId: nat)
    | DiagnosticsIssue(check: string)
    | ScannerSummary(name: string)

  datatype RequestStatus = Open | Acknowledged | Actioned | Expired | Dismissed {
    predicate Active() { Open? || Acknowledged? }
  }

  datatype Request = Request(
    requestId: RequestId,
    subject: Subject,
    status: RequestStatus,
    createdAt: int,
    updatedAt: int,
    actionedAt: Option<int>)

  datatype Action = Skip | Approve | Reject | Cancel | Analysis | Details | Acknowledge | Refresh | UnknownAction

  /** How the service behind a handler answers: it may refuse, and a refreshed check may still fail. */
  datatype ServiceAnswer = Refuses | Done(checkOk: bool)

  datatype InboxError = UnknownRequest | CannotSkip | UnsupportedAction | ServiceError

  datatype ActionRecord = ActionRecord(requestId: RequestId, action: Action, at: int)

  datatype InboxState = InboxState(requests: map<RequestId, Request>, records: seq<ActionRecord>, nextId: RequestId)

  const EMPTY: InboxState := InboxState(map[], [], 0)

  // ---- Handlers ---------------------------------------------------------------------------------------------------

  /** What a handler tells the inbox to do; no status means that the request is left alone and nothing is recorded. */
  datatype HandlerOutcome = LeaveAlone | MoveTo(status: RequestStatus, markActioned: bool)

  /** The actions each handler has a service for. */
  predicate Supported(subject: Subject, action: Action) {
    match subject
    case ProposalReview(_) => action in {Approve, Reject, Cancel, Analysis, Details}
    case AlertNotification(_) => action in {Acknowledge, Details}
    case DiagnosticsIssue(_) => action in {Refresh, Details}
    case ScannerSummary(_) => action == Details
  }

  function Handle(subject: Subject, action: Action, answer: ServiceAnswer): Result<HandlerOutcome, InboxError> {
    if !Supported(subject, action) then Err(UnsupportedAction)
    else if answer == Refuses then Err(ServiceError)
    else if action == Details then Ok(LeaveAlone)
    else if action == Analysis || (action == Refresh && !answer.checkOk) then Ok(MoveTo(Acknowledged, false))
    else Ok(MoveTo(Actioned, true))
  }

  // ---- Specification ----------------------------------------------------------------------------------------------

  predicate ActiveFor(r: Request, subject: Subject) { r.subject == subject && r.status.Active() }

  /** The store's answer when asked for an active request on a subject: the one updated last. */
  function FindBelow(requests: map<RequestId, Request>, subject: Subject, n: RequestId): (found: Option<RequestId>)
    ensures found.Some? ==> found.value < n && found.value in requests && ActiveFor(requests[found.value], subject)
    ensures forall id :: id < n && id in requests && ActiveFor(requests[id], subject) ==>
              found.Some? && requests[id].updatedAt <= requests[found.value].updatedAt
  {
    if n == 0 then None
    else
      var before := FindBelow(requests, subject, n - 1);
      if n - 1 in requests && ActiveFor(requests[n - 1], subject)
         && (before.None? || requests[before.value].updatedAt <= requests[n - 1].updatedAt)
      then Some(n - 1)
      else before
  }

  function FindActive(st: InboxState, subject: Subject): Option<RequestId> {
    FindBelow(st.requests, subject, st.nextId)
  }

  function Requesting(st: InboxState, subject: Subject, now: int): InboxState {
    var found := FindActive(st, subject);
    if found.Some? then st.(requests := st.requests[found.value := st.requests[found.value].(updatedAt := now)])
    else
      InboxState(st.requests[st.nextId := Request(st.nextId, subject, Open, now, now, None)], st.records, st.nextId + 1)
  }

  /** Requests on a list of subjects, one after the other. */
  function RequestingAll(st: InboxState, subjects: seq<Subject>, now: int): InboxState {
    if subjects == [] then st
    else Requesting(RequestingAll(st, subjects[..|subjects| - 1], now), subjects[|subjects| - 1], now)
  }

  lemma RequestingOneMore(st: InboxState, subjects: seq<Subject>, subject: Subject, now: int)
    ensures RequestingAll(st, subjects + [subject], now) == Requesting(RequestingAll(st, subjects, now), subject, now)
  {
    assert (subjects + [subject])[..|subjects|] == subjects;
  }

  lemma {:induction false} RequestingInTurn(st: InboxState, a: seq<Subject>, b: seq<Subject>, now: int)
    ensures RequestingAll(st, a + b, now) == RequestingAll(RequestingAll(st, a, now), b, now)
  {
    if b == [] {
      assert a + b == a;
    } else {
      var init := b[..|b| - 1];
      RequestingInTurn(st, a, init, now);
      RequestingOneMore(st, a + init, b[|b| - 1], now);
      assert a + b == (a + init) + [b[|b| - 1]];
    }
  }

  function Moved(r: Request, outcome: HandlerOutcome, now: int): Request
    requires outcome.MoveTo?
  {
    r.(status := outcome.status, updatedAt := now,
       actionedAt := if outcome.markActioned then Some(now) else r.actionedAt)
  }

  function Recorded(st: InboxState, r: Request, action: Action, now: int): InboxState {
    st.(requests := st.requests[r.requestId := r], records := st.records + [ActionRecord(r.requestId, action, now)])
  }

  function Applying(st: InboxState, id: RequestId, action: Action, answer: ServiceAnswer, now: int)
    : (InboxState, Result<Request, InboxError>)
  {
    if id !in st.requests then (st, Err(UnknownRequest))
    else
      var r := st.requests[id];
      if action == Skip then
        if !r.status.Active() then (st, Err(CannotSkip))
        else
          var skipped := r.(status := Acknowledged, updatedAt := now);
          (Recorded(st, skipped, Skip, now), Ok(skipped))
      else
        match Handle(r.subject, action, answer)
        case Err(error) => (st, Err(error))
        case Ok(LeaveAlone) => (st, Ok(r))
        case Ok(outcome) => (Recorded(st, Moved(r, outcome, now), action, now), Ok(Moved(r, outcome, now)))
  }

  // ---- The review queue -------------------------------------------------------------------------------------------

  function OpenRequests(st: InboxState): set<RequestId> {
    set id | id in st.requests && st.requests[id].status == Open
  }

  /** The open rows, in the order the store lists them. */
  ghost predicate ListsOpen(rows: seq<Request>, st: InboxState) {
    && (forall k :: 0 <= k < |rows| ==>
          rows[k].requestId in st.requests && st.requests[rows[k].requestId] == rows[k] && rows[k].status == Open)
    && (forall id :: id in OpenRequests(st) ==> st.requests[id] in rows)
  }

  function ByCreation(): (Request, Request) -> bool { (a: Request, b: Request) => a.createdAt <= b.createdAt }

  function Queue(rows: seq<Request>): seq<Request> { Sort(rows, ByCreation()) }

  function Next(rows: seq<Request>): Option<Request> {
    var queue := Queue(rows);
    if queue == [] then None else Some(queue[0])
  }

  // ---- Draining ---------------------------------------------------------------------------------------------------

  ghost predicate Keyed(st: InboxState) {
    forall id :: id in st.requests ==> id < st.nextId && st.requests[id].requestId == id
  }

  /** No action opens a request, and every action on an open request that succeeds and is not a mere look takes exactly
      that request out of the queue. */
  lemma ActionsDrainQueue(st: InboxState, id: RequestId, action: Action, answer: ServiceAnswer, now: int)
    requires Keyed(st)
    ensures var (st', r) := Applying(st, id, action, answer, now);
      && Keyed(st')
      && OpenRequests(st') == (if r.Ok? && action != Details then OpenRequests(st) - {id} else OpenRequests(st))
      && (forall other :: other in st.requests && other != id ==>
            other in st'.requests && st'.requests[other] == st.requests[other])
  {
    var (st', r) := Applying(st, id, action, answer, now);
    if r.Ok? && action != Details {
      LooksAreDetails(st.requests[id].subject, action, answer);
      assert OpenRequests(st') == OpenRequests(st) - {id};
    }
  }

  /** Only a look leaves the request alone, and no handler opens one. */
  lemma LooksAreDetails(subject: Subject, action: Action, answer: ServiceAnswer)
    ensures var outcome := Handle(subject, action, answer);
      outcome.Ok? ==>
        && (outcome.value == LeaveAlone <==> action == Details)
        && (outcome.value.MoveTo? ==> outcome.value.status in {Acknowledged, Actioned})
  {
  }

  /** The next request is an oldest open one, and there is none exactly when the queue is empty. */
  lemma NextIsOldest(st: InboxState, rows: seq<Request>)
    requires Keyed(st) && ListsOpen(rows, st)
    ensures Next(rows).None? <==> OpenRequests(st) == {}
    ensures Next(rows).Some? ==>
      && Next(rows).value.requestId in OpenRequests(st)
      && forall id :: id in OpenRequests(st) ==> Next(rows).value.createdAt <= st.requests[id].createdAt
  {
    assert TotalPreorder(ByCreation());
    SortIsStable(rows, ByCreation());
    var queue := Queue(rows);
    if queue != [] {
      assert queue[0] in multiset(rows);
      forall id | id in OpenRequests(st) ensures queue[0].createdAt <= st.requests[id].createdAt {
        assert st.requests[id] in multiset(queue);
        var k :| 0 <= k < |queue| && queue[k] == st.requests[id];
        assert k > 0 ==> ByCreation()(queue[0], queue[k]);
      }
    } else {
      assert rows == [];
    }
    if rows != [] { assert rows[0].requestId in OpenRequests(st); }
  }

  /** What is offered after a handled request: the oldest of the remaining ones, or nothing when none remain. */
  lemma OfferedNext(st: InboxState, id: RequestId, action: Action, answer: ServiceAnswer, now: int, rows: seq<Request>)
    requires Keyed(st) && action != Details && Applying(st, id, action, answer, now).1.Ok?
    requires ListsOpen(rows, Applying(st, id, action, answer, now).0)
    ensures Next(rows).None? <==> OpenRequests(st) - {id} == {}
    ensures Next(rows).Some? ==> Next(rows).value.requestId in OpenRequests(st) - {id}
  {
    ActionsDrainQueue(st, id, action, answer, now);
    NextIsOldest(Applying(st, id, action, answer, now).0, rows);
  }

  /** One review: a choice of action for whichever request is next. */
  datatype Review = Review(id: RequestId, action: Action, answer: ServiceAnswer, now: int)

  /** A session of successful reviews, each of an open request and none a mere look. */
  predicate Session(st: InboxState, reviews: seq<Review>)
    decreases |reviews|
  {
    reviews == [] ||
    (var v := reviews[0];
     var (st', r) := Applying(st, v.id, v.action, v.answer, v.now);
     v.id in OpenRequests(st) && v.action != Details && r.Ok? && Session(st', reviews[1..]))
  }

  function AfterSession(st: InboxState, reviews: seq<Review>): InboxState
    decreases |reviews|
  {
    if reviews == [] then st
    else
      var v := reviews[0];
      AfterSession(Applying(st, v.id, v.action, v.answer, v.now).0, reviews[1..])
  }

  /** Each review shortens the queue by one: a session has at most as many reviews as there were open requests, and
      with that many the queue is empty. */
  lemma {:induction false} SessionsDrainQueue(st: InboxState, reviews: seq<Review>)
    requires Keyed(st) && Session(st, reviews)
    ensures |OpenRequests(AfterSession(st, reviews))| + |reviews| == |OpenRequests(st)|
    decreases |reviews|
  {
    if reviews != [] {
      var v := reviews[0];
      ActionsDrainQueue(st, v.id, v.action, v.answer, v.now);
      SessionsDrainQueue(Applying(st, v.id, v.action, v.answer, v.now).0, reviews[1..]);
    }
  }

  // ---- One active request per subject -----------------------------------------------------------------------------

  ghost predicate OneActivePerSubject(st: InboxState) {
    forall a, b | a in st.requests && b in st.requests ::
      (st.requests[a].status.Active() && ActiveFor(st.requests[b], st.requests[a].subject)) ==> a == b
  }

  lemma CreationKeepsOneActive(st: InboxState, subject: Subject, now: int)
    requires Keyed(st) && OneActivePerSubject(st)
    ensures Keyed(Requesting(st, subject, now)) && OneActivePerSubject(Requesting(st, subject, now))
  {
  }

  /** A request for a subject opens a new request exactly when none on it is active; otherwise it only touches the time
      of one of those updated last. No other request changes. */
  lemma CreationEffect(st: InboxState, subject: Subject, now: int)
    requires Keyed(st)
    ensures var after := Requesting(st, subject, now);
      && after.records == st.records
      && ((forall id :: id in st.requests && st.requests[id].subject == subject ==>
             st.requests[id].status !in {Open, Acknowledged}) ==>
            && after.nextId == st.nextId + 1
            && after.requests == st.requests[st.nextId := Request(st.nextId, subject, Open, now, now, None)])
      && ((exists id :: id in st.requests && st.requests[id].subject == subject
                        && st.requests[id].status in {Open, Acknowledged}) ==>
            && after.nextId == st.nextId
            && exists id :: RefreshedLast(st, after, id, subject, now))
  {
    var found := FindActive(st, subject);
    if found.Some? { assert RefreshedLast(st, Requesting(st, subject, now), found.value, subject, now); }
  }

  ghost predicate RefreshedLast(st: InboxState, after: InboxState, id: RequestId, subject: Subject, now: int) {
    && id in st.requests && st.requests[id].subject == subject && st.requests[id].status in {Open, Acknowledged}
    && after.requests == st.requests[id := st.requests[id].(updatedAt := now)]
    && (forall other :: other in st.requests && st.requests[other].subject == subject
                        && st.requests[other].status in {Open, Acknowledged} ==>
          st.requests[other].updatedAt <= st.requests[id].updatedAt)
  }

  /** An action that revives a closed request while another request on its subject is active. */
  ghost predicate RevivesDuplicate(st: InboxState, id: RequestId, action: Action, answer: ServiceAnswer) {
    && id in st.requests && !st.requests[id].status.Active() && action != Skip
    && Handle(st.requests[id].subject, action, answer) == Ok(MoveTo(Acknowledged, false))
    && exists other :: other in st.requests && other != id && ActiveFor(st.requests[other], st.requests[id].subject)
  }

  /** An action keeps one active request per subject exactly when it does not revive a closed duplicate: requesting
      analysis, or a refresh that still fails, sets even an actioned request back to acknowledged. */
  lemma ActionKeepsOneActiveIff(st: InboxState, id: RequestId, action: Action, answer: ServiceAnswer, now: int)
    requires Keyed(st) && OneActivePerSubject(st)
    ensures OneActivePerSubject(Applying(st, id, action, answer, now).0) <==> !RevivesDuplicate(st, id, action, answer)
  {
    var st' := Applying(st, id, action, answer, now).0;
    if id in st.requests { LooksAreDetails(st.requests[id].subject, action, answer); }
    if RevivesDuplicate(st, id, action, answer) {
      var other :| other in st.requests && other != id && ActiveFor(st.requests[other], st.requests[id].subject);
      assert st'.requests[id].status.Active() && ActiveFor(st'.requests[other], st'.requests[id].subject);
    }
  }
}
