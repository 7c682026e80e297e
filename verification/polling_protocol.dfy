/** Polling and the inbox together: what a notification leaves behind for the operator to act on. */
module PollingProtocol {
  import opened Common
  import opened DecisionInbox
  import opened TelegramPolling

  /** The polls' state, the inbox, and everything notified so far. */
  datatype Joint = Joint(poll: PollState, inbox: InboxState, notes: seq<Notification>)

  const NOTHING_YET: Joint := Joint(START, EMPTY, [])

  /** Between polls the operator acts on requests, with any answer of the services behind them. */
  datatype Operation =
    | PollOp(lists: Reads)
    | ActionOp(id: RequestId, action: Action, answer: ServiceAnswer, now: int)

  function Apply(t: Timing, j: Joint, op: Operation): Joint {
    match op
    case PollOp(r) =>
      Joint(Polling(t, j.poll, r).0, RequestingAll(j.inbox, Raised(t, j.poll, r), r.requestedAt),
            j.notes + Polling(t, j.poll, r).1)
    case ActionOp(id, action, answer, now) => j.(inbox := Applying(j.inbox, id, action, answer, now).0)
  }

  function Run(t: Timing, j: Joint, ops: seq<Operation>): Joint
    decreases |ops|
  {
    if ops == [] then j else Run(t, Apply(t, j, ops[0]), ops[1..])
  }

  // ---- The requests on a subject ----------------------------------------------------------------------------------

  /** Every request ever made on a subject, whatever has become of it. */
  function RequestsOn(st: InboxState, subject: Subject): set<RequestId> {
    set id | id in st.requests && st.requests[id].subject == subject
  }

  lemma RequestAdds(st: InboxState, subject: Subject, now: int, x: Subject)
    requires Keyed(st)
    ensures Keyed(Requesting(st, subject, now))
    ensures x != subject ==> RequestsOn(Requesting(st, subject, now), x) == RequestsOn(st, x)
    ensures RequestsOn(st, subject) == {} ==> RequestsOn(Requesting(st, subject, now), subject) == {st.nextId}
  {
    var found := FindActive(st, subject);
    if found.Some? { assert found.value in RequestsOn(st, subject); }
  }

  /** A subject asked for at most once, and never before, gets as many requests as it is asked for. */
  lemma {:induction false} RequestsAdd(st: InboxState, subjects: seq<Subject>, now: int, x: Subject)
    requires Keyed(st) && multiset(subjects)[x] <= 1
    requires multiset(subjects)[x] == 0 || RequestsOn(st, x) == {}
    ensures Keyed(RequestingAll(st, subjects, now))
    ensures |RequestsOn(RequestingAll(st, subjects, now), x)| == |RequestsOn(st, x)| + multiset(subjects)[x]
    ensures multiset(subjects)[x] == 0 ==> RequestsOn(RequestingAll(st, subjects, now), x) == RequestsOn(st, x)
  {
    if subjects != [] {
      var init, last := subjects[..|subjects| - 1], subjects[|subjects| - 1];
      assert subjects == init + [last];
      RequestsAdd(st, init, now, x);
      RequestAdds(RequestingAll(st, init, now), last, now, x);
    }
  }

  lemma ActionsAddNone(st: InboxState, id: RequestId, action: Action, answer: ServiceAnswer, now: int, x: Subject)
    requires Keyed(st)
    ensures var after := Applying(st, id, action, answer, now).0;
      Keyed(after) && RequestsOn(after, x) == RequestsOn(st, x)
  {
  }

  // ---- What a poll asks for ---------------------------------------------------------------------------------------

  lemma {:induction false} ReviewsAskedFor(ids: seq<ProposalId>, p: ProposalId, a: AlertId)
    ensures multiset(ReviewSubjects(ids))[ProposalReview(p)] == multiset(ids)[p]
    ensures multiset(ReviewSubjects(ids))[AlertNotification(a)] == 0
  {
    if ids != [] {
      assert ids == ids[..|ids| - 1] + [ids[|ids| - 1]];
      ReviewsAskedFor(ids[..|ids| - 1], p, a);
    }
  }

  lemma {:induction false} AlertsAskedFor(ids: seq<AlertId>, p: ProposalId, a: AlertId)
    ensures multiset(AlertSubjects(ids))[AlertNotification(a)] == multiset(ids)[a]
    ensures multiset(AlertSubjects(ids))[ProposalReview(p)] == 0
  {
    if ids != [] {
      assert ids == ids[..|ids| - 1] + [ids[|ids| - 1]];
      AlertsAskedFor(ids[..|ids| - 1], p, a);
    }
  }

  lemma {:induction false} ChecksAskedFor(checks: seq<string>, p: ProposalId, a: AlertId)
    ensures multiset(CheckSubjects(checks))[ProposalReview(p)] == 0
    ensures multiset(CheckSubjects(checks))[AlertNotification(a)] == 0
  {
    if checks != [] { ChecksAskedFor(checks[..|checks| - 1], p, a); }
  }

  /** A poll asks for a review of exactly the proposals it notifies, and for a request on exactly the alerts. */
  lemma AsksForWhatItNotifies(t: Timing, st: PollState, r: Reads, p: ProposalId, a: AlertId)
    ensures multiset(Raised(t, st, r))[ProposalReview(p)] == Times(Polling(t, st, r).1, ProposalNote(p)) <= 1
    ensures multiset(Raised(t, st, r))[AlertNotification(a)] == Times(Polling(t, st, r).1, AlertNote(a)) <= 1
  {
    ReviewsAskedFor(NewProposals(st, r), p, a);
    AlertsAskedFor(NewAlerts(st, r), p, a);
    ChecksAskedFor(FailingChecks(t, st, r), p, a);
    PollNotifiesProposal(t, st, r, p);
    PollNotifiesAlert(t, st, r, a);
    UnseenOnce(Pending(r.secondProposals), SeenProposals(st, r), p);
    UnseenOnce(r.secondAlerts, SeenAlerts(st, r), a);
  }

  lemma {:induction false} RequestedChecks(checks: seq<string>, check: string)
    ensures multiset(CheckSubjects(checks))[DiagnosticsIssue(check)] == multiset(checks)[check]
  {
    if checks != [] {
      assert checks == checks[..|checks| - 1] + [checks[|checks| - 1]];
      RequestedChecks(checks[..|checks| - 1], check);
    }
  }

  lemma {:induction false} NoCheckReviews(ids: seq<nat>, check: string)
    ensures DiagnosticsIssue(check) !in ReviewSubjects(ids) && DiagnosticsIssue(check) !in AlertSubjects(ids)
  {
    if ids != [] { NoCheckReviews(ids[..|ids| - 1], check); }
  }

  /** After any polls, the next one asks for a request on each failing check exactly when diagnostics are due since
      their last run, whether or not it announces them; the first poll asks for none. */
  lemma AsksForChecksWhenDue(t: Timing, polls: seq<Reads>, r: Reads, check: string)
    ensures var (at, _) := LastRun(t.diagnosticsInterval, 0, None, polls);
      multiset(Raised(t, TelegramPolling.Run(t, START, polls).0, r))[DiagnosticsIssue(check)]
      == if polls != [] && r.now - at >= t.diagnosticsInterval then multiset(r.diagnostics.failing)[check] else 0
  {
    var st := TelegramPolling.Run(t, START, polls).0;
    StateRemembersLastRun(t, START, polls);
    NoCheckReviews(NewProposals(st, r), check);
    NoCheckReviews(NewAlerts(st, r), check);
    RequestedChecks(FailingChecks(t, st, r), check);
  }

  // ---- Runs -------------------------------------------------------------------------------------------------------

  predicate ProposalMatches(j: Joint, p: ProposalId) {
    && |RequestsOn(j.inbox, ProposalReview(p))| == Times(j.notes, ProposalNote(p)) <= 1
    && (Times(j.notes, ProposalNote(p)) > 0 ==> p in j.poll.seenProposals)
  }

  predicate AlertMatches(j: Joint, a: AlertId) {
    && |RequestsOn(j.inbox, AlertNotification(a))| == Times(j.notes, AlertNote(a)) <= 1
    && (Times(j.notes, AlertNote(a)) > 0 ==> a in j.poll.seenAlerts)
  }

  lemma PollKeepsProposal(t: Timing, j: Joint, r: Reads, p: ProposalId)
    requires Keyed(j.inbox) && ProposalMatches(j, p)
    ensures Keyed(Apply(t, j, PollOp(r)).inbox) && ProposalMatches(Apply(t, j, PollOp(r)), p)
  {
    AsksForWhatItNotifies(t, j.poll, r, p, 0);
    PollNotifiesProposal(t, j.poll, r, p);
    TimesConcat(j.notes, Polling(t, j.poll, r).1, ProposalNote(p));
    RequestsAdd(j.inbox, Raised(t, j.poll, r), r.requestedAt, ProposalReview(p));
  }

  lemma PollKeepsAlert(t: Timing, j: Joint, r: Reads, a: AlertId)
    requires Keyed(j.inbox) && AlertMatches(j, a)
    ensures Keyed(Apply(t, j, PollOp(r)).inbox) && AlertMatches(Apply(t, j, PollOp(r)), a)
  {
    AsksForWhatItNotifies(t, j.poll, r, 0, a);
    PollNotifiesAlert(t, j.poll, r, a);
    TimesConcat(j.notes, Polling(t, j.poll, r).1, AlertNote(a));
    RequestsAdd(j.inbox, Raised(t, j.poll, r), r.requestedAt, AlertNotification(a));
  }

  lemma ApplyKeeps(t: Timing, j: Joint, op: Operation, p: ProposalId, a: AlertId)
    requires Keyed(j.inbox) && ProposalMatches(j, p) && AlertMatches(j, a)
    ensures Keyed(Apply(t, j, op).inbox) && ProposalMatches(Apply(t, j, op), p) && AlertMatches(Apply(t, j, op), a)
  {
    match op
    case PollOp(r) =>
      PollKeepsProposal(t, j, r, p);
      PollKeepsAlert(t, j, r, a);
    case ActionOp(id, action, answer, now) =>
      ActionsAddNone(j.inbox, id, action, answer, now, ProposalReview(p));
      ActionsAddNone(j.inbox, id, action, answer, now, AlertNotification(a));
  }

  lemma {:induction false} RunKeeps(t: Timing, j: Joint, ops: seq<Operation>, p: ProposalId, a: AlertId)
    requires Keyed(j.inbox) && ProposalMatches(j, p) && AlertMatches(j, a)
    ensures ProposalMatches(Run(t, j, ops), p) && AlertMatches(Run(t, j, ops), a)
    decreases |ops|
  {
    if ops != [] {
      ApplyKeeps(t, j, ops[0], p, a);
      RunKeeps(t, Apply(t, j, ops[0]), ops[1..], p, a);
    }
  }

  /** Over every run of polls, with any actions on requests between them: a proposal or alert has exactly one request in
      the inbox if it was ever notified, and none if it never was. No second request is ever made for one,
          not even after
      the first was closed. */
  lemma OneRequestPerNotification(t: Timing, ops: seq<Operation>, p: ProposalId, a: AlertId)
    ensures var j := Run(t, NOTHING_YET, ops);
      && |RequestsOn(j.inbox, ProposalReview(p))| == Times(j.notes, ProposalNote(p)) <= 1
      && |RequestsOn(j.inbox, AlertNotification(a))| == Times(j.notes, AlertNote(a)) <= 1
  {
    RunKeeps(t, NOTHING_YET, ops, p, a);
  }
}
