/** Telegram notification polling (`bot/services/telegram_operator_service.py`): the first poll primes the seen sets,
    every later sight of an unseen proposal or alert is notified once, and diagnostics and background scans are rate
    limited by the monotonic clock. */
module TelegramPolling {
  import opened Common
  import Alerts = OperatorAlerts
  import AlertProtocol
  import Inbox = DecisionInbox
  import InboxService

  type ProposalId = nat
  type AlertId = Alerts.AlertId

  datatype ActiveProposal = ActiveProposal(id: ProposalId, pending: bool)

  /** The result of a diagnostics run: no signature when everything is fine, and the labels of the failing checks. */
  datatype Diagnostics = Diagnostics(signature: Option<string>, failing: seq<string>)

  datatype Notification =
    | ProposalNote(proposal: ProposalId)
    | AlertNote(alert: AlertId)
    | DiagnosticsNote(check: string)

  /** What one poll reads: the clock, the lists before and after the background scan, the time its requests are made,
      and what diagnostics would say. */
  datatype Reads = Reads(
    now: int,
    firstProposals: seq<ActiveProposal>,
    firstAlerts: seq<AlertId>,
    scanNow: int,
    secondProposals: seq<ActiveProposal>,
    secondAlerts: seq<AlertId>,
    requestedAt: int,
    diagnostics: Diagnostics)

  datatype PollState = PollState(
    primed: bool,
    seenProposals: set<ProposalId>,
    seenAlerts: set<AlertId>,
    lastFailure: Option<string>,
    lastDiagnosticsCheck: int,
    lastBackgroundScan: int)

  const START: PollState := PollState(false, {}, {}, None, 0, 0)

  /** Intervals in the unit of the clock; a background scan is impossible without its service. */
  datatype Timing = Timing(diagnosticsInterval: int, scanService: bool, scanInterval: int)

  // ---- Specification ----------------------------------------------------------------------------------------------

  function Pending(proposals: seq<ActiveProposal>): seq<ProposalId> {
    if proposals == [] then []
    else (if proposals[0].pending then [proposals[0].id] else []) + Pending(proposals[1..])
  }

  function Ids(proposals: seq<ActiveProposal>): set<ProposalId> {
    set k | 0 <= k < |proposals| :: proposals[k].id
  }

  function Elements(ids: seq<nat>): set<nat> { set k | 0 <= k < |ids| :: ids[k] }

  /** The identifiers of a list that are not in `seen`, each at its first occurrence. */
  function Unseen(ids: seq<nat>, seen: set<nat>): seq<nat> {
    if ids == [] then []
    else if ids[0] in seen then Unseen(ids[1..], seen)
    else [ids[0]] + Unseen(ids[1..], seen + {ids[0]})
  }

  function ProposalNotes(ids: seq<ProposalId>): (r: seq<Notification>)
    ensures |r| == |ids|
  {
    seq(|ids|, k requires 0 <= k < |ids| => ProposalNote(ids[k]))
  }

  function AlertNotes(ids: seq<AlertId>): (r: seq<Notification>)
    ensures |r| == |ids|
  {
    seq(|ids|, k requires 0 <= k < |ids| => AlertNote(ids[k]))
  }

  function DiagnosticsNotes(checks: seq<string>): (r: seq<Notification>)
    ensures |r| == |checks|
  {
    seq(|checks|, k requires 0 <= k < |checks| => DiagnosticsNote(checks[k]))
  }

  predicate DiagnosticsDue(t: Timing, st: PollState, now: int) {
    now - st.lastDiagnosticsCheck >= t.diagnosticsInterval
  }

  predicate ScanDue(t: Timing, st: PollState, now: int) {
    t.scanService && t.scanInterval >= 0 && now - st.lastBackgroundScan >= t.scanInterval
  }

  /** The seen sets a poll works against: at the first poll they start from what the first reads list. */
  function SeenProposals(st: PollState, r: Reads): set<ProposalId> {
    if st.primed then st.seenProposals else st.seenProposals + Ids(r.firstProposals)
  }

  function SeenAlerts(st: PollState, r: Reads): set<AlertId> {
    if st.primed then st.seenAlerts else st.seenAlerts + Elements(r.firstAlerts)
  }

  function NewProposals(st: PollState, r: Reads): seq<ProposalId> {
    Unseen(Pending(r.secondProposals), SeenProposals(st, r))
  }

  function NewAlerts(st: PollState, r: Reads): seq<AlertId> { Unseen(r.secondAlerts, SeenAlerts(st, r)) }

  /** A failing run is announced when its signature differs from that of the previous run; never at the first poll. */
  function NewFailures(t: Timing, st: PollState, r: Reads): seq<string> {
    if st.primed && DiagnosticsDue(t, st, r.now) && r.diagnostics.signature.Some?
       && r.diagnostics.signature != st.lastFailure
    then r.diagnostics.failing else []
  }

  function ReviewSubjects(ids: seq<ProposalId>): seq<Inbox.Subject> {
    if ids == [] then [] else ReviewSubjects(ids[..|ids| - 1]) + [Inbox.ProposalReview(ids[|ids| - 1])]
  }

  function AlertSubjects(ids: seq<AlertId>): seq<Inbox.Subject> {
    if ids == [] then [] else AlertSubjects(ids[..|ids| - 1]) + [Inbox.AlertNotification(ids[|ids| - 1])]
  }

  function CheckSubjects(checks: seq<string>): seq<Inbox.Subject> {
    if checks == [] then [] else CheckSubjects(checks[..|checks| - 1]) + [Inbox.DiagnosticsIssue(checks[|checks| - 1])]
  }

  /** The failing checks for which a poll makes requests, whether or not it announces them. */
  function FailingChecks(t: Timing, st: PollState, r: Reads): seq<string> {
    if st.primed && DiagnosticsDue(t, st, r.now) then r.diagnostics.failing else []
  }

  /** What a poll asks the inbox for, in order. */
  function Raised(t: Timing, st: PollState, r: Reads): seq<Inbox.Subject> {
    ReviewSubjects(NewProposals(st, r)) + AlertSubjects(NewAlerts(st, r)) + CheckSubjects(FailingChecks(t, st, r))
  }

  function Polling(t: Timing, st: PollState, r: Reads): (PollState, seq<Notification>) {
    (PollState(
       true,
       SeenProposals(st, r) + Elements(NewProposals(st, r)),
       SeenAlerts(st, r) + Elements(NewAlerts(st, r)),
       if DiagnosticsDue(t, st, r.now) then r.diagnostics.signature else st.lastFailure,
       if DiagnosticsDue(t, st, r.now) then r.now else st.lastDiagnosticsCheck,
       if ScanDue(t, st, r.scanNow) then r.scanNow else st.lastBackgroundScan),
     ProposalNotes(NewProposals(st, r)) + AlertNotes(NewAlerts(st, r)) + DiagnosticsNotes(NewFailures(t, st, r)))
  }

  // ---- The service ------------------------------------------------------------------------------------------------

  class TelegramOperatorService {
    const timing: Timing
    const inbox: InboxService.DecisionInboxService
    var primed: bool
    var seenProposals: set<ProposalId>
    var seenAlerts: set<AlertId>
    var lastFailure: Option<string>
    var lastDiagnosticsCheck: int
    var lastBackgroundScan: int

    ghost function State(): PollState
      reads this
    {
      PollState(primed, seenProposals, seenAlerts, lastFailure, lastDiagnosticsCheck, lastBackgroundScan)
    }

    constructor (timing: Timing, inbox: InboxService.DecisionInboxService)
      ensures State() == START && this.timing == timing && this.inbox == inbox
    {
      this.timing, this.inbox := timing, inbox;
      primed, seenProposals, seenAlerts, lastFailure := false, {}, {}, None;
      lastDiagnosticsCheck, lastBackgroundScan := 0, 0;
    }

    method PollNotifications(r: Reads) returns (notes: seq<Notification>)
      modifies this, inbox
      ensures (State(), notes) == Polling(timing, old(State()), r)
      ensures inbox.State() == Inbox.RequestingAll(old(inbox.State()), Raised(timing, old(State()), r), r.requestedAt)
    {
      ghost var before, start := State(), inbox.State();
      var primedThisCycle := false;
      var diagnostics: Option<Diagnostics> := None;
      if r.now - lastDiagnosticsCheck >= timing.diagnosticsInterval {
        lastDiagnosticsCheck := r.now;
        diagnostics := Some(r.diagnostics);
      }
      if !primed {
        seenProposals := seenProposals + Ids(r.firstProposals);
        seenAlerts := seenAlerts + Elements(r.firstAlerts);
        if diagnostics.Some? { lastFailure := diagnostics.value.signature; }
        primed := true;
        primedThisCycle := true;
      }
      if timing.scanService && timing.scanInterval >= 0 && r.scanNow - lastBackgroundScan >= timing.scanInterval {
        lastBackgroundScan := r.scanNow;
      }
      var proposalIds := NotifyProposals(r.secondProposals, r.requestedAt);
      var alertIds := NotifyAlerts(r.secondAlerts, r.requestedAt);
      Inbox.RequestingInTurn(start, ReviewSubjects(proposalIds), AlertSubjects(alertIds), r.requestedAt);
      notes := ProposalNotes(proposalIds) + AlertNotes(alertIds);
      var failures: seq<string> := [];
      if diagnostics.Some? && !primedThisCycle {
        RequestChecks(diagnostics.value.failing, r.requestedAt);
        if diagnostics.value.signature.Some? && diagnostics.value.signature != lastFailure {
          failures := diagnostics.value.failing;
        }
        lastFailure := diagnostics.value.signature;
      }
      notes := notes + DiagnosticsNotes(failures);
      Inbox.RequestingInTurn(start, ReviewSubjects(proposalIds) + AlertSubjects(alertIds),
                             CheckSubjects(FailingChecks(timing, before, r)), r.requestedAt);
    }

    method RequestChecks(checks: seq<string>, now: int)
      modifies inbox
      ensures inbox.State() == Inbox.RequestingAll(old(inbox.State()), CheckSubjects(checks), now)
    {
      for i := 0 to |checks|
        invariant inbox.State() == Inbox.RequestingAll(old(inbox.State()), CheckSubjects(checks[..i]), now)
      {
        assert checks[..i + 1][..i] == checks[..i];
        Inbox.RequestingOneMore(old(inbox.State()), CheckSubjects(checks[..i]), Inbox.DiagnosticsIssue(checks[i]), now);
        inbox.CreateOrUpdateRequest(Inbox.DiagnosticsIssue(checks[i]), now);
      }
      assert checks[..|checks|] == checks;
    }

    method RequestReview(id: ProposalId, now: int, ghost start: Inbox.InboxState, ghost ids: seq<ProposalId>)
      requires inbox.State() == Inbox.RequestingAll(start, ReviewSubjects(ids), now)
      modifies inbox
      ensures inbox.State() == Inbox.RequestingAll(start, ReviewSubjects(ids + [id]), now)
    {
      OneMoreReview(ids, id);
      Inbox.RequestingOneMore(start, ReviewSubjects(ids), Inbox.ProposalReview(id), now);
      inbox.CreateOrUpdateRequest(Inbox.ProposalReview(id), now);
    }

    method RequestAcknowledgement(id: AlertId, now: int, ghost start: Inbox.InboxState, ghost ids: seq<AlertId>)
      requires inbox.State() == Inbox.RequestingAll(start, AlertSubjects(ids), now)
      modifies inbox
      ensures inbox.State() == Inbox.RequestingAll(start, AlertSubjects(ids + [id]), now)
    {
      OneMoreAlert(ids, id);
      Inbox.RequestingOneMore(start, AlertSubjects(ids), Inbox.AlertNotification(id), now);
      inbox.CreateOrUpdateRequest(Inbox.AlertNotification(id), now);
    }

    method NotifyProposals(proposals: seq<ActiveProposal>, now: int) returns (ids: seq<ProposalId>)
      modifies this`seenProposals, inbox
      ensures inbox.State() == Inbox.RequestingAll(old(inbox.State()), ReviewSubjects(ids), now)
      ensures ids == Unseen(Pending(proposals), old(seenProposals))
      ensures seenProposals == old(seenProposals) + Elements(ids)
    {
      ids := [];
      var i := 0;
      while i < |proposals|
        invariant 0 <= i <= |proposals|
        invariant Picked(Pending(proposals), old(seenProposals), ids, Pending(proposals[i..]), seenProposals)
        invariant inbox.State() == Inbox.RequestingAll(old(inbox.State()), ReviewSubjects(ids), now)
      {
        PendingStep(proposals, i);
        var p := proposals[i];
        if p.pending {
          PickStep(Pending(proposals), old(seenProposals), ids, p.id, Pending(proposals[i + 1..]), seenProposals);
        }
        if p.pending && p.id !in seenProposals {
          RequestReview(p.id, now, old(inbox.State()), ids);
          ids := ids + [p.id];
          seenProposals := seenProposals + {p.id};
        }
        i := i + 1;
      }
    }

    method NotifyAlerts(alerts: seq<AlertId>, now: int) returns (ids: seq<AlertId>)
      modifies this`seenAlerts, inbox
      ensures inbox.State() == Inbox.RequestingAll(old(inbox.State()), AlertSubjects(ids), now)
      ensures ids == Unseen(alerts, old(seenAlerts))
      ensures seenAlerts == old(seenAlerts) + Elements(ids)
    {
      ids := [];
      var i := 0;
      while i < |alerts|
        invariant 0 <= i <= |alerts|
        invariant Picked(alerts, old(seenAlerts), ids, alerts[i..], seenAlerts)
        invariant inbox.State() == Inbox.RequestingAll(old(inbox.State()), AlertSubjects(ids), now)
      {
        assert alerts[i..] == [alerts[i]] + alerts[i + 1..];
        PickStep(alerts, old(seenAlerts), ids, alerts[i], alerts[i + 1..], seenAlerts);
        if alerts[i] !in seenAlerts {
          RequestAcknowledgement(alerts[i], now, old(inbox.State()), ids);
          ids := ids + [alerts[i]];
          seenAlerts := seenAlerts + {alerts[i]};
        }
        i := i + 1;
      }
    }
  }

  lemma OneMoreReview(ids: seq<ProposalId>, id: ProposalId)
    ensures ReviewSubjects(ids + [id]) == ReviewSubjects(ids) + [Inbox.ProposalReview(id)]
  {
    assert (ids + [id])[..|ids|] == ids;
  }

  lemma OneMoreAlert(ids: seq<AlertId>, id: AlertId)
    ensures AlertSubjects(ids + [id]) == AlertSubjects(ids) + [Inbox.AlertNotification(id)]
  {
    assert (ids + [id])[..|ids|] == ids;
  }

  /** `ids` are the unseen ones among those of `all` that come before `rest`, and have been remembered. */
  predicate Picked(all: seq<nat>, seenBefore: set<nat>, ids: seq<nat>, rest: seq<nat>, seen: set<nat>) {
    Unseen(all, seenBefore) == ids + Unseen(rest, seen) && seen == seenBefore + Elements(ids)
  }

  lemma PickStep(all: seq<nat>, seenBefore: set<nat>, ids: seq<nat>, id: nat, rest: seq<nat>, seen: set<nat>)
    requires Picked(all, seenBefore, ids, [id] + rest, seen)
    ensures id in seen ==> Picked(all, seenBefore, ids, rest, seen)
    ensures id !in seen ==> Picked(all, seenBefore, ids + [id], rest, seen + {id})
  {
    assert ([id] + rest)[1..] == rest;
    if id !in seen {
      ElementsAppend(ids, id);
      Rejoin(ids, id, Unseen(rest, seen + {id}));
    }
  }

  lemma PendingStep(proposals: seq<ActiveProposal>, i: nat)
    requires i < |proposals|
    ensures Pending(proposals[i..]) ==
      if proposals[i].pending then [proposals[i].id] + Pending(proposals[i + 1..]) else Pending(proposals[i + 1..])
  {
    assert proposals[i..][1..] == proposals[i + 1..];
  }

  lemma Rejoin(ids: seq<nat>, id: nat, rest: seq<nat>)
    ensures ids + ([id] + rest) == (ids + [id]) + rest
  {
  }

  lemma ElementsAppend(ids: seq<nat>, id: nat)
    ensures Elements(ids + [id]) == Elements(ids) + {id}
  {
    var longer := ids + [id];
    forall x | x in Elements(ids) + {id} ensures x in Elements(longer) {
      if x == id {
        assert longer[|ids|] == id;
      } else {
        var k :| 0 <= k < |ids| && ids[k] == x;
        assert longer[k] == x;
      }
    }
  }

  // ---- Runs -------------------------------------------------------------------------------------------------------

  function Run(t: Timing, st: PollState, polls: seq<Reads>): (PollState, seq<Notification>)
    decreases |polls|
  {
    if polls == [] then (st, [])
    else
      var (st1, notes) := Polling(t, st, polls[0]);
      var (st2, more) := Run(t, st1, polls[1..]);
      (st2, notes + more)
  }

  function Times(notes: seq<Notification>, note: Notification): nat { multiset(notes)[note] }

  lemma TimesConcat(a: seq<Notification>, b: seq<Notification>, note: Notification)
    ensures Times(a + b, note) == Times(a, note) + Times(b, note)
  {
  }

  /** An identifier of a list is picked once if it was unseen, and not at all otherwise. */
  lemma {:induction false} UnseenOnce(ids: seq<nat>, seen: set<nat>, id: nat)
    ensures multiset(Unseen(ids, seen))[id] == if id in ids && id !in seen then 1 else 0
  {
    if ids != [] {
      assert ids == [ids[0]] + ids[1..];
      if ids[0] in seen {
        UnseenOnce(ids[1..], seen, id);
      } else {
        UnseenOnce(ids[1..], seen + {ids[0]}, id);
      }
    }
  }

  lemma UnseenElements(ids: seq<nat>, seen: set<nat>, id: nat)
    ensures id in Elements(Unseen(ids, seen)) <==> id in ids && id !in seen
  {
    UnseenOnce(ids, seen, id);
    assert id in Unseen(ids, seen) <==> id in multiset(Unseen(ids, seen));
  }

  lemma {:induction false} AlertNotesCount(ids: seq<AlertId>, id: AlertId)
    ensures Times(AlertNotes(ids), AlertNote(id)) == multiset(ids)[id]
    ensures forall p :: Times(AlertNotes(ids), ProposalNote(p)) == 0
  {
    if ids == [] {
      assert AlertNotes(ids) == [];
    } else {
      assert ids == [ids[0]] + ids[1..];
      assert AlertNotes(ids) == [AlertNote(ids[0])] + AlertNotes(ids[1..]);
      AlertNotesCount(ids[1..], id);
    }
  }

  lemma {:induction false} ProposalNotesCount(ids: seq<ProposalId>, id: ProposalId)
    ensures Times(ProposalNotes(ids), ProposalNote(id)) == multiset(ids)[id]
    ensures forall a :: Times(ProposalNotes(ids), AlertNote(a)) == 0
  {
    if ids == [] {
      assert ProposalNotes(ids) == [];
    } else {
      assert ids == [ids[0]] + ids[1..];
      assert ProposalNotes(ids) == [ProposalNote(ids[0])] + ProposalNotes(ids[1..]);
      ProposalNotesCount(ids[1..], id);
    }
  }

  lemma DiagnosticsNotesCount(checks: seq<string>)
    ensures forall a :: Times(DiagnosticsNotes(checks), AlertNote(a)) == 0
    ensures forall p :: Times(DiagnosticsNotes(checks), ProposalNote(p)) == 0
  {
    forall note | note in DiagnosticsNotes(checks) ensures note.DiagnosticsNote? {
    }
  }

  /** One poll notifies an alert once if its second read lists it unseen, and remembers it. */
  lemma PollNotifiesAlert(t: Timing, st: PollState, r: Reads, id: AlertId)
    ensures var (st', notes) := Polling(t, st, r);
      && Times(notes, AlertNote(id)) == (if id in r.secondAlerts && id !in SeenAlerts(st, r) then 1 else 0)
      && (id in st'.seenAlerts <==> id in SeenAlerts(st, r) || id in r.secondAlerts)
      && st'.primed
  {
    UnseenOnce(r.secondAlerts, SeenAlerts(st, r), id);
    UnseenElements(r.secondAlerts, SeenAlerts(st, r), id);
    AlertNotesCount(NewAlerts(st, r), id);
    if NewProposals(st, r) == [] { assert ProposalNotes(NewProposals(st, r)) == []; }
    ProposalNotesCount(NewProposals(st, r), 0);
    DiagnosticsNotesCount(NewFailures(t, st, r));
    TimesConcat(ProposalNotes(NewProposals(st, r)), AlertNotes(NewAlerts(st, r)), AlertNote(id));
    TimesConcat(ProposalNotes(NewProposals(st, r))
      + AlertNotes(NewAlerts(st, r)), DiagnosticsNotes(NewFailures(t, st, r)),
                AlertNote(id));
  }

  lemma PollNotifiesProposal(t: Timing, st: PollState, r: Reads, id: ProposalId)
    ensures var (st', notes) := Polling(t, st, r);
      && Times(notes, ProposalNote(id))
        == (if id in Pending(r.secondProposals) && id !in SeenProposals(st, r) then 1 else 0)
      && (id in st'.seenProposals <==> id in SeenProposals(st, r) || id in Pending(r.secondProposals))
      && st'.primed
  {
    UnseenOnce(Pending(r.secondProposals), SeenProposals(st, r), id);
    UnseenElements(Pending(r.secondProposals), SeenProposals(st, r), id);
    ProposalNotesCount(NewProposals(st, r), id);
    AlertNotesCount(NewAlerts(st, r), 0);
    DiagnosticsNotesCount(NewFailures(t, st, r));
    TimesConcat(ProposalNotes(NewProposals(st, r)), AlertNotes(NewAlerts(st, r)), ProposalNote(id));
    TimesConcat(ProposalNotes(NewProposals(st, r))
      + AlertNotes(NewAlerts(st, r)), DiagnosticsNotes(NewFailures(t, st, r)),
                ProposalNote(id));
  }

  predicate AlertListed(polls: seq<Reads>, id: AlertId) { exists k :: 0 <= k < |polls| && id in polls[k].secondAlerts }

  predicate PendingListed(polls: seq<Reads>, id: ProposalId) {
    exists k :: 0 <= k < |polls| && id in Pending(polls[k].secondProposals)
  }

  lemma {:induction false} RunNotifiesAlert(t: Timing, st: PollState, polls: seq<Reads>, id: AlertId)
    requires st.primed
    ensures Times(Run(t, st, polls).1, AlertNote(id)) == if AlertListed(polls, id) && id !in st.seenAlerts then 1 else 0
    decreases |polls|
  {
    if polls != [] {
      var (st1, notes) := Polling(t, st, polls[0]);
      PollNotifiesAlert(t, st, polls[0], id);
      RunNotifiesAlert(t, st1, polls[1..], id);
      TimesConcat(notes, Run(t, st1, polls[1..]).1, AlertNote(id));
      assert AlertListed(polls, id) <==> id in polls[0].secondAlerts || AlertListed(polls[1..], id) by {
        if AlertListed(polls[1..], id) {
          var k :| 0 <= k < |polls[1..]| && id in polls[1..][k].secondAlerts;
          assert id in polls[k + 1].secondAlerts;
        }
        if AlertListed(polls, id) {
          var k :| 0 <= k < |polls| && id in polls[k].secondAlerts;
          if k > 0 { assert id in polls[1..][k - 1].secondAlerts; }
        }
      }
    }
  }

  lemma {:induction false} RunNotifiesProposal(t: Timing, st: PollState, polls: seq<Reads>, id: ProposalId)
    requires st.primed
    ensures Times(Run(t, st, polls).1, ProposalNote(id))
         == if PendingListed(polls, id) && id !in st.seenProposals then 1 else 0
    decreases |polls|
  {
    if polls != [] {
      var (st1, notes) := Polling(t, st, polls[0]);
      PollNotifiesProposal(t, st, polls[0], id);
      RunNotifiesProposal(t, st1, polls[1..], id);
      TimesConcat(notes, Run(t, st1, polls[1..]).1, ProposalNote(id));
      assert PendingListed(polls, id) <==> id in Pending(polls[0].secondProposals) || PendingListed(polls[1..], id) by {
        if PendingListed(polls[1..], id) {
          var k :| 0 <= k < |polls[1..]| && id in Pending(polls[1..][k].secondProposals);
          assert id in Pending(polls[k + 1].secondProposals);
        }
        if PendingListed(polls, id) {
          var k :| 0 <= k < |polls| && id in Pending(polls[k].secondProposals);
          if k > 0 { assert id in Pending(polls[1..][k - 1].secondProposals); }
        }
      }
    }
  }

  /** Over any sequence of polls from the start, an alert is notified exactly once if some poll lists it after its
      background scan and the priming read did not, and never otherwise. */
  lemma AlertsAreNotifiedOnce(t: Timing, polls: seq<Reads>, id: AlertId)
    requires polls != []
    ensures Times(Run(t, START, polls).1, AlertNote(id))
         == if AlertListed(polls, id) && id !in polls[0].firstAlerts then 1 else 0
  {
    var (st1, notes) := Polling(t, START, polls[0]);
    PollNotifiesAlert(t, START, polls[0], id);
    RunNotifiesAlert(t, st1, polls[1..], id);
    TimesConcat(notes, Run(t, st1, polls[1..]).1, AlertNote(id));
    assert id in SeenAlerts(START, polls[0]) <==> id in polls[0].firstAlerts;
    if AlertListed(polls[1..], id) {
      var k :| 0 <= k < |polls[1..]| && id in polls[1..][k].secondAlerts;
      assert id in polls[k + 1].secondAlerts;
    }
    if AlertListed(polls, id) {
      var k :| 0 <= k < |polls| && id in polls[k].secondAlerts;
      if k > 0 { assert id in polls[1..][k - 1].secondAlerts; }
    }
  }

  /** The same for proposals, which are notified while pending only: one that was active at priming never is. */
  lemma ProposalsAreNotifiedOnce(t: Timing, polls: seq<Reads>, id: ProposalId)
    requires polls != []
    ensures Times(Run(t, START, polls).1, ProposalNote(id))
         == if PendingListed(polls, id) && id !in Ids(polls[0].firstProposals) then 1 else 0
  {
    var (st1, notes) := Polling(t, START, polls[0]);
    PollNotifiesProposal(t, START, polls[0], id);
    RunNotifiesProposal(t, st1, polls[1..], id);
    TimesConcat(notes, Run(t, st1, polls[1..]).1, ProposalNote(id));
    if PendingListed(polls[1..], id) {
      var k :| 0 <= k < |polls[1..]| && id in Pending(polls[1..][k].secondProposals);
      assert id in Pending(polls[k + 1].secondProposals);
    }
    if PendingListed(polls, id) {
      var k :| 0 <= k < |polls| && id in Pending(polls[k].secondProposals);
      if k > 0 { assert id in Pending(polls[1..][k - 1].secondProposals); }
    }
  }

  // ---- The alert store behind the reads ---------------------------------------------------------------------------

  ghost predicate ListsOpen(ids: seq<AlertId>, store: Alerts.Store) {
    forall id :: id in ids <==> id in store.alerts && store.alerts[id].state == Alerts.Open
  }

  lemma {:induction false} CreatedAlertsAreOpen(store: Alerts.Store, markets: seq<Alerts.ScannedMarket>,
                                                rules: Alerts.Rules)
    requires AlertProtocol.Keyed(store)
    ensures var (after, created) := Alerts.ScanningMarkets(store, markets, rules);
      forall id :: id in created ==> id in after.alerts && after.alerts[id].state == Alerts.Open
    decreases |markets|
  {
    if markets != [] {
      var types := Alerts.WantedTypes(markets[0], rules);
      OpportunitiesAreOpen(store, markets[0].marketId, types, markets[0].lookedAt);
      var st1 := Alerts.RaisingOpportunities(store, markets[0].marketId, types, markets[0].lookedAt).0;
      CreatedAlertsAreOpen(st1, markets[1..], rules);
      ScanOnlyAdds(st1, markets[1..], rules);
      var first := Alerts.RaisingOpportunities(store, markets[0].marketId, types, markets[0].lookedAt).1;
      var rest := Alerts.ScanningMarkets(st1, markets[1..], rules).1;
      var (after, created) := Alerts.ScanningMarkets(store, markets, rules);
      assert created == first + rest;
      forall id | id in created ensures id in after.alerts && after.alerts[id].state == Alerts.Open {
        if id in first {
          assert id in st1.alerts && st1.alerts[id].state == Alerts.Open;
          assert after == Alerts.ScanningMarkets(st1, markets[1..], rules).0;
          assert id in after.alerts && after.alerts[id] == st1.alerts[id];
        } else {
          assert id in rest;
          assert id in Alerts.ScanningMarkets(st1, markets[1..], rules).0.alerts;
        }
      }
    }
  }

  ghost predicate Extends(before: Alerts.Store, after: Alerts.Store) {
    before.nextId <= after.nextId
    && forall id :: id in before.alerts ==> id in after.alerts && after.alerts[id] == before.alerts[id]
  }

  lemma {:induction false} OpportunitiesAreOpen(store: Alerts.Store, marketId: string, types: seq<Alerts.AlertType>,
                                                now: int)
    requires AlertProtocol.Keyed(store)
    ensures var (after, created) := Alerts.RaisingOpportunities(store, marketId, types, now);
      && AlertProtocol.Keyed(after) && Extends(store, after)
      && forall id :: id in created ==> id in after.alerts && after.alerts[id].state == Alerts.Open
    decreases |types|
  {
    if types != [] {
      OpportunitiesAreOpen(Alerts.RaisingOpportunity(store, types[0], marketId, now).0, marketId, types[1..], now);
    }
  }

  lemma {:induction false} ScanOnlyAdds(store: Alerts.Store, markets: seq<Alerts.ScannedMarket>, rules: Alerts.Rules)
    requires AlertProtocol.Keyed(store)
    ensures Extends(store, Alerts.ScanningMarkets(store, markets, rules).0)
    decreases |markets|
  {
    if markets != [] {
      var types := Alerts.WantedTypes(markets[0], rules);
      OpportunitiesAreOpen(store, markets[0].marketId, types, markets[0].lookedAt);
      ScanOnlyAdds(Alerts.RaisingOpportunities(store, markets[0].marketId, types, markets[0].lookedAt).0,
          markets[1..], rules);
    }
  }

  /** Every alert the background scan creates during the priming poll itself is notified, exactly once over the whole
      run, although everything else that is open at that time is not. */
  lemma PrimingScanIsNotified(t: Timing, polls: seq<Reads>, store: Alerts.Store, markets: seq<Alerts.ScannedMarket>,
                              rules: Alerts.Rules, id: AlertId)
    requires polls != [] && AlertProtocol.Keyed(store)
    requires ListsOpen(polls[0].firstAlerts, store)
    requires ListsOpen(polls[0].secondAlerts, Alerts.ScanningMarkets(store, markets, rules).0)
    ensures id in Alerts.ScanningMarkets(store, markets, rules).1 ==> Times(Run(t, START, polls).1, AlertNote(id)) == 1
    ensures id in store.alerts && store.alerts[id].state == Alerts.Open
      ==> Times(Run(t, START, polls).1, AlertNote(id)) == 0
  {
    AlertsAreNotifiedOnce(t, polls, id);
    Alerts.ScanCreatesDistinct(store, markets, rules);
    CreatedAlertsAreOpen(store, markets, rules);
    if id in Alerts.ScanningMarkets(store, markets, rules).1 {
      assert id in polls[0].secondAlerts;
    }
  }

  // ---- Rate limits ------------------------------------------------------------------------------------------------

  /** The clock readings at which diagnostics ran. */
  function DiagnosticsRuns(t: Timing, st: PollState, polls: seq<Reads>): seq<int>
    decreases |polls|
  {
    if polls == [] then []
    else
      (if DiagnosticsDue(t, st, polls[0].now) then [polls[0].now] else [])
      + DiagnosticsRuns(t, Polling(t, st, polls[0]).0, polls[1..])
  }

  function BackgroundScans(t: Timing, st: PollState, polls: seq<Reads>): seq<int>
    decreases |polls|
  {
    if polls == [] then []
    else
      (if ScanDue(t, st, polls[0].scanNow) then [polls[0].scanNow] else [])
      + BackgroundScans(t, Polling(t, st, polls[0]).0, polls[1..])
  }

  predicate SpacedFrom(times: seq<int>, from: int, interval: int) {
    times == [] || (times[0] - from >= interval && SpacedFrom(times[1..], times[0], interval))
  }

  lemma SpacedCons(due: bool, time: int, rest: seq<int>, from: int, interval: int)
    requires due ==> time - from >= interval
    requires SpacedFrom(rest, if due then time else from, interval)
    ensures SpacedFrom((if due then [time] else []) + rest, from, interval)
  {
    if due {
      assert ([time] + rest)[1..] == rest;
    } else {
      assert [] + rest == rest;
    }
  }

  /** Any two consecutive diagnostics runs, and any two consecutive background scans, are at least their interval apart,
      and so are the first ones from the clock's origin. */
  lemma {:induction false} RunsAreSpaced(t: Timing, st: PollState, polls: seq<Reads>)
    ensures SpacedFrom(DiagnosticsRuns(t, st, polls), st.lastDiagnosticsCheck, t.diagnosticsInterval)
    ensures SpacedFrom(BackgroundScans(t, st, polls), st.lastBackgroundScan, t.scanInterval)
    decreases |polls|
  {
    if polls != [] {
      var st1 := Polling(t, st, polls[0]).0;
      RunsAreSpaced(t, st1, polls[1..]);
      SpacedCons(DiagnosticsDue(t, st, polls[0].now), polls[0].now, DiagnosticsRuns(t, st1, polls[1..]),
                 st.lastDiagnosticsCheck, t.diagnosticsInterval);
      SpacedCons(ScanDue(t, st, polls[0].scanNow), polls[0].scanNow, BackgroundScans(t, st1, polls[1..]),
                 st.lastBackgroundScan, t.scanInterval);
    }
  }

  // ---- Diagnostics over runs --------------------------------------------------------------------------------------

  /** When diagnostics last ran over a sequence of polls, and with which signature. */
  function LastRun(interval: int, at: int, signature: Option<string>, polls: seq<Reads>): (int, Option<string>)
    decreases |polls|
  {
    if polls == [] then (at, signature)
    else if polls[0].now - at >= interval
      then LastRun(interval, polls[0].now, polls[0].diagnostics.signature, polls[1..])
    else LastRun(interval, at, signature, polls[1..])
  }

  lemma {:induction false} StateRemembersLastRun(t: Timing, st: PollState, polls: seq<Reads>)
    ensures var end := Run(t, st, polls).0;
      && (end.lastDiagnosticsCheck, end.lastFailure)
         == LastRun(t.diagnosticsInterval, st.lastDiagnosticsCheck, st.lastFailure, polls)
      && (end.primed <==> st.primed || polls != [])
    decreases |polls|
  {
    if polls != [] { StateRemembersLastRun(t, Polling(t, st, polls[0]).0, polls[1..]); }
  }

  lemma {:induction false} ChecksCounted(checks: seq<string>, check: string)
    ensures Times(DiagnosticsNotes(checks), DiagnosticsNote(check)) == multiset(checks)[check]
  {
    if checks == [] {
      assert DiagnosticsNotes(checks) == [];
    } else {
      assert checks == [checks[0]] + checks[1..];
      assert DiagnosticsNotes(checks) == [DiagnosticsNote(checks[0])] + DiagnosticsNotes(checks[1..]);
      ChecksCounted(checks[1..], check);
    }
  }

  lemma OthersAreNotDiagnostics(ps: seq<ProposalId>, alerts: seq<AlertId>, check: string)
    ensures Times(ProposalNotes(ps) + AlertNotes(alerts), DiagnosticsNote(check)) == 0
  {
    assert forall note :: note in ProposalNotes(ps) + AlertNotes(alerts) ==> !note.DiagnosticsNote?;
    assert DiagnosticsNote(check) !in ProposalNotes(ps) + AlertNotes(alerts);
  }

  /** After any polls, the next one announces failing checks exactly when diagnostics are due since their last run, they
      fail, and their signature differs from that of the last run; it announces each check as often as it is listed. The
      first poll announces none. */
  lemma FailuresAnnouncedOnChange(t: Timing, polls: seq<Reads>, r: Reads, check: string)
    ensures var notes := Polling(t, Run(t, START, polls).0, r).1;
      var (at, signature) := LastRun(t.diagnosticsInterval, 0, None, polls);
      Times(notes, DiagnosticsNote(check)) ==
      if polls != [] && r.now - at >= t.diagnosticsInterval && r.diagnostics.signature.Some?
         && r.diagnostics.signature != signature
      then multiset(r.diagnostics.failing)[check] else 0
  {
    var st := Run(t, START, polls).0;
    StateRemembersLastRun(t, START, polls);
    ChecksCounted(NewFailures(t, st, r), check);
    OthersAreNotDiagnostics(NewProposals(st, r), NewAlerts(st, r), check);
    TimesConcat(ProposalNotes(NewProposals(st, r)) + AlertNotes(NewAlerts(st, r)),
                DiagnosticsNotes(NewFailures(t, st, r)),
                DiagnosticsNote(check));
  }

  /** A poll runs diagnostics and the background scan exactly when their interval has passed since the last time, the
      scan only with a service and an interval that is not negative. */
  lemma RunsExactlyWhenDue(t: Timing, st: PollState, r: Reads)
    ensures DiagnosticsRuns(t, st, [r])
         == (if r.now >= st.lastDiagnosticsCheck + t.diagnosticsInterval then [r.now] else [])
    ensures BackgroundScans(t, st, [r]) ==
      (if t.scanService && t.scanInterval >= 0 && r.scanNow >= st.lastBackgroundScan + t.scanInterval then [r.scanNow]
       else [])
  {
    assert [r][1..] == [];
  }
}
