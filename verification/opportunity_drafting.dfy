/** Drafting proposals from scanned opportunities (`bot/services/opportunity_proposal_bridge.py`), and what it keeps
    over whole runs: at most one active proposal per market, except for creations that find their market taken. */
module OpportunityDrafting {
  import opened Common
  import opened Domain
  import opened Settings
  import opened Policies
  import opened ProposalLifecycle
  import Proposals = ProposalProtocol

  /** A scanned opportunity; there is no context when the snapshot, the estimate or the creation fails. */
  datatype Opportunity = Opportunity(marketId: string, context: Option<Context>)

  predicate Active(p: TradeProposal) { p.status == PendingManualConfirmation || p.status == Approved }

  function ActiveMarkets(proposals: map<ProposalId, TradeProposal>): set<string> {
    set id | id in proposals && Active(proposals[id]) :: proposals[id].marketId
  }

  datatype Drafts = Drafts(state: LifecycleState, seen: set<string>, created: seq<ProposalId>, skipped: seq<string>)

  function Drafting(s: Settings, d: Drafts, o: Opportunity): Drafts {
    if o.marketId in d.seen || o.context.None? then d.(skipped := d.skipped + [o.marketId])
    else
      var (state, p) := Creating(d.state, s, o.context.value);
      Drafts(state, d.seen + {o.marketId}, d.created + [p.proposalId], d.skipped)
  }

  function DraftingAll(s: Settings, st: LifecycleState, opportunities: seq<Opportunity>): Drafts {
    if opportunities == [] then Drafts(st, ActiveMarkets(st.proposals), [], [])
    else
      var last := |opportunities| - 1;
      Drafting(s, DraftingAll(s, st, opportunities[..last]), opportunities[last])
  }

  class OpportunityProposalBridgeService {
    const proposalService: ProposalLifecycleService

    constructor (proposalService: ProposalLifecycleService)
      ensures this.proposalService == proposalService
    {
      this.proposalService := proposalService;
    }

    method DraftOpportunities(s: Settings, opportunities: seq<Opportunity>)
      returns (created: seq<ProposalId>, skipped: seq<string>)
      modifies proposalService
      ensures var d := DraftingAll(s, old(proposalService.State()), opportunities);
        proposalService.State() == d.state && created == d.created && skipped == d.skipped
    {
      created, skipped := [], [];
      ghost var before := proposalService.State();
      var seen := ActiveMarkets(proposalService.proposals);
      for i := 0 to |opportunities|
        invariant Drafts(proposalService.State(), seen, created, skipped) == DraftingAll(s, before, opportunities[..i])
      {
        var o := opportunities[i];
        assert opportunities[..i + 1][..i] == opportunities[..i];
        if o.marketId in seen || o.context.None? {
          skipped := skipped + [o.marketId];
          continue;
        }
        var p := proposalService.Create(s, o.context.value);
        created := created + [p.proposalId];
        seen := seen + {o.marketId};
      }
      assert opportunities[..|opportunities|] == opportunities;
    }
  }

  // ---- One draft run ----------------------------------------------------------------------------------------------

  /** The snapshot taken for an opportunity is that of its market. */
  predicate OwnSnapshots(opportunities: seq<Opportunity>) {
    forall k :: 0 <= k < |opportunities| && opportunities[k].context.Some? ==>
      opportunities[k].context.value.market.marketId == opportunities[k].marketId
  }

  ghost predicate OneActivePerMarket(st: LifecycleState) {
    forall a, b | a in st.proposals && b in st.proposals ::
      Active(st.proposals[a]) && Active(st.proposals[b]) && st.proposals[a].marketId == st.proposals[b].marketId
      ==> a == b
  }

  ghost predicate BelowNext(st: LifecycleState) { forall id :: id in st.proposals ==> id < st.nextId }

  /** What holds after every opportunity: stored rows are kept, created ones are new and of distinct unseen markets. */
  ghost predicate DraftsHold(st: LifecycleState, d: Drafts) {
    && BelowNext(d.state) && OneActivePerMarket(d.state) && ActiveMarkets(d.state.proposals) <= d.seen
    && (forall id :: id in st.proposals ==> id in d.state.proposals && d.state.proposals[id] == st.proposals[id])
    && (forall k :: 0 <= k < |d.created| ==>
          && d.created[k] in d.state.proposals && d.created[k] !in st.proposals
          && d.state.proposals[d.created[k]].marketId in d.seen - ActiveMarkets(st.proposals))
    && (forall j, k :: 0 <= j < k < |d.created| ==>
          && d.created[j] in d.state.proposals && d.created[k] in d.state.proposals
          && d.state.proposals[d.created[j]].marketId != d.state.proposals[d.created[k]].marketId)
  }

  lemma NewRowActive(proposals: map<ProposalId, TradeProposal>, id: ProposalId, p: TradeProposal)
    requires id !in proposals
    ensures ActiveMarkets(proposals[id := p]) == ActiveMarkets(proposals) + if Active(p) then {p.marketId} else {}
  {
    var more := proposals[id := p];
    forall m | m in ActiveMarkets(proposals) ensures m in ActiveMarkets(more) {
      var k :| k in proposals && Active(proposals[k]) && proposals[k].marketId == m;
      assert more[k] == proposals[k];
    }
    if Active(p) { assert more[id] == p; }
  }

  lemma NewRowKeepsOneActive(st: LifecycleState, st': LifecycleState, p: TradeProposal)
    requires BelowNext(st) && OneActivePerMarket(st) && p.marketId !in ActiveMarkets(st.proposals)
    requires st'.proposals == st.proposals[st.nextId := p] && st'.nextId == st.nextId + 1
    ensures BelowNext(st') && OneActivePerMarket(st')
  {
    forall a | a in st.proposals && Active(st.proposals[a]) ensures st.proposals[a].marketId != p.marketId {
      assert st.proposals[a].marketId in ActiveMarkets(st.proposals);
    }
  }

  lemma DraftKeeps(s: Settings, st: LifecycleState, d: Drafts, o: Opportunity)
    requires DraftsHold(st, d) && (o.context.Some? ==> o.context.value.market.marketId == o.marketId)
    requires ActiveMarkets(st.proposals) <= d.seen
    ensures DraftsHold(st, Drafting(s, d, o))
  {
    if o.marketId !in d.seen && o.context.Some? {
      var p := Drafted(s, o.context.value, d.state.nextId);
      var d' := Drafting(s, d, o);
      assert d.state.nextId !in d.state.proposals;
      NewRowActive(d.state.proposals, d.state.nextId, p);
      NewRowKeepsOneActive(d.state, d'.state, p);
    }
  }

  lemma SeenContainsActive(s: Settings, st: LifecycleState, opportunities: seq<Opportunity>)
    ensures ActiveMarkets(st.proposals) <= DraftingAll(s, st, opportunities).seen
  {
  }

  lemma {:induction false} DraftsKeep(s: Settings, st: LifecycleState, opportunities: seq<Opportunity>)
    requires BelowNext(st) && OneActivePerMarket(st) && OwnSnapshots(opportunities)
    ensures DraftsHold(st, DraftingAll(s, st, opportunities))
  {
    if opportunities != [] {
      var last := |opportunities| - 1;
      DraftsKeep(s, st, opportunities[..last]);
      SeenContainsActive(s, st, opportunities[..last]);
      DraftKeeps(s, st, DraftingAll(s, st, opportunities[..last]), opportunities[last]);
    }
  }

  /** The markets of a list of opportunities that have been drafted or were active before. */
  predicate Drawn(opportunities: seq<Opportunity>, marketId: string) {
    exists k :: 0 <= k < |opportunities| && opportunities[k].marketId == marketId && opportunities[k].context.Some?
  }

  lemma {:induction false} CreatedOrSkipped(s: Settings, st: LifecycleState, opportunities: seq<Opportunity>)
    ensures |DraftingAll(s, st, opportunities).created| + |DraftingAll(s, st, opportunities).skipped| == |opportunities|
    decreases |opportunities|
  {
    if opportunities != [] { CreatedOrSkipped(s, st, opportunities[..|opportunities| - 1]); }
  }

  lemma SeenStep(s: Settings, d: Drafts, o: Opportunity, m: string)
    ensures m in Drafting(s, d, o).seen <==> m in d.seen || (m == o.marketId && o.context.Some?)
  {
  }

  lemma {:induction false} SeenExactly(s: Settings, st: LifecycleState, opportunities: seq<Opportunity>, m: string)
    ensures m in DraftingAll(s, st, opportunities).seen <==>
      m in ActiveMarkets(st.proposals) || Drawn(opportunities, m)
    decreases |opportunities|
  {
    if opportunities != [] {
      var init, o := opportunities[..|opportunities| - 1], opportunities[|opportunities| - 1];
      SeenExactly(s, st, init, m);
      SeenStep(s, DraftingAll(s, st, init), o, m);
      DrawnAppend(init, o, m);
      assert opportunities == init + [o];
    }
  }

  /** A draft run has created a proposal on the market. */
  ghost predicate CreatedOn(d: Drafts, m: string) {
    exists k :: 0 <= k < |d.created| && d.created[k] in d.state.proposals
      && d.state.proposals[d.created[k]].marketId == m
  }

  lemma CreatedStep(s: Settings, d: Drafts, o: Opportunity, m: string)
    requires BelowNext(d.state) && (o.context.Some? ==> o.context.value.market.marketId == o.marketId)
    ensures BelowNext(Drafting(s, d, o).state)
    ensures CreatedOn(Drafting(s, d, o), m) <==>
      CreatedOn(d, m) || (m == o.marketId && o.marketId !in d.seen && o.context.Some?)
  {
    var d' := Drafting(s, d, o);
    if o.marketId !in d.seen && o.context.Some? {
      assert d'.created[|d.created|] == d.state.nextId;
      assert d'.state.proposals[d.state.nextId].marketId == o.marketId;
    }
    if CreatedOn(d, m) {
      var k :| 0 <= k < |d.created| && d.created[k] in d.state.proposals
        && d.state.proposals[d.created[k]].marketId == m;
      assert d'.created[k] == d.created[k];
      assert d'.state.proposals[d.created[k]] == d.state.proposals[d.created[k]];
    }
    CreatedBefore(s, d, o, m);
  }

  lemma CreatedBefore(s: Settings, d: Drafts, o: Opportunity, m: string)
    requires BelowNext(d.state) && (o.context.Some? ==> o.context.value.market.marketId == o.marketId)
    ensures CreatedOn(Drafting(s, d, o), m) ==>
      CreatedOn(d, m) || (m == o.marketId && o.marketId !in d.seen && o.context.Some?)
  {
    var d' := Drafting(s, d, o);
    if CreatedOn(d', m) {
      var k :| 0 <= k < |d'.created| && d'.created[k] in d'.state.proposals
        && d'.state.proposals[d'.created[k]].marketId == m;
      if k < |d.created| && d'.created[k] != d.state.nextId {
        assert d.created[k] in d.state.proposals && d.state.proposals[d.created[k]].marketId == m;
      }
    }
  }

  lemma {:induction false} CreatedIsNewlySeen(s: Settings, st: LifecycleState, opportunities: seq<Opportunity>,
      m: string)
    requires BelowNext(st) && OwnSnapshots(opportunities)
    ensures var d := DraftingAll(s, st, opportunities);
      BelowNext(d.state) && (CreatedOn(d, m) <==> m in d.seen && m !in ActiveMarkets(st.proposals))
    decreases |opportunities|
  {
    if opportunities != [] {
      var init, o := opportunities[..|opportunities| - 1], opportunities[|opportunities| - 1];
      CreatedIsNewlySeen(s, st, init, m);
      SeenContainsActive(s, st, init);
      SeenStep(s, DraftingAll(s, st, init), o, m);
      CreatedStep(s, DraftingAll(s, st, init), o, m);
    }
  }

  /** Every opportunity is either created or skipped, and a proposal is created on a market exactly when no active one
      was there before and some opportunity on it has data. */
  lemma DraftedExactly(s: Settings, st: LifecycleState, opportunities: seq<Opportunity>)
    requires BelowNext(st) && OwnSnapshots(opportunities)
    ensures var d := DraftingAll(s, st, opportunities);
      && |d.created| + |d.skipped| == |opportunities|
      && forall m :: CreatedOn(d, m) <==> m !in ActiveMarkets(st.proposals) && Drawn(opportunities, m)
  {
    CreatedOrSkipped(s, st, opportunities);
    forall m ensures CreatedOn(DraftingAll(s, st, opportunities), m) <==>
      m !in ActiveMarkets(st.proposals) && Drawn(opportunities, m)
    {
      CreatedIsNewlySeen(s, st, opportunities, m);
      SeenExactly(s, st, opportunities, m);
    }
  }

  lemma DrawnAppend(opportunities: seq<Opportunity>, o: Opportunity, m: string)
    ensures Drawn(opportunities + [o], m) <==> Drawn(opportunities, m) || (m == o.marketId && o.context.Some?)
  {
    var more := opportunities + [o];
    if Drawn(opportunities, m) {
      var k :| 0 <= k < |opportunities| && opportunities[k].marketId == m && opportunities[k].context.Some?;
      assert more[k] == opportunities[k];
    }
    assert more[|opportunities|] == o;
  }

  // ---- Whole runs -------------------------------------------------------------------------------------------------

  datatype Operation = DraftOp(opportunities: seq<Opportunity>) | LifecycleOp(op: Proposals.Operation)

  function Apply(s: Settings, st: LifecycleState, op: Operation): LifecycleState {
    match op
    case DraftOp(opportunities) => DraftingAll(s, st, opportunities).state
    case LifecycleOp(o) => Proposals.Apply(s, st, o)
  }

  predicate Legal(st: LifecycleState, op: Operation) {
    op.LifecycleOp? ==> Proposals.Legal(st, op.op)
  }

  /** A created proposal is rejected by policy or finds its market free. */
  predicate CreationFits(s: Settings, st: LifecycleState, c: Context) {
    Drafted(s, c, st.nextId).status == PendingManualConfirmation ==> c.market.marketId !in ActiveMarkets(st.proposals)
  }

  /** Every proposal a draft run creates fits when it is created. */
  predicate DraftsFit(s: Settings, st: LifecycleState, opportunities: seq<Opportunity>) {
    opportunities == [] ||
    (var init, o := opportunities[..|opportunities| - 1], opportunities[|opportunities| - 1];
     var d := DraftingAll(s, st, init);
     && DraftsFit(s, st, init)
     && (o.marketId !in d.seen && o.context.Some? ==> CreationFits(s, d.state, o.context.value)))
  }

  predicate Fits(s: Settings, st: LifecycleState, op: Operation) {
    match op
    case DraftOp(opportunities) => DraftsFit(s, st, opportunities)
    case LifecycleOp(o) => o.CreateOp? ==> CreationFits(s, st, o.context)
  }

  predicate CreationsFit(s: Settings, st: LifecycleState, ops: seq<Operation>)
    decreases |ops|
  {
    ops == [] || (Fits(s, st, ops[0]) && CreationsFit(s, Apply(s, st, ops[0]), ops[1..]))
  }

  /** One active proposal per market, at the start and after every operation. */
  ghost predicate AlwaysOneActive(s: Settings, st: LifecycleState, ops: seq<Operation>)
    decreases |ops|
  {
    OneActivePerMarket(st) && (ops != [] ==> AlwaysOneActive(s, Apply(s, st, ops[0]), ops[1..]))
  }

  predicate LegalRun(s: Settings, st: LifecycleState, ops: seq<Operation>)
    decreases |ops|
  {
    ops == [] || (Legal(st, ops[0]) && LegalRun(s, Apply(s, st, ops[0]), ops[1..]))
  }

  /** No proposal appears, moves to another market, or becomes active again. */
  ghost predicate OnlyDeactivates(before: LifecycleState, after: LifecycleState) {
    && after.nextId == before.nextId && after.proposals.Keys == before.proposals.Keys
    && forall id :: id in after.proposals ==>
         && after.proposals[id].marketId == before.proposals[id].marketId
         && after.proposals[id].proposalId == before.proposals[id].proposalId
         && (Active(after.proposals[id]) ==> Active(before.proposals[id]))
  }

  ghost predicate Keyed(st: LifecycleState) { forall id :: id in st.proposals ==> st.proposals[id].proposalId == id }

  lemma SavingOnlyDeactivates(st: LifecycleState, q: TradeProposal, action: ReviewAction, at: int)
    requires q.proposalId in st.proposals && st.proposals[q.proposalId].proposalId == q.proposalId && Keyed(st)
    requires q.marketId == st.proposals[q.proposalId].marketId && Active(st.proposals[q.proposalId])
    ensures OnlyDeactivates(st, Saved(st, q, action, at))
  {
  }

  lemma RevalidatingOnlyDeactivates(s: Settings, st: LifecycleState, p: TradeProposal, e: Exposure, snapshot: Snapshot,
                                    now: int)
    requires Keyed(st) && p.proposalId in st.proposals && st.proposals[p.proposalId] == p && Active(p)
    ensures OnlyDeactivates(st, Revalidating(st, s, p, e, snapshot, now).0)
  {
    var reasons := Reasons(s, ApprovalContext(s, p, e, snapshot, now));
    var q := Revalidated(p, snapshot, reasons, now);
    if reasons != [] {
      SavingOnlyDeactivates(st, q, RevalidateRejectReview(snapshot.dataAgeSeconds, reasons), now);
    } else {
      SavingOnlyDeactivates(st, q, ApproveReview(snapshot.dataAgeSeconds, q.currentSize, q.currentLimit), now);
    }
  }

  lemma ApprovingOnlyDeactivates(s: Settings, st: LifecycleState, id: ProposalId, e: Exposure, source: SnapshotSource,
                                 now: int)
    requires Keyed(st)
    ensures OnlyDeactivates(st, Approving(st, s, id, e, source, now).0)
  {
    if id in st.proposals && st.proposals[id].status == PendingManualConfirmation {
      var p := st.proposals[id];
      if p.expiresAt <= now {
        SavingOnlyDeactivates(st, Cancel(p, now), ExpireReview, now);
      } else if Resolved(p, source).Ok? {
        RevalidatingOnlyDeactivates(s, st, p, e, Resolved(p, source).value, now);
      }
    }
  }

  lemma EditingOnlyDeactivates(st: LifecycleState, id: ProposalId, x: real, now: int)
    requires Keyed(st)
    ensures OnlyDeactivates(st, EditingSize(st, id, x, now).0)
    ensures OnlyDeactivates(st, EditingPrice(st, id, x, now).0)
  {
  }

  /** Only creation makes a proposal active. */
  lemma OperationsOnlyDeactivate(s: Settings, st: LifecycleState, op: Proposals.Operation)
    requires Keyed(st) && !op.CreateOp?
    ensures OnlyDeactivates(st, Proposals.Apply(s, st, op))
  {
    match op
    case ExpireOp(_, _) =>
    case EditSizeOp(id, amount, now) => EditingOnlyDeactivates(st, id, amount, now);
    case EditPriceOp(id, price, now) => EditingOnlyDeactivates(st, id, price, now);
    case RejectOp(_, _) =>
    case CancelOp(_, _) =>
    case AnalysisOp(_, _) =>
    case ApproveOp(id, e, source, now) => ApprovingOnlyDeactivates(s, st, id, e, source, now);
  }

  lemma {:induction false} DraftsStayKeyed(s: Settings, st: LifecycleState, opportunities: seq<Opportunity>)
    requires Keyed(st)
    ensures Keyed(DraftingAll(s, st, opportunities).state)
  {
    if opportunities != [] { DraftsStayKeyed(s, st, opportunities[..|opportunities| - 1]); }
  }

  lemma CreationKeepsOneActiveIff(s: Settings, st: LifecycleState, c: Context)
    requires BelowNext(st) && OneActivePerMarket(st)
    ensures BelowNext(Creating(st, s, c).0)
    ensures OneActivePerMarket(Creating(st, s, c).0) <==> CreationFits(s, st, c)
  {
    RowKeepsOneActiveIff(st, Creating(st, s, c).0, Drafted(s, c, st.nextId));
  }

  lemma RowKeepsOneActiveIff(st: LifecycleState, st': LifecycleState, p: TradeProposal)
    requires BelowNext(st) && OneActivePerMarket(st)
    requires st'.proposals == st.proposals[st.nextId := p] && st'.nextId == st.nextId + 1
    ensures BelowNext(st')
    ensures OneActivePerMarket(st') <==> (Active(p) ==> p.marketId !in ActiveMarkets(st.proposals))
  {
    if Active(p) && p.marketId in ActiveMarkets(st.proposals) {
      var k :| k in st.proposals && Active(st.proposals[k]) && st.proposals[k].marketId == p.marketId;
      assert st'.proposals[k] == st.proposals[k] && st'.proposals[st.nextId] == p;
    } else if Active(p) {
      NewRowKeepsOneActive(st, st', p);
    }
  }

  lemma ViolationStays(s: Settings, st: LifecycleState, c: Context)
    requires BelowNext(st) && !OneActivePerMarket(st)
    ensures BelowNext(Creating(st, s, c).0) && !OneActivePerMarket(Creating(st, s, c).0)
  {
    var a, b :| a in st.proposals && b in st.proposals && a != b && Active(st.proposals[a]) && Active(st.proposals[b])
      && st.proposals[a].marketId == st.proposals[b].marketId;
    var after := Creating(st, s, c).0.proposals;
    assert after[a] == st.proposals[a] && after[b] == st.proposals[b];
  }

  lemma {:induction false} DraftsKeepOneActiveIff(s: Settings, st: LifecycleState, opportunities: seq<Opportunity>)
    requires BelowNext(st) && OneActivePerMarket(st)
    ensures BelowNext(DraftingAll(s, st, opportunities).state)
    ensures OneActivePerMarket(DraftingAll(s, st, opportunities).state) <==> DraftsFit(s, st, opportunities)
    decreases |opportunities|
  {
    if opportunities != [] {
      var init, o := opportunities[..|opportunities| - 1], opportunities[|opportunities| - 1];
      DraftsKeepOneActiveIff(s, st, init);
      var d := DraftingAll(s, st, init);
      if o.marketId !in d.seen && o.context.Some? {
        if OneActivePerMarket(d.state) {
          CreationKeepsOneActiveIff(s, d.state, o.context.value);
        } else {
          ViolationStays(s, d.state, o.context.value);
        }
      }
    }
  }

  /** Drafts from snapshots of the opportunities' own markets always fit. */
  lemma OwnSnapshotsFit(s: Settings, st: LifecycleState, opportunities: seq<Opportunity>)
    requires BelowNext(st) && OneActivePerMarket(st) && OwnSnapshots(opportunities)
    ensures DraftsFit(s, st, opportunities)
  {
    DraftsKeep(s, st, opportunities);
    DraftsKeepOneActiveIff(s, st, opportunities);
  }

  lemma StepKeepsOneActiveIff(s: Settings, st: LifecycleState, op: Operation)
    requires Keyed(st) && BelowNext(st) && OneActivePerMarket(st) && Legal(st, op)
    ensures Keyed(Apply(s, st, op)) && BelowNext(Apply(s, st, op))
    ensures OneActivePerMarket(Apply(s, st, op)) <==> Fits(s, st, op)
  {
    match op
    case DraftOp(opportunities) =>
      DraftsKeepOneActiveIff(s, st, opportunities);
      DraftsStayKeyed(s, st, opportunities);
    case LifecycleOp(o) =>
      if o.CreateOp? {
        CreationKeepsOneActiveIff(s, st, o.context);
      } else {
        OperationsOnlyDeactivate(s, st, o);
      }
  }

  lemma {:induction false} RunKeepsOneActiveIff(s: Settings, st: LifecycleState, ops: seq<Operation>)
    requires Keyed(st) && BelowNext(st) && OneActivePerMarket(st) && LegalRun(s, st, ops)
    ensures AlwaysOneActive(s, st, ops) <==> CreationsFit(s, st, ops)
    decreases |ops|
  {
    if ops != [] {
      StepKeepsOneActiveIff(s, st, ops[0]);
      var st' := Apply(s, st, ops[0]);
      if OneActivePerMarket(st') { RunKeepsOneActiveIff(s, st', ops[1..]); }
    }
  }

  /** Over every run, with drafts and direct creations mixed and everything edited, approved, rejected, cancelled or
      expired in between: no market ever has two active proposals exactly when every creation that policy lets through
      finds its market free. Drafts from snapshots of their own markets always do. */
  lemma OneActiveProposalPerMarket(s: Settings, ops: seq<Operation>)
    requires LegalRun(s, EMPTY, ops)
    ensures AlwaysOneActive(s, EMPTY, ops) <==> CreationsFit(s, EMPTY, ops)
  {
    RunKeepsOneActiveIff(s, EMPTY, ops);
  }
}
