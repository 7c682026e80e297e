/** Whole-run properties of the proposal lifecycle: every run of service operations under one validated configuration
    keeps the store, the review log and the history of saved rows consistent with each other. */
module ProposalProtocol {
  import opened Common
  import opened Domain
  import opened Settings
  import opened Policies
  import opened Sizing
  import opened ProposalLifecycle

  datatype Operation =
    | CreateOp(context: Context)
    | ExpireOp(now: int, rows: seq<ProposalId>)
    | EditSizeOp(id: ProposalId, amount: real, now: int)
    | EditPriceOp(id: ProposalId, price: real, now: int)
    | RejectOp(id: ProposalId, now: int)
    | CancelOp(id: ProposalId, now: int)
    | AnalysisOp(id: ProposalId, now: int)
    | ApproveOp(id: ProposalId, exposure: Exposure, source: SnapshotSource, now: int)

  function Apply(s: Settings, st: LifecycleState, op: Operation): LifecycleState {
    match op
    case CreateOp(c) => Creating(st, s, c).0
    case ExpireOp(now, rows) => Expiring(st, now, rows).0
    case EditSizeOp(id, amount, now) => EditingSize(st, id, amount, now).0
    case EditPriceOp(id, price, now) => EditingPrice(st, id, price, now).0
    case RejectOp(id, now) => Rejecting(st, id, now).0
    case CancelOp(id, now) => Cancelling(st, id, now).0
    case AnalysisOp(id, now) => Analysing(st, id, now).0
    case ApproveOp(id, e, source, now) => Approving(st, s, id, e, source, now).0
  }

  /** The only condition on an operation: the rows handed to the expiry loop are the stored ones. */
  predicate Legal(st: LifecycleState, op: Operation) {
    op.ExpireOp? ==> Lists(op.rows, st.proposals)
  }

  predicate LegalRun(s: Settings, st: LifecycleState, ops: seq<Operation>)
    decreases |ops|
  {
    ops == [] || (Legal(st, ops[0]) && LegalRun(s, Apply(s, st, ops[0]), ops[1..]))
  }

  function Run(s: Settings, st: LifecycleState, ops: seq<Operation>): LifecycleState
    decreases |ops|
  {
    if ops == [] then st else Run(s, Apply(s, st, ops[0]), ops[1..])
  }

  // ---- The review log as a protocol -------------------------------------------------------------------------------

  function NextStatus(before: Option<ProposalStatus>, action: ReviewAction): Option<ProposalStatus> {
    match action
    case CreateReview(status) => Some(status)
    case ExpireReview => Some(Cancelled)
    case RejectReview => Some(Cancelled)
    case CancelReview(_) => Some(Cancelled)
    case RevalidateRejectReview(_, _) => Some(PolicyRejected)
    case ApproveReview(_, _, _) => Some(Approved)
    case _ => before
  }

  /** Folding the entries of one proposal, oldest first. */
  function Replay(log: seq<Review>, id: ProposalId): Option<ProposalStatus> {
    if log == [] then None
    else
      var last := log[|log| - 1];
      var before := Replay(log[..|log| - 1], id);
      if last.proposalId == id then NextStatus(before, last.action) else before
  }

  /** Which entry may follow a status. Nothing but analysis requests follows a final one. */
  predicate MayFollow(before: Option<ProposalStatus>, action: ReviewAction) {
    match action
    case CreateReview(status) => before.None? && status in {PendingManualConfirmation, PolicyRejected}
    case CancelReview(previous) => before == Some(previous) && previous in {PendingManualConfirmation, Approved}
    case AnalysisReview => before.Some?
    case _ => before == Some(PendingManualConfirmation)
  }

  predicate WellFormedLog(log: seq<Review>) {
    forall k :: 0 <= k < |log| ==> MayFollow(Replay(log[..k], log[k].proposalId), log[k].action)
  }

  lemma ReplayAppend(log: seq<Review>, entry: Review, id: ProposalId)
    ensures Replay(log + [entry], id)
         == if entry.proposalId == id then NextStatus(Replay(log, id), entry.action) else Replay(log, id)
  {
    assert (log + [entry])[..|log|] == log;
  }

  lemma WellFormedAppend(log: seq<Review>, entry: Review)
    requires WellFormedLog(log) && MayFollow(Replay(log, entry.proposalId), entry.action)
    ensures WellFormedLog(log + [entry])
  {
    var longer := log + [entry];
    forall k | 0 <= k < |longer| ensures MayFollow(Replay(longer[..k], longer[k].proposalId), longer[k].action) {
      assert longer[..k] == log[..k];
      assert log[..|log|] == log;
    }
  }

  // ---- The invariant ----------------------------------------------------------------------------------------------

  function StoredStatus(st: LifecycleState, id: ProposalId): Option<ProposalStatus> {
    if id in st.proposals then Some(st.proposals[id].status) else None
  }

  predicate Reachable(status: ProposalStatus) {
    status in {PendingManualConfirmation, PolicyRejected, Approved, Cancelled}
  }

  /** What no operation changes after creation. */
  predicate SameTerms(p: TradeProposal, q: TradeProposal) {
    && p.proposalId == q.proposalId && p.marketId == q.marketId && p.side == q.side && p.edge == q.edge
    && p.maxAllowedSize == q.maxAllowedSize && p.recommendedSize == q.recommendedSize
    && p.suggestedLimit == q.suggestedLimit && p.createdAt == q.createdAt && p.expiresAt == q.expiresAt
  }

  /** A stored row under the configuration: its size fits what sizing allowed, its side is the sign of its edge, and
      unless policy rejected it the edge met the configured minimum. */
  predicate SoundRow(s: Settings, p: TradeProposal) {
    && Reachable(p.status)
    && 0 <= p.currentSize <= p.maxAllowedSize
    && (p.side == Yes <==> p.edge > 0.0)
    && (p.status != PolicyRejected ==> s.minEdgePct <= p.edge)
  }

  /** The review entry that approved exactly the row `p`. */
  predicate Approves(s: Settings, entry: Review, p: TradeProposal) {
    && entry.proposalId == p.proposalId
    && entry.action.ApproveReview?
    && entry.action.size == p.currentSize && entry.action.limit == p.currentLimit
    && entry.action.dataAgeSeconds <= STALE_AFTER_SECONDS
    && entry.at < p.expiresAt
    && Dollars(p.currentSize) <= PositionCap(s)
  }

  ghost predicate KeyedStore(st: LifecycleState) {
    forall id :: id in st.proposals ==> id < st.nextId && st.proposals[id].proposalId == id
  }

  ghost predicate SoundStore(s: Settings, st: LifecycleState) {
    forall id :: id in st.proposals ==> SoundRow(s, st.proposals[id])
  }

  ghost predicate LogMatchesStore(st: LifecycleState) {
    WellFormedLog(st.reviews) && forall id :: Replay(st.reviews, id) == StoredStatus(st, id)
  }

  ghost predicate HistoryMatchesStore(s: Settings, st: LifecycleState) {
    forall k :: 0 <= k < |st.saves| ==>
      && st.saves[k].proposalId in st.proposals
      && SameTerms(st.saves[k], st.proposals[st.saves[k].proposalId])
      && SoundRow(s, st.saves[k])
  }

  ghost predicate ApprovalsAreLogged(s: Settings, st: LifecycleState) {
    forall k :: 0 <= k < |st.saves| && st.saves[k].status == Approved ==>
      exists j :: 0 <= j < |st.reviews| && Approves(s, st.reviews[j], st.saves[k])
  }

  ghost predicate Invariant(s: Settings, st: LifecycleState) {
    && KeyedStore(st)
    && SoundStore(s, st)
    && LogMatchesStore(st)
    && HistoryMatchesStore(s, st)
    && ApprovalsAreLogged(s, st)
  }

  // ---- Every operation is made of three kinds of step -------------------------------------------------------------

  /** Rewriting the row of a known proposal along a protocol entry. */
  predicate RowStep(s: Settings, st: LifecycleState, q: TradeProposal, action: ReviewAction, at: int) {
    && q.proposalId in st.proposals
    && var p := st.proposals[q.proposalId];
    && SameTerms(p, q)
    && SoundRow(s, q)
    && MayFollow(Some(p.status), action)
    && NextStatus(Some(p.status), action) == Some(q.status)
    && (q.status == Approved ==> Approves(s, Review(q.proposalId, action, at), q))
  }

  lemma LogStepKeeps(s: Settings, st: LifecycleState, id: ProposalId, action: ReviewAction, at: int)
    requires Invariant(s, st) && id in st.proposals
    requires action == AnalysisReview
      || (action == SnapshotErrorReview && st.proposals[id].status == PendingManualConfirmation)
    ensures Invariant(s, Logged(st, id, action, at))
  {
    var st' := Logged(st, id, action, at);
    var entry := Review(id, action, at);
    WellFormedAppend(st.reviews, entry);
    forall other ensures Replay(st'.reviews, other) == StoredStatus(st', other) {
      ReplayAppend(st.reviews, entry, other);
    }
    ApprovalsStayLogged(s, st, entry);
  }

  lemma ApprovalsStayLogged(s: Settings, st: LifecycleState, entry: Review)
    requires ApprovalsAreLogged(s, st)
    ensures ApprovalsAreLogged(s, st.(reviews := st.reviews + [entry]))
  {
    var longer := st.reviews + [entry];
    forall k | 0 <= k < |st.saves| && st.saves[k].status == Approved
      ensures exists j :: 0 <= j < |longer| && Approves(s, longer[j], st.saves[k])
    {
      var j :| 0 <= j < |st.reviews| && Approves(s, st.reviews[j], st.saves[k]);
      assert longer[j] == st.reviews[j];
    }
  }

  lemma LogMatchesAfterSave(st: LifecycleState, q: TradeProposal, action: ReviewAction, at: int)
    requires LogMatchesStore(st)
    requires MayFollow(StoredStatus(st, q.proposalId), action)
    requires NextStatus(StoredStatus(st, q.proposalId), action) == Some(q.status)
    ensures LogMatchesStore(Saved(st, q, action, at))
  {
    var entry := Review(q.proposalId, action, at);
    var st' := Saved(st, q, action, at);
    WellFormedAppend(st.reviews, entry);
    forall other ensures Replay(st'.reviews, other) == StoredStatus(st', other) {
      ReplayAppend(st.reviews, entry, other);
    }
  }

  lemma ApprovalsLoggedAfterSave(s: Settings, st: LifecycleState, q: TradeProposal, action: ReviewAction, at: int)
    requires ApprovalsAreLogged(s, st)
    requires q.status == Approved ==> Approves(s, Review(q.proposalId, action, at), q)
    ensures ApprovalsAreLogged(s, Saved(st, q, action, at))
  {
    var entry := Review(q.proposalId, action, at);
    var st' := Saved(st, q, action, at);
    ApprovalsStayLogged(s, st, entry);
    forall k | 0 <= k < |st'.saves| && st'.saves[k].status == Approved
      ensures exists j :: 0 <= j < |st'.reviews| && Approves(s, st'.reviews[j], st'.saves[k])
    {
      if k == |st.saves| {
        assert st'.reviews[|st.reviews|] == entry && st'.saves[k] == q;
      } else {
        assert st'.saves[k] == st.saves[k];
      }
    }
  }

  lemma RowStepKeeps(s: Settings, st: LifecycleState, q: TradeProposal, action: ReviewAction, at: int)
    requires Invariant(s, st) && RowStep(s, st, q, action, at)
    ensures Invariant(s, Saved(st, q, action, at))
  {
    LogMatchesAfterSave(st, q, action, at);
    ApprovalsLoggedAfterSave(s, st, q, action, at);
  }

  lemma NewRowKeeps(s: Settings, st: LifecycleState, p: TradeProposal, at: int)
    requires Invariant(s, st) && p.proposalId == st.nextId
    requires SoundRow(s, p) && p.status in {PendingManualConfirmation, PolicyRejected}
    ensures Invariant(s, Saved(st, p, CreateReview(p.status), at).(nextId := st.nextId + 1))
  {
    LogMatchesAfterSave(st, p, CreateReview(p.status), at);
    ApprovalsLoggedAfterSave(s, st, p, CreateReview(p.status), at);
  }

  lemma CreateKeeps(s: Settings, st: LifecycleState, c: Context)
    requires Validated(s) && Invariant(s, st)
    ensures Invariant(s, Creating(st, s, c).0)
  {
    var p := Drafted(s, c, st.nextId);
    DraftIsSound(s, c, st.nextId);
    NewRowKeeps(s, st, p, p.createdAt);
  }

  lemma DraftIsSound(s: Settings, c: Context, id: ProposalId)
    requires Validated(s)
    ensures var p := Drafted(s, c, id);
      SoundRow(s, p) && p.status in {PendingManualConfirmation, PolicyRejected} && p.proposalId == id
  {
    var d := SizingInput(c.probability.confidence, c.edge, c.themeExposure, c.unresolvedExposure,
        c.market.liquidityUsd);
    RecommendedWithinAllowed(s, d);
    NoReasonsIffAllowed(s, c.(proposedSize := Sized(s, d).recommended));
  }

  /** Rows the expiry loop has not reached are as they were. */
  lemma UnreachedRow(st: LifecycleState, now: int, rows: seq<ProposalId>, i: nat)
    requires Lists(rows, st.proposals) && i < |rows|
    ensures var done := PartlyExpired(st, rows[..i], now);
      rows[i] in done.proposals && done.proposals[rows[i]] == st.proposals[rows[i]]
  {
  }

  lemma CancelStaleKeeps(s: Settings, st: LifecycleState, p: TradeProposal, now: int)
    requires Invariant(s, st) && p.proposalId in st.proposals && st.proposals[p.proposalId] == p && Stale(p, now)
    ensures Invariant(s, Saved(st, Cancel(p, now), ExpireReview, now))
  {
    assert SoundRow(s, p);
    RowStepKeeps(s, st, Cancel(p, now), ExpireReview, now);
  }

  lemma {:induction false} Climb(holds: nat -> bool, n: nat)
    requires holds(0) && forall i: nat :: i < n && holds(i) ==> holds(i + 1)
    ensures holds(n)
  {
    if n > 0 { Climb(holds, n - 1); }
  }

  /** Row by row, the expiry loop keeps the invariant. */
  lemma ExpireKeeps(s: Settings, st: LifecycleState, now: int, rows: seq<ProposalId>)
    requires Invariant(s, st) && Lists(rows, st.proposals)
    ensures Invariant(s, Expiring(st, now, rows).0)
  {
    var holds := (i: nat) => i <= |rows| ==> Invariant(s, PartlyExpired(st, rows[..i], now));
    ExpireNoneKeeps(s, st, now, rows);
    forall i: nat | i < |rows| && holds(i) ensures holds(i + 1) {
      ExpireOneKeeps(s, st, now, rows, i);
    }
    Climb(holds, |rows|);
    FullyExpired(st, rows, now);
  }

  lemma ExpireNoneKeeps(s: Settings, st: LifecycleState, now: int, rows: seq<ProposalId>)
    requires Invariant(s, st)
    ensures Invariant(s, PartlyExpired(st, rows[..0], now))
  {
    NothingExpired(st, now);
    assert rows[..0] == [];
  }

  lemma ExpireOneKeeps(s: Settings, st: LifecycleState, now: int, rows: seq<ProposalId>, i: nat)
    requires KeyedStore(st) && Lists(rows, st.proposals) && i < |rows|
    requires Invariant(s, PartlyExpired(st, rows[..i], now))
    ensures Invariant(s, PartlyExpired(st, rows[..i + 1], now))
  {
    UnreachedRow(st, now, rows, i);
    KeyedRow(st, rows[i]);
    ExpiryStep(st, rows, i, now);
    if Stale(st.proposals[rows[i]], now) {
      CancelStaleKeeps(s, PartlyExpired(st, rows[..i], now), st.proposals[rows[i]], now);
    }
  }

  lemma KeyedRow(st: LifecycleState, id: ProposalId)
    requires KeyedStore(st) && id in st.proposals
    ensures st.proposals[id].proposalId == id
    ensures forall k :: k in st.proposals ==> st.proposals[k].proposalId == k
  {
  }

  lemma EditSizeKeeps(s: Settings, st: LifecycleState, id: ProposalId, amount: real, now: int)
    requires Invariant(s, st)
    ensures Invariant(s, EditingSize(st, id, amount, now).0)
  {
    var (st', r) := EditingSize(st, id, amount, now);
    if r.Ok? {
      EditedSizeInRange(amount, st.proposals[id].maxAllowedSize);
      RowStepKeeps(s, st, r.value, EditSizeReview(r.value.currentSize), now);
    }
  }

  /** Rounding an allowed amount to cents keeps it within the maximum, because the maximum is itself in whole cents. */
  lemma EditedSizeInRange(amount: real, maxAllowed: int)
    requires 0.0 < amount <= Dollars(maxAllowed)
    ensures 0 <= ToCents(amount) <= maxAllowed
  {
    RoundBounded(0, amount * 100.0, maxAllowed);
  }

  lemma ApproveKeeps(s: Settings, st: LifecycleState, id: ProposalId, e: Exposure, source: SnapshotSource, now: int)
    requires Invariant(s, st)
    ensures Invariant(s, Approving(st, s, id, e, source, now).0)
  {
    if id in st.proposals && st.proposals[id].status == PendingManualConfirmation {
      var p := st.proposals[id];
      if p.expiresAt <= now {
        RowStepKeeps(s, st, Cancel(p, now), ExpireReview, now);
      } else {
        match Resolved(p, source)
        case Err(_) =>
          if source == ProviderFailed {
            LogStepKeeps(s, st, id, SnapshotErrorReview, now);
          }
        case Ok(snapshot) => RevalidateKeeps(s, st, p, e, snapshot, now);
      }
    }
  }

  lemma RevalidateKeeps(s: Settings, st: LifecycleState, p: TradeProposal, e: Exposure, snapshot: Snapshot, now: int)
    requires Invariant(s, st) && p.proposalId in st.proposals && st.proposals[p.proposalId] == p
    requires p.status == PendingManualConfirmation && now < p.expiresAt
    ensures Invariant(s, Revalidating(st, s, p, e, snapshot, now).0)
  {
    var c := ApprovalContext(s, p, e, snapshot, now);
    var reasons := Reasons(s, c);
    var q := Revalidated(p, snapshot, reasons, now);
    NoReasonsIffAllowed(s, c);
    if reasons != [] {
      RowStepKeeps(s, st, q, RevalidateRejectReview(snapshot.dataAgeSeconds, reasons), now);
    } else {
      RowStepKeeps(s, st, q, ApproveReview(snapshot.dataAgeSeconds, q.currentSize, q.currentLimit), now);
    }
  }

  lemma ApplyKeeps(s: Settings, st: LifecycleState, op: Operation)
    requires Validated(s) && Invariant(s, st) && Legal(st, op)
    ensures Invariant(s, Apply(s, st, op))
  {
    match op
    case CreateOp(c) => CreateKeeps(s, st, c);
    case ExpireOp(now, rows) =>
      ExpireKeeps(s, st, now, rows);
    case EditSizeOp(id, amount, now) => EditSizeKeeps(s, st, id, amount, now);
    case EditPriceOp(id, price, now) =>
      var r := EditingPrice(st, id, price, now).1;
      if r.Ok? { RowStepKeeps(s, st, r.value, EditPriceReview(r.value.currentLimit), now); }
    case RejectOp(id, now) =>
      var r := Rejecting(st, id, now).1;
      if r.Ok? { RowStepKeeps(s, st, r.value, RejectReview, now); }
    case CancelOp(id, now) =>
      var r := Cancelling(st, id, now).1;
      if r.Ok? { RowStepKeeps(s, st, r.value, CancelReview(st.proposals[id].status), now); }
    case AnalysisOp(id, now) =>
      if id in st.proposals { LogStepKeeps(s, st, id, AnalysisReview, now); }
    case ApproveOp(id, e, source, now) => ApproveKeeps(s, st, id, e, source, now);
  }

  // ---- Whole-run theorems -----------------------------------------------------------------------------------------

  lemma {:induction false} RunKeepsInvariant(s: Settings, st: LifecycleState, ops: seq<Operation>)
    requires Validated(s) && Invariant(s, st) && LegalRun(s, st, ops)
    ensures Invariant(s, Run(s, st, ops))
    decreases |ops|
  {
    if ops != [] {
      ApplyKeeps(s, st, ops[0]);
      RunKeepsInvariant(s, Apply(s, st, ops[0]), ops[1..]);
    }
  }

  lemma EmptyIsConsistent(s: Settings)
    ensures Invariant(s, EMPTY)
  {
  }

  /** Folding a proposal's review log yields exactly its stored status after any run, the log is a word of the
      protocol, and only four statuses ever occur. */
  lemma ReplayYieldsStatus(s: Settings, ops: seq<Operation>, id: ProposalId)
    requires Validated(s) && LegalRun(s, EMPTY, ops)
    ensures var st := Run(s, EMPTY, ops);
      && Replay(st.reviews, id) == StoredStatus(st, id)
      && WellFormedLog(st.reviews)
      && (id in st.proposals ==> Reachable(st.proposals[id].status))
  {
    EmptyIsConsistent(s);
    RunKeepsInvariant(s, EMPTY, ops);
  }

  /** Policy-rejected and cancelled proposals are never written again; an approved one is only ever cancelled. */
  ghost predicate Settled(p: TradeProposal, q: TradeProposal) {
    && (p.status in {PolicyRejected, Cancelled} ==> q == p)
    && (p.status == Approved ==> q == p || exists now :: q == Cancel(p, now))
  }

  lemma ApplySettles(s: Settings, st: LifecycleState, op: Operation, id: ProposalId)
    requires Legal(st, op) && KeyedStore(st) && id in st.proposals
    ensures id in Apply(s, st, op).proposals && Settled(st.proposals[id], Apply(s, st, op).proposals[id])
  {
  }

  lemma {:induction false} RunSettles(s: Settings, st: LifecycleState, ops: seq<Operation>, id: ProposalId)
    requires Validated(s) && Invariant(s, st) && LegalRun(s, st, ops) && id in st.proposals
    ensures id in Run(s, st, ops).proposals && Settled(st.proposals[id], Run(s, st, ops).proposals[id])
    decreases |ops|
  {
    if ops != [] {
      var st' := Apply(s, st, ops[0]);
      ApplyKeeps(s, st, ops[0]);
      ApplySettles(s, st, ops[0], id);
      RunSettles(s, st', ops[1..], id);
      SettledTransitive(st.proposals[id], st'.proposals[id], Run(s, st', ops[1..]).proposals[id]);
    }
  }

  lemma SettledTransitive(p: TradeProposal, q: TradeProposal, r: TradeProposal)
    requires Settled(p, q) && Settled(q, r)
    ensures Settled(p, r)
  {
  }

  /** Everything the four policies ask of a proposal for `size` cents on a market with the given edge, on data as old as
      given; money is in dollars. */
  predicate MeetsEveryCondition(s: Settings, size: int, market: Market, p: ProbabilityEstimate, edge: real,
                                dataAgeSeconds: int, e: Exposure, now: int)
  {
    var dollars := size as real / 100.0;
    && market.category in s.allowedCategories && market.category !in s.blockedCategories
    && (s.allowedMarketIds != [] ==> market.marketId in s.allowedMarketIds) && market.marketId !in s.blockedMarketIds
    && (forall k :: 0 <= k < |s.blockedPatterns| ==> !Contains(Lower(market.title), Lower(s.blockedPatterns[k])))
    && market.liquidityUsd >= s.minLiquidityUsd && market.spreadPct <= s.maxSpreadPct
    && (market.resolutionTime - now) as real >= s.minHoursToResolution * 3600.0
    && (s.requireClearRules ==> market.rulesConfidence >= s.minRulesConfidence)
    && (s.requireOrderbook ==> market.hasOrderbook)
    && e.openPositions < s.maxOpenPositions
    && e.unresolved + dollars <= s.bankroll * s.maxUnresolvedExposurePct
    && e.theme + dollars <= s.bankroll * s.maxThemeExposurePct
    && dollars <= s.bankroll * s.maxPositionPct
    && s.killSwitchEnabled && dataAgeSeconds <= 120
    && edge >= s.minEdgePct
    && p.confidence >= s.minConfidence && p.modelAgreement >= s.minModelAgreement
    && (s.requireTrustedSource ==> p.trustedSourcePresent)
    && (forall k :: 0 <= k < |p.sourceTypes| ==> p.sourceTypes[k] in s.allowedSourceTypes)
  }

  lemma EveryConditionIsAllowed(s: Settings, c: Context)
    ensures Reasons(s, c) == [] <==>
      c.orderType == s.orderType
      && MeetsEveryCondition(s, c.proposedSize, c.market, c.probability, c.edge, c.dataAgeSeconds,
                             Exposure(c.openPositions, c.unresolvedExposure, c.themeExposure), c.now)
  {
    NoReasonsIffAllowed(s, c);
  }

  /** A proposal is approved exactly when it is known, pending and unexpired and fresh data can be had on which its
      current size meets every condition: the market, the estimate, the price and the age of the provider's snapshot,
      or, from the caller, the market and estimate given, the proposal's current limit as the price, and the age given
      or none. */
  lemma ApprovedIff(s: Settings, st: LifecycleState, id: ProposalId, e: Exposure, source: SnapshotSource, now: int)
    ensures Approving(st, s, id, e, source, now).1.Ok? <==>
      && id in st.proposals
      && st.proposals[id].status == PendingManualConfirmation
      && now < st.proposals[id].expiresAt
      && var size := st.proposals[id].currentSize;
      match source
      case ProviderFailed => false
      case Provided(x) =>
        MeetsEveryCondition(s, size, x.market, x.probability, x.probability.fairProbability - x.currentPrice,
                            x.dataAgeSeconds, e, now)
      case FromCaller(market, p, age) =>
        && market.Some? && p.Some?
        && MeetsEveryCondition(s, size, market.value, p.value,
                               p.value.fairProbability - st.proposals[id].currentLimit as real / 10000.0,
                               if age.Some? then age.value else 0, e, now)
  {
    if id in st.proposals && Resolved(st.proposals[id], source).Ok? {
      EveryConditionIsAllowed(s,
                              ApprovalContext(s, st.proposals[id], e, Resolved(st.proposals[id], source).value, now));
    }
  }

  /** What an approval leaves: the same proposal, approved, with the price and estimate it was judged on and no reasons;
      every other outcome on fresh data leaves it rejected by policy. */
  lemma ApprovalRecordsItsData(s: Settings, st: LifecycleState, id: ProposalId, e: Exposure, x: Snapshot, now: int)
    requires KeyedStore(st) && id in st.proposals
    requires st.proposals[id].status == PendingManualConfirmation && now < st.proposals[id].expiresAt
    ensures var p, q := st.proposals[id], Approving(st, s, id, e, Provided(x), now).0.proposals[id];
      && SameTerms(p, q) && q.currentSize == p.currentSize && q.currentLimit == p.currentLimit && q.updatedAt == now
      && q.marketPrice == x.currentPrice && q.probability == x.probability
      && q.status == (if MeetsEveryCondition(s, p.currentSize, x.market, x.probability,
                                             x.probability.fairProbability - x.currentPrice, x.dataAgeSeconds, e, now)
                      then Approved else PolicyRejected)
      && (q.status == Approved <==> q.policyReasons == [])
  {
    EveryConditionIsAllowed(s, ApprovalContext(s, st.proposals[id], e, x, now));
  }

  /** What a created proposal is: sized and judged on its own context, pending exactly when it meets every condition at
      the recommended size, priced at the context's price to half a tick, and living for the configured minutes. */
  lemma CreatedProposal(s: Settings, st: LifecycleState, c: Context)
    ensures var p := Creating(st, s, c).1;
      && Creating(st, s, c).0.proposals == st.proposals[p.proposalId := p]
      && p.marketId == c.market.marketId && p.proposalId == st.nextId
      && (p.side == Yes <==> c.edge > 0.0)
      && p.currentSize == p.recommendedSize && p.currentLimit == p.suggestedLimit
      && -0.5 <= p.currentLimit as real - c.currentPrice * 10000.0 <= 0.5
      && p.createdAt == c.now && p.expiresAt == c.now + s.proposalTtlMinutes * 60
      && p.status == (if c.orderType == s.orderType
                         && MeetsEveryCondition(s, p.currentSize, c.market, c.probability, c.edge, c.dataAgeSeconds,
                                                Exposure(c.openPositions, c.unresolvedExposure, c.themeExposure), c.now)
                      then PendingManualConfirmation else PolicyRejected)
  {
    RoundWithinHalf(c.currentPrice * 10000.0);
    var size := Drafted(s, c, st.nextId).currentSize;
    EveryConditionIsAllowed(s, c.(proposedSize := size));
  }

  /** After the expiry loop no pending proposal is past its time, exactly those that were have been cancelled, and each
      of them has one more entry in the log. */
  lemma ExpiryIsExact(st: LifecycleState, now: int, rows: seq<ProposalId>, id: ProposalId)
    requires KeyedStore(st) && Lists(rows, st.proposals) && id in st.proposals
    ensures var p, q := st.proposals[id], Expiring(st, now, rows).0.proposals[id];
      var due := p.status == PendingManualConfirmation && p.expiresAt <= now;
      && (due ==> q == p.(status := Cancelled, updatedAt := now))
      && (!due ==> q == p)
      && EntriesOn(Expiring(st, now, rows).0.reviews, id) == EntriesOn(st.reviews, id) + (if due then 1 else 0)
  {
    ExpiryEntries(st.proposals, rows, now, id);
    EntriesOnConcat(st.reviews, ExpireReviews(StaleRows(st.proposals, rows, now), now), id);
  }

  function EntriesOn(log: seq<Review>, id: ProposalId): nat {
    if log == [] then 0 else (if log[0].proposalId == id then 1 else 0) + EntriesOn(log[1..], id)
  }

  lemma {:induction false} EntriesOnConcat(a: seq<Review>, b: seq<Review>, id: ProposalId)
    ensures EntriesOn(a + b, id) == EntriesOn(a, id) + EntriesOn(b, id)
  {
    if a == [] {
      assert a + b == b;
    } else {
      assert (a + b)[1..] == a[1..] + b;
      EntriesOnConcat(a[1..], b, id);
    }
  }

  lemma {:induction false} ExpiryEntries(proposals: map<ProposalId, TradeProposal>, rows: seq<ProposalId>, now: int,
                                         id: ProposalId)
    requires forall k :: k in proposals ==> proposals[k].proposalId == k
    requires forall i, j :: 0 <= i < j < |rows| ==> rows[i] != rows[j]
    ensures EntriesOn(ExpireReviews(StaleRows(proposals, rows, now), now), id)
         == if id in rows && id in proposals && Stale(proposals[id], now) then 1 else 0
  {
    if rows == [] {
      assert ExpireReviews(StaleRows(proposals, rows, now), now) == [];
    } else {
      ExpiryEntries(proposals, rows[1..], now, id);
      var rest := StaleRows(proposals, rows[1..], now);
      if rows[0] in proposals && Stale(proposals[rows[0]], now) {
        var first := Cancel(proposals[rows[0]], now);
        assert ExpireReviews([first] + rest, now)[1..] == ExpireReviews(rest, now);
      }
    }
  }

  /** Which edits, rejections and cancellations are accepted, and what they leave. */
  lemma TransitionsIff(st: LifecycleState, id: ProposalId, x: real, now: int)
    ensures EditingSize(st, id, x, now).1.Ok? <==>
      && id in st.proposals && st.proposals[id].status == PendingManualConfirmation
      && 0.0 < x && x * 100.0 <= st.proposals[id].maxAllowedSize as real
    ensures EditingSize(st, id, x, now).1.Ok? ==>
      -0.5 <= EditingSize(st, id, x, now).1.value.currentSize as real - x * 100.0 <= 0.5
    ensures EditingPrice(st, id, x, now).1.Ok? <==>
      id in st.proposals && st.proposals[id].status == PendingManualConfirmation && 0.0 < x <= 1.0
    ensures EditingPrice(st, id, x, now).1.Ok? ==>
      -0.5 <= EditingPrice(st, id, x, now).1.value.currentLimit as real - x * 10000.0 <= 0.5
    ensures Rejecting(st, id, now).1.Ok? <==> id in st.proposals && st.proposals[id].status == PendingManualConfirmation
    ensures Cancelling(st, id, now).1.Ok? <==>
      id in st.proposals && st.proposals[id].status in {PendingManualConfirmation, Approved}
    ensures Rejecting(st, id, now).1.Ok? ==> Rejecting(st, id, now).1.value.status == Cancelled
    ensures Cancelling(st, id, now).1.Ok? ==> Cancelling(st, id, now).1.value.status == Cancelled
    ensures Analysing(st, id, now).1.Ok? <==> id in st.proposals
  {
    RoundWithinHalf(x * 100.0);
    RoundWithinHalf(x * 10000.0);
  }

  // ---- The log as the source of the terms -------------------------------------------------------------------------

  /** The size that the last size edit of a proposal logged, and the limit that the last price edit did. */
  function EditedSize(log: seq<Review>, id: ProposalId): Option<int> {
    if log == [] then None
    else
      var last := log[|log| - 1];
      if last.proposalId == id && last.action.EditSizeReview? then Some(last.action.size)
      else EditedSize(log[..|log| - 1], id)
  }

  function EditedLimit(log: seq<Review>, id: ProposalId): Option<int> {
    if log == [] then None
    else
      var last := log[|log| - 1];
      if last.proposalId == id && last.action.EditPriceReview? then Some(last.action.limit)
      else EditedLimit(log[..|log| - 1], id)
  }

  ghost predicate TermsMatchLog(st: LifecycleState) {
    forall id :: (id in st.proposals ==> RowMatchesLog(st.reviews, id, st.proposals[id]))
      && (id !in st.proposals ==> EditedSize(st.reviews, id) == None && EditedLimit(st.reviews, id) == None)
  }

  predicate RowMatchesLog(log: seq<Review>, id: ProposalId, p: TradeProposal) {
    && p.currentSize == (match EditedSize(log, id) case Some(size) => size case None => p.recommendedSize)
    && p.currentLimit == (match EditedLimit(log, id) case Some(limit) => limit case None => p.suggestedLimit)
  }

  lemma EditAppend(log: seq<Review>, entry: Review, id: ProposalId)
    ensures EditedSize(log + [entry], id)
         == if entry.proposalId == id && entry.action.EditSizeReview? then Some(entry.action.size)
            else EditedSize(log, id)
    ensures EditedLimit(log + [entry], id)
         == if entry.proposalId == id && entry.action.EditPriceReview? then Some(entry.action.limit)
            else EditedLimit(log, id)
  {
    assert (log + [entry])[..|log|] == log;
  }

  lemma {:induction false} ExpiriesEditNothing(log: seq<Review>, expired: seq<TradeProposal>, now: int, id: ProposalId)
    ensures EditedSize(log + ExpireReviews(expired, now), id) == EditedSize(log, id)
    ensures EditedLimit(log + ExpireReviews(expired, now), id) == EditedLimit(log, id)
  {
    if expired == [] {
      assert log + ExpireReviews(expired, now) == log;
    } else {
      var init := expired[..|expired| - 1];
      var last := Review(expired[|expired| - 1].proposalId, ExpireReview, now);
      ExpiriesEditNothing(log, init, now, id);
      assert log + ExpireReviews(expired, now) == log + ExpireReviews(init, now) + [last];
      EditAppend(log + ExpireReviews(init, now), last, id);
    }
  }

  /** Storing a row of a known proposal whose terms are those the entry logs, or the stored ones. */
  lemma SavedMatchesLog(st: LifecycleState, q: TradeProposal, action: ReviewAction, at: int)
    requires TermsMatchLog(st) && q.proposalId in st.proposals
    requires var p := st.proposals[q.proposalId];
      && q.recommendedSize == p.recommendedSize && q.suggestedLimit == p.suggestedLimit
      && q.currentSize == (if action.EditSizeReview? then action.size else p.currentSize)
      && q.currentLimit == (if action.EditPriceReview? then action.limit else p.currentLimit)
    ensures TermsMatchLog(Saved(st, q, action, at))
  {
    var after := Saved(st, q, action, at);
    forall id ensures (id in after.proposals ==> RowMatchesLog(after.reviews, id, after.proposals[id]))
      && (id !in after.proposals ==> EditedSize(after.reviews, id) == None && EditedLimit(after.reviews, id) == None)
    {
      EditAppend(st.reviews, Review(q.proposalId, action, at), id);
    }
  }

  lemma LoggedMatchesLog(st: LifecycleState, id: ProposalId, action: ReviewAction, at: int)
    requires TermsMatchLog(st) && action in {AnalysisReview, SnapshotErrorReview}
    ensures TermsMatchLog(Logged(st, id, action, at))
  {
    forall k ensures EditedSize(Logged(st, id, action, at).reviews, k) == EditedSize(st.reviews, k)
      && EditedLimit(Logged(st, id, action, at).reviews, k) == EditedLimit(st.reviews, k)
    {
      EditAppend(st.reviews, Review(id, action, at), k);
    }
  }

  lemma CreatedMatchesLog(s: Settings, st: LifecycleState, c: Context)
    requires TermsMatchLog(st) && st.nextId !in st.proposals
    ensures TermsMatchLog(Creating(st, s, c).0)
  {
    var (after, p) := Creating(st, s, c);
    forall id ensures (id in after.proposals ==> RowMatchesLog(after.reviews, id, after.proposals[id]))
      && (id !in after.proposals ==> EditedSize(after.reviews, id) == None && EditedLimit(after.reviews, id) == None)
    {
      EditAppend(st.reviews, Review(p.proposalId, CreateReview(p.status), p.createdAt), id);
    }
  }

  lemma ExpiryMatchesLog(st: LifecycleState, now: int, rows: seq<ProposalId>)
    requires TermsMatchLog(st)
    ensures TermsMatchLog(Expiring(st, now, rows).0)
  {
    var after := Expiring(st, now, rows).0;
    forall id ensures (id in after.proposals ==> RowMatchesLog(after.reviews, id, after.proposals[id]))
      && (id !in after.proposals ==> EditedSize(after.reviews, id) == None && EditedLimit(after.reviews, id) == None)
    {
      ExpiriesEditNothing(st.reviews, StaleRows(st.proposals, rows, now), now, id);
    }
  }

  lemma ApprovalMatchesLog(s: Settings, st: LifecycleState, id: ProposalId, e: Exposure, source: SnapshotSource,
                           now: int)
    requires TermsMatchLog(st) && KeyedStore(st)
    ensures TermsMatchLog(Approving(st, s, id, e, source, now).0)
  {
    if id in st.proposals && st.proposals[id].status == PendingManualConfirmation {
      var p := st.proposals[id];
      if p.expiresAt <= now {
        SavedMatchesLog(st, Cancel(p, now), ExpireReview, now);
      } else if Resolved(p, source).Ok? {
        var snapshot := Resolved(p, source).value;
        var reasons := Reasons(s, ApprovalContext(s, p, e, snapshot, now));
        var q := Revalidated(p, snapshot, reasons, now);
        if reasons == [] {
          SavedMatchesLog(st, q, ApproveReview(snapshot.dataAgeSeconds, q.currentSize, q.currentLimit), now);
        } else {
          SavedMatchesLog(st, q, RevalidateRejectReview(snapshot.dataAgeSeconds, reasons), now);
        }
      } else {
        LoggedMatchesLog(st, id, SnapshotErrorReview, now);
      }
    }
  }

  lemma EditsMatchLog(st: LifecycleState, id: ProposalId, x: real, now: int)
    requires TermsMatchLog(st) && KeyedStore(st)
    ensures TermsMatchLog(EditingSize(st, id, x, now).0) && TermsMatchLog(EditingPrice(st, id, x, now).0)
  {
    var size, price := EditingSize(st, id, x, now).1, EditingPrice(st, id, x, now).1;
    if size.Ok? { SavedMatchesLog(st, size.value, EditSizeReview(size.value.currentSize), now); }
    if price.Ok? { SavedMatchesLog(st, price.value, EditPriceReview(price.value.currentLimit), now); }
  }

  lemma ClosingMatchesLog(st: LifecycleState, id: ProposalId, now: int)
    requires TermsMatchLog(st) && KeyedStore(st)
    ensures TermsMatchLog(Rejecting(st, id, now).0) && TermsMatchLog(Cancelling(st, id, now).0)
  {
    var rejected, cancelled := Rejecting(st, id, now).1, Cancelling(st, id, now).1;
    if rejected.Ok? { SavedMatchesLog(st, rejected.value, RejectReview, now); }
    if cancelled.Ok? { SavedMatchesLog(st, cancelled.value, CancelReview(st.proposals[id].status), now); }
  }

  lemma ApplyMatchesLog(s: Settings, st: LifecycleState, op: Operation)
    requires TermsMatchLog(st) && KeyedStore(st)
    ensures TermsMatchLog(Apply(s, st, op))
  {
    match op
    case CreateOp(c) => CreatedMatchesLog(s, st, c);
    case ExpireOp(now, rows) => ExpiryMatchesLog(st, now, rows);
    case EditSizeOp(id, amount, now) => EditsMatchLog(st, id, amount, now);
    case EditPriceOp(id, price, now) => EditsMatchLog(st, id, price, now);
    case RejectOp(id, now) => ClosingMatchesLog(st, id, now);
    case CancelOp(id, now) => ClosingMatchesLog(st, id, now);
    case AnalysisOp(id, now) =>
      if id in st.proposals { LoggedMatchesLog(st, id, AnalysisReview, now); }
    case ApproveOp(id, e, source, now) => ApprovalMatchesLog(s, st, id, e, source, now);
  }

  lemma {:induction false} RunMatchesLog(s: Settings, st: LifecycleState, ops: seq<Operation>)
    requires Validated(s) && Invariant(s, st) && LegalRun(s, st, ops) && TermsMatchLog(st)
    ensures TermsMatchLog(Run(s, st, ops))
    decreases |ops|
  {
    if ops != [] {
      ApplyKeeps(s, st, ops[0]);
      ApplyMatchesLog(s, st, ops[0]);
      RunMatchesLog(s, Apply(s, st, ops[0]), ops[1..]);
    }
  }

  /** After any run the size and the limit of a proposal are those of its last logged edit of each, and without one they
      are the recommended size and the suggested limit. */
  lemma LogYieldsTerms(s: Settings, ops: seq<Operation>, id: ProposalId)
    requires Validated(s) && LegalRun(s, EMPTY, ops) && id in Run(s, EMPTY, ops).proposals
    ensures var st := Run(s, EMPTY, ops); var p := st.proposals[id];
      && (match EditedSize(st.reviews, id)
          case Some(size) => p.currentSize == size
          case None => p.currentSize == p.recommendedSize)
      && (match EditedLimit(st.reviews, id)
          case Some(limit) => p.currentLimit == limit
          case None => p.currentLimit == p.suggestedLimit)
  {
    EmptyIsConsistent(s);
    RunMatchesLog(s, EMPTY, ops);
    assert RowMatchesLog(Run(s, EMPTY, ops).reviews, id, Run(s, EMPTY, ops).proposals[id]);
  }

  /** When fresh data cannot be had, no stored proposal changes; at most one error entry is logged. */
  lemma FailedSnapshotChangesNoProposal(s: Settings, st: LifecycleState, id: ProposalId, e: Exposure,
                                        source: SnapshotSource, now: int)
    requires id in st.proposals && Resolved(st.proposals[id], source).Err?
    requires st.proposals[id].status == PendingManualConfirmation && now < st.proposals[id].expiresAt
    ensures var (st', r) := Approving(st, s, id, e, source, now);
      && r.Err? && st'.proposals == st.proposals && st'.saves == st.saves
      && st'.reviews == st.reviews + if source == ProviderFailed then [Review(id, SnapshotErrorReview, now)] else []
  {
  }

  /** An edited size is rounded to cents, so an accepted edit leaves a size of zero exactly when the amount is at most
      half a cent. */
  lemma TinyEditBecomesZero(st: LifecycleState, id: ProposalId, amount: real, now: int)
    requires EditingSize(st, id, amount, now).1.Ok?
    ensures EditingSize(st, id, amount, now).1.value.currentSize == 0 <==> amount <= 0.005
  {
    RoundWithinHalf(amount * 100.0);
  }
}
