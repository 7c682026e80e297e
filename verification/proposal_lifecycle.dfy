/** The proposal lifecycle (`bot/services/proposal_lifecycle.py`, `bot/services/proposal_engine.py`): proposals are
    created from sizing and policy, edited, expired, approved after revalidation, rejected or cancelled, and every
    step is appended to a review log.

    Times are in seconds, sizes in cents, limits in ticks of 0.0001. */
module ProposalLifecycle {
  import opened Common
  import opened Domain
  import opened Settings
  import opened Policies
  import opened Sizing

  type ProposalId = nat

  datatype TradeProposal = TradeProposal(
    proposalId: ProposalId,
    marketId: string,
    side: Side,
    edge: real,
    marketPrice: real,
    probability: ProbabilityEstimate,
    currentSize: int,
    currentLimit: int,
    recommendedSize: int,
    maxAllowedSize: int,
    suggestedLimit: int,
    status: ProposalStatus,
    createdAt: int,
    updatedAt: int,
    expiresAt: int,
    policyReasons: seq<Reason>)

  datatype ReviewAction =
    | CreateReview(status: ProposalStatus)
    | ExpireReview
    | EditSizeReview(size: int)
    | EditPriceReview(limit: int)
    | RejectReview
    | CancelReview(previous: ProposalStatus)
    | AnalysisReview
    | SnapshotErrorReview
    | RevalidateRejectReview(dataAgeSeconds: int, reasons: seq<Reason>)
    | ApproveReview(dataAgeSeconds: int, size: int, limit: int)

  datatype Review = Review(proposalId: ProposalId, action: ReviewAction, at: int)

  datatype LifecycleError =
    | UnknownProposal
    | NotEditable
    | EditedSizeOutOfRange
    | EditedPriceOutOfRange
    | NotRejectable
    | NotCancellable
    | NotApprovable
    | ApprovalTtlExpired
    | SnapshotUnavailable
    | ContextMissing
    | RevalidationFailed

  datatype Snapshot = Snapshot(market: Market, probability: ProbabilityEstimate, currentPrice: real,
      dataAgeSeconds: int)

  /** Where `approve` gets fresh market data: from a configured provider, which may fail, or from its caller. */
  datatype SnapshotSource =
    | ProviderFailed
    | Provided(snapshot: Snapshot)
    | FromCaller(market: Option<Market>, probability: Option<ProbabilityEstimate>, dataAgeSeconds: Option<int>)

  datatype Exposure = Exposure(openPositions: int, unresolved: real, theme: real)

  /** `saves` is the history of every row the repository was told to store, oldest first. */
  datatype LifecycleState = LifecycleState(
    proposals: map<ProposalId, TradeProposal>,
    reviews: seq<Review>,
    saves: seq<TradeProposal>,
    nextId: ProposalId)

  const EMPTY: LifecycleState := LifecycleState(map[], [], [], 0)

  // ---- Specification of each operation ----------------------------------------------------------------------------

  function Saved(st: LifecycleState, p: TradeProposal, action: ReviewAction, at: int): LifecycleState {
    st.(proposals := st.proposals[p.proposalId := p],
        reviews := st.reviews + [Review(p.proposalId, action, at)],
        saves := st.saves + [p])
  }

  function Logged(st: LifecycleState, id: ProposalId, action: ReviewAction, at: int): LifecycleState {
    st.(reviews := st.reviews + [Review(id, action, at)])
  }

  function ToTicks(price: real): int { Round(price * 10000.0) }

  function Drafted(s: Settings, c: Context, id: ProposalId): TradeProposal {
    var sizing := Sized(s, SizingInput(c.probability.confidence, c.edge, c.themeExposure, c.unresolvedExposure,
                                       c.market.liquidityUsd));
    var reasons := Reasons(s, c.(proposedSize := sizing.recommended));
    TradeProposal(id, c.market.marketId, if c.edge > 0.0 then Yes else No, c.edge, c.currentPrice, c.probability,
                  sizing.recommended, ToTicks(c.currentPrice), sizing.recommended, sizing.maxAllowed,
                  ToTicks(c.currentPrice), if reasons == [] then PendingManualConfirmation else PolicyRejected,
                  c.now, c.now, c.now + 60 * s.proposalTtlMinutes, reasons)
  }

  function Creating(st: LifecycleState, s: Settings, c: Context): (LifecycleState, TradeProposal) {
    var p := Drafted(s, c, st.nextId);
    (Saved(st, p, CreateReview(p.status), p.createdAt).(nextId := st.nextId + 1), p)
  }

  predicate Stale(p: TradeProposal, now: int) {
    p.status == PendingManualConfirmation && p.expiresAt <= now
  }

  function Cancel(p: TradeProposal, now: int): TradeProposal { p.(status := Cancelled, updatedAt := now) }

  function StaleRows(proposals: map<ProposalId, TradeProposal>, rows: seq<ProposalId>, now: int): seq<TradeProposal> {
    if rows == [] then []
    else if rows[0] in proposals && Stale(proposals[rows[0]], now)
      then [Cancel(proposals[rows[0]], now)] + StaleRows(proposals, rows[1..], now)
    else StaleRows(proposals, rows[1..], now)
  }

  function ExpireReviews(expired: seq<TradeProposal>, now: int): (r: seq<Review>)
    ensures |r| == |expired|
  {
    seq(|expired|, k requires 0 <= k < |expired| => Review(expired[k].proposalId, ExpireReview, now))
  }

  /** `rows` is the order in which the store happens to list its rows. */
  predicate Lists(rows: seq<ProposalId>, proposals: map<ProposalId, TradeProposal>) {
    && (forall i :: 0 <= i < |rows| ==> rows[i] in proposals)
    && (forall id :: id in proposals ==> id in rows)
    && (forall i, j :: 0 <= i < j < |rows| ==> rows[i] != rows[j])
  }

  function Expiring(st: LifecycleState, now: int, rows: seq<ProposalId>): (LifecycleState, seq<TradeProposal>) {
    var expired := StaleRows(st.proposals, rows, now);
    (LifecycleState(
       map id | id in st.proposals ::
         if Stale(st.proposals[id], now) then Cancel(st.proposals[id], now) else st.proposals[id],
       st.reviews + ExpireReviews(expired, now),
       st.saves + expired,
       st.nextId),
     expired)
  }

  /** The rows of `done` expired, the others as they were. */
  function ExpiredAmong(proposals: map<ProposalId, TradeProposal>, done: seq<ProposalId>,
                        now: int): map<ProposalId, TradeProposal> {
    map id | id in proposals ::
      if id in done && Stale(proposals[id], now) then Cancel(proposals[id], now) else proposals[id]
  }

  /** The state after the rows of `done` have been dealt with. */
  function PartlyExpired(st: LifecycleState, done: seq<ProposalId>, now: int): LifecycleState {
    var expired := StaleRows(st.proposals, done, now);
    LifecycleState(ExpiredAmong(st.proposals, done, now), st.reviews + ExpireReviews(expired, now), st.saves + expired,
                   st.nextId)
  }

  lemma {:induction false} StaleRowsAppend(proposals: map<ProposalId, TradeProposal>, rows: seq<ProposalId>,
                                           id: ProposalId, now: int)
    requires id in proposals
    ensures StaleRows(proposals, rows + [id], now)
         == StaleRows(proposals, rows, now) + if Stale(proposals[id], now) then [Cancel(proposals[id], now)] else []
  {
    if rows == [] {
      assert rows + [id] == [id];
      assert [id][1..] == [];
    } else {
      assert (rows + [id])[1..] == rows[1..] + [id];
      StaleRowsAppend(proposals, rows[1..], id, now);
    }
  }

  lemma ExpiryStep(st: LifecycleState, rows: seq<ProposalId>, i: nat, now: int)
    requires Lists(rows, st.proposals) && i < |rows|
    requires forall id :: id in st.proposals ==> st.proposals[id].proposalId == id
    ensures var p := st.proposals[rows[i]]; var done := PartlyExpired(st, rows[..i], now);
      var expired := StaleRows(st.proposals, rows[..i], now);
      && (Stale(p, now) ==>
            && PartlyExpired(st, rows[..i + 1], now) == Saved(done, Cancel(p, now), ExpireReview, now)
            && StaleRows(st.proposals, rows[..i + 1], now) == expired + [Cancel(p, now)])
      && (!Stale(p, now) ==>
            PartlyExpired(st, rows[..i + 1], now) == done && StaleRows(st.proposals, rows[..i + 1], now) == expired)
  {
    var p := st.proposals[rows[i]];
    assert rows[..i + 1] == rows[..i] + [rows[i]];
    StaleRowsAppend(st.proposals, rows[..i], rows[i], now);
    var expired := StaleRows(st.proposals, rows[..i], now);
    if Stale(p, now) {
      assert ExpireReviews(expired + [Cancel(p, now)], now)
          == ExpireReviews(expired, now) + [Review(p.proposalId, ExpireReview, now)];
      assert ExpiredAmong(st.proposals, rows[..i + 1], now)
          == ExpiredAmong(st.proposals, rows[..i], now)[p.proposalId := Cancel(p, now)];
    } else {
      assert ExpiredAmong(st.proposals, rows[..i + 1], now) == ExpiredAmong(st.proposals, rows[..i], now);
    }
  }

  lemma FullyExpired(st: LifecycleState, rows: seq<ProposalId>, now: int)
    requires Lists(rows, st.proposals)
    ensures rows[..|rows|] == rows && PartlyExpired(st, rows, now) == Expiring(st, now, rows).0
  {
    assert ExpiredAmong(st.proposals, rows, now) == Expiring(st, now, rows).0.proposals;
  }

  lemma NothingExpired(st: LifecycleState, now: int)
    ensures PartlyExpired(st, [], now) == st
  {
    assert ExpiredAmong(st.proposals, [], now) == st.proposals;
  }

  type Outcome = Result<TradeProposal, LifecycleError>

  function EditingSize(st: LifecycleState, id: ProposalId, amount: real, now: int): (LifecycleState, Outcome) {
    if id !in st.proposals then (st, Err(UnknownProposal))
    else
      var p := st.proposals[id];
      if p.status != PendingManualConfirmation then (st, Err(NotEditable))
      else if amount <= 0.0 || amount > Dollars(p.maxAllowedSize) then (st, Err(EditedSizeOutOfRange))
      else
        var edited := p.(currentSize := ToCents(amount), updatedAt := now);
        (Saved(st, edited, EditSizeReview(edited.currentSize), now), Ok(edited))
  }

  function EditingPrice(st: LifecycleState, id: ProposalId, price: real, now: int): (LifecycleState, Outcome) {
    if id !in st.proposals then (st, Err(UnknownProposal))
    else
      var p := st.proposals[id];
      if p.status != PendingManualConfirmation then (st, Err(NotEditable))
      else if !(0.0 < price <= 1.0) then (st, Err(EditedPriceOutOfRange))
      else
        var edited := p.(currentLimit := ToTicks(price), updatedAt := now);
        (Saved(st, edited, EditPriceReview(edited.currentLimit), now), Ok(edited))
  }

  function Rejecting(st: LifecycleState, id: ProposalId, now: int): (LifecycleState, Outcome) {
    if id !in st.proposals then (st, Err(UnknownProposal))
    else if st.proposals[id].status != PendingManualConfirmation then (st, Err(NotRejectable))
    else
      var rejected := Cancel(st.proposals[id], now);
      (Saved(st, rejected, RejectReview, now), Ok(rejected))
  }

  function Cancelling(st: LifecycleState, id: ProposalId, now: int): (LifecycleState, Outcome) {
    if id !in st.proposals then (st, Err(UnknownProposal))
    else if st.proposals[id].status !in {PendingManualConfirmation, Approved} then (st, Err(NotCancellable))
    else
      var cancelled := Cancel(st.proposals[id], now);
      (Saved(st, cancelled, CancelReview(st.proposals[id].status), now), Ok(cancelled))
  }

  function Analysing(st: LifecycleState, id: ProposalId, now: int): (LifecycleState, Outcome) {
    if id !in st.proposals then (st, Err(UnknownProposal))
    else (Logged(st, id, AnalysisReview, now), Ok(st.proposals[id]))
  }

  function Resolved(p: TradeProposal, source: SnapshotSource): Result<Snapshot, LifecycleError> {
    match source
    case ProviderFailed => Err(SnapshotUnavailable)
    case Provided(snapshot) => Ok(snapshot)
    case FromCaller(market, probability, age) =>
      if market.None? || probability.None? then Err(ContextMissing)
      else Ok(Snapshot(market.value, probability.value, p.currentLimit as real / 10000.0, if age.Some? then age.value
        else 0))
  }

  function ApprovalContext(s: Settings, p: TradeProposal, e: Exposure, snapshot: Snapshot, now: int): Context {
    Context(snapshot.market, snapshot.probability, snapshot.currentPrice, e.openPositions, e.unresolved, e.theme,
            s.orderType, snapshot.dataAgeSeconds, now, snapshot.probability.fairProbability - snapshot.currentPrice,
            p.currentSize)
  }

  function Revalidated(p: TradeProposal, snapshot: Snapshot, reasons: seq<Reason>, now: int): TradeProposal {
    p.(marketPrice := snapshot.currentPrice, probability := snapshot.probability,
       status := if reasons == [] then Approved else PolicyRejected, updatedAt := now, policyReasons := reasons)
  }

  function Revalidating(st: LifecycleState, s: Settings, p: TradeProposal, e: Exposure, snapshot: Snapshot, now: int)
    : (LifecycleState, Outcome)
  {
    var reasons := Reasons(s, ApprovalContext(s, p, e, snapshot, now));
    var q := Revalidated(p, snapshot, reasons, now);
    if reasons != [] then
      (Saved(st, q, RevalidateRejectReview(snapshot.dataAgeSeconds, reasons), now), Err(RevalidationFailed))
    else
      (Saved(st, q, ApproveReview(snapshot.dataAgeSeconds, q.currentSize, q.currentLimit), now), Ok(q))
  }

  function Approving(st: LifecycleState, s: Settings, id: ProposalId, e: Exposure, source: SnapshotSource, now: int)
    : (LifecycleState, Outcome)
  {
    if id !in st.proposals then (st, Err(UnknownProposal))
    else
      var p := st.proposals[id];
      if p.status != PendingManualConfirmation then (st, Err(NotApprovable))
      else if p.expiresAt <= now then (Saved(st, Cancel(p, now), ExpireReview, now), Err(ApprovalTtlExpired))
      else
        match Resolved(p, source)
        case Err(error) =>
          (if source == ProviderFailed then Logged(st, id, SnapshotErrorReview, now) else st, Err(error))
        case Ok(snapshot) => Revalidating(st, s, p, e, snapshot, now)
  }

  // ---- The service ------------------------------------------------------------------------------------------------

  class ProposalLifecycleService {
    var proposals: map<ProposalId, TradeProposal>
    var reviews: seq<Review>
    var nextId: ProposalId
    ghost var saves: seq<TradeProposal>

    ghost function State(): LifecycleState
      reads this
    {
      LifecycleState(proposals, reviews, saves, nextId)
    }

    constructor ()
      ensures State() == EMPTY
    {
      proposals, reviews, nextId, saves := map[], [], 0, [];
    }

    /** Writes a row and appends the review of the step that produced it. */
    method SaveAndReview(p: TradeProposal, action: ReviewAction, at: int)
      modifies this
      ensures State() == Saved(old(State()), p, action, at)
    {
      proposals := proposals[p.proposalId := p];
      saves := saves + [p];
      RecordReview(p.proposalId, action, at);
    }

    method RecordReview(id: ProposalId, action: ReviewAction, at: int)
      modifies this`reviews
      ensures State() == Logged(old(State()), id, action, at)
    {
      reviews := reviews + [Review(id, action, at)];
    }

    method Create(s: Settings, c: Context) returns (p: TradeProposal)
      modifies this
      ensures State() == Creating(old(State()), s, c).0 && p == Creating(old(State()), s, c).1
    {
      var sizing := Sizing.Size(s, SizingInput(c.probability.confidence, c.edge, c.themeExposure, c.unresolvedExposure,
                                               c.market.liquidityUsd));
      var reasons := Policies.EvaluateAll(s, c.(proposedSize := sizing.recommended));
      var status := if reasons == [] then PendingManualConfirmation else PolicyRejected;
      p := TradeProposal(nextId, c.market.marketId, if c.edge > 0.0 then Yes else No, c.edge, c.currentPrice,
                         c.probability, sizing.recommended, ToTicks(c.currentPrice),
                         sizing.recommended, sizing.maxAllowed,
                         ToTicks(c.currentPrice), status, c.now, c.now, c.now + 60 * s.proposalTtlMinutes, reasons);
      nextId := nextId + 1;
      SaveAndReview(p, CreateReview(p.status), p.createdAt);
    }

    /** The loop reads the rows listed before it started and rewrites the stale ones one by one. */
    method ExpireStale(now: int, rows: seq<ProposalId>) returns (expired: seq<TradeProposal>)
      requires Lists(rows, proposals)
      requires forall id :: id in proposals ==> proposals[id].proposalId == id
      modifies this
      ensures State() == Expiring(old(State()), now, rows).0 && expired == Expiring(old(State()), now, rows).1
    {
      var listed := proposals;
      ghost var before := State();
      expired := [];
      var i := 0;
      NothingExpired(before, now);
      while i < |rows|
        invariant 0 <= i <= |rows|
        invariant expired == StaleRows(listed, rows[..i], now)
        invariant State() == PartlyExpired(before, rows[..i], now)
      {
        ExpiryStep(before, rows, i, now);
        var p := listed[rows[i]];
        if p.status == PendingManualConfirmation && p.expiresAt <= now {
          var cancelled := p.(status := Cancelled, updatedAt := now);
          SaveAndReview(cancelled, ExpireReview, now);
          expired := expired + [cancelled];
        }
        i := i + 1;
      }
      FullyExpired(before, rows, now);
    }

    method EditSize(id: ProposalId, amount: real, now: int) returns (r: Outcome)
      requires forall id :: id in proposals ==> proposals[id].proposalId == id
      modifies this
      ensures State() == EditingSize(old(State()), id, amount, now).0
        && r == EditingSize(old(State()), id, amount, now).1
    {
      if id !in proposals { return Err(UnknownProposal); }
      var p := proposals[id];
      if p.status != PendingManualConfirmation { return Err(NotEditable); }
      if amount <= 0.0 || amount > Dollars(p.maxAllowedSize) { return Err(EditedSizeOutOfRange); }
      var updated := p.(currentSize := ToCents(amount), updatedAt := now);
      SaveAndReview(updated, EditSizeReview(updated.currentSize), now);
      r := Ok(updated);
    }

    method EditPrice(id: ProposalId, price: real, now: int) returns (r: Outcome)
      requires forall id :: id in proposals ==> proposals[id].proposalId == id
      modifies this
      ensures State() == EditingPrice(old(State()), id, price, now).0
        && r == EditingPrice(old(State()), id, price, now).1
    {
      if id !in proposals { return Err(UnknownProposal); }
      var p := proposals[id];
      if p.status != PendingManualConfirmation { return Err(NotEditable); }
      if !(0.0 < price <= 1.0) { return Err(EditedPriceOutOfRange); }
      var updated := p.(currentLimit := ToTicks(price), updatedAt := now);
      SaveAndReview(updated, EditPriceReview(updated.currentLimit), now);
      r := Ok(updated);
    }

    method Reject(id: ProposalId, now: int) returns (r: Outcome)
      requires forall id :: id in proposals ==> proposals[id].proposalId == id
      modifies this
      ensures State() == Rejecting(old(State()), id, now).0 && r == Rejecting(old(State()), id, now).1
    {
      if id !in proposals { return Err(UnknownProposal); }
      if proposals[id].status != PendingManualConfirmation { return Err(NotRejectable); }
      var updated := proposals[id].(status := Cancelled, updatedAt := now);
      SaveAndReview(updated, RejectReview, now);
      r := Ok(updated);
    }

    method CancelProposal(id: ProposalId, now: int) returns (r: Outcome)
      requires forall id :: id in proposals ==> proposals[id].proposalId == id
      modifies this
      ensures State() == Cancelling(old(State()), id, now).0 && r == Cancelling(old(State()), id, now).1
    {
      if id !in proposals { return Err(UnknownProposal); }
      var p := proposals[id];
      if !(p.status == PendingManualConfirmation || p.status == Approved) { return Err(NotCancellable); }
      var updated := p.(status := Cancelled, updatedAt := now);
      SaveAndReview(updated, CancelReview(p.status), now);
      r := Ok(updated);
    }

    method RequestAnalysis(id: ProposalId, now: int) returns (r: Outcome)
      modifies this
      ensures State() == Analysing(old(State()), id, now).0 && r == Analysing(old(State()), id, now).1
    {
      if id !in proposals { return Err(UnknownProposal); }
      RecordReview(id, AnalysisReview, now);
      r := Ok(proposals[id]);
    }

    method Approve(s: Settings, id: ProposalId, e: Exposure, source: SnapshotSource, now: int) returns (r: Outcome)
      requires forall id :: id in proposals ==> proposals[id].proposalId == id
      modifies this
      ensures State() == Approving(old(State()), s, id, e, source, now).0
      ensures r == Approving(old(State()), s, id, e, source, now).1
    {
      if id !in proposals { return Err(UnknownProposal); }
      var p := proposals[id];
      if p.status != PendingManualConfirmation { return Err(NotApprovable); }
      if p.expiresAt <= now {
        var expired := p.(status := Cancelled, updatedAt := now);
        SaveAndReview(expired, ExpireReview, now);
        return Err(ApprovalTtlExpired);
      }
      var resolved := ResolveSnapshot(p, source, now);
      if resolved.Err? { return Err(resolved.error); }
      var snapshot := resolved.value;
      r := Revalidate(s, p, e, snapshot, now);
    }

    /** The second half of `approve`: the composite policy decides on the fresh data. */
    method Revalidate(s: Settings, p: TradeProposal, e: Exposure, snapshot: Snapshot, now: int) returns (r: Outcome)
      modifies this
      ensures (State(), r) == Revalidating(old(State()), s, p, e, snapshot, now)
    {
      var edge := snapshot.probability.fairProbability - snapshot.currentPrice;
      var context := Context(snapshot.market, snapshot.probability, snapshot.currentPrice, e.openPositions,
          e.unresolved,
                             e.theme, s.orderType, snapshot.dataAgeSeconds, now, edge, p.currentSize);
      assert context == ApprovalContext(s, p, e, snapshot, now);
      var reasons := Policies.EvaluateAll(s, context);
      if reasons != [] {
        var rejected := p.(marketPrice := snapshot.currentPrice, probability := snapshot.probability,
                           status := PolicyRejected, updatedAt := now, policyReasons := reasons);
        SaveAndReview(rejected, RevalidateRejectReview(snapshot.dataAgeSeconds, reasons), now);
        return Err(RevalidationFailed);
      }
      var approved := p.(marketPrice := snapshot.currentPrice, probability := snapshot.probability, status := Approved,
                         updatedAt := now, policyReasons := reasons);
      SaveAndReview(approved, ApproveReview(snapshot.dataAgeSeconds, approved.currentSize, approved.currentLimit), now);
      r := Ok(approved);
    }

    /** A provider failure is logged; a missing context is not. */
    method ResolveSnapshot(p: TradeProposal, source: SnapshotSource,
                           now: int) returns (r: Result<Snapshot, LifecycleError>)
      modifies this`reviews
      ensures r == Resolved(p, source)
      ensures State() == if source == ProviderFailed then Logged(old(State()), p.proposalId, SnapshotErrorReview, now)
                         else old(State())
    {
      match source {
        case ProviderFailed =>
          RecordReview(p.proposalId, SnapshotErrorReview, now);
          r := Err(SnapshotUnavailable);
        case Provided(snapshot) =>
          r := Ok(snapshot);
        case FromCaller(market, probability, age) =>
          if market.None? || probability.None? {
            r := Err(ContextMissing);
          } else {
            var price := p.currentLimit as real / 10000.0;
            r := Ok(Snapshot(market.value, probability.value, price, if age.Some? then age.value else 0));
          }
      }
    }
  }
}
