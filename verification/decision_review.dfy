/** Judging a decision afterwards (`bot/services/decision_review.py`): how confidence and probability moved since the
    previous snapshot and how the paper execution did. Deltas are in units of 0.0001, the grid they are rounded to. */
module DecisionReview {
  import opened Common
  import opened Domain
  import opened PaperTrading

  datatype Drift = NoHistory | Drift(fairDelta: int, confidenceDelta: int)

  datatype ConfidenceOutcome = ConfidenceHeld | ConfidenceDegraded | ConfidenceInsufficientHistory

  datatype ProbabilityOutcome = MovedInFavor | MovedAgainst | ProbabilityInsufficientHistory

  datatype ExecutionOutcome = Favorable | Unfavorable | NotSimulated

  datatype Review = Review(
    proposalId: Option<string>,
    marketId: string,
    drift: Drift,
    confidence: ConfidenceOutcome,
    probability: ProbabilityOutcome,
    execution: ExecutionOutcome,
    createdAt: int)

  function JudgeConfidence(drift: Drift): ConfidenceOutcome {
    match drift
    case NoHistory => ConfidenceInsufficientHistory
    case Drift(_, delta) => if delta < 0 then ConfidenceDegraded else ConfidenceHeld
  }

  function JudgeProbability(side: Option<Side>, drift: Drift): ProbabilityOutcome {
    if side.None? || drift.NoHistory? then ProbabilityInsufficientHistory
    else if (if side.value == Yes then drift.fairDelta >= 0 else drift.fairDelta <= 0) then MovedInFavor
    else MovedAgainst
  }

  function JudgeExecutionPrice(side: Option<Side>, execution: Option<SimulationResult>): ExecutionOutcome {
    if side.None? || execution.None? || execution.value.simulatedPrice.None? then NotSimulated
    else
      var price, reference := execution.value.simulatedPrice.value, execution.value.reference;
      if !execution.value.accepted then Unfavorable
      else if (if side.value == Yes then price <= reference else price >= reference) then Favorable
      else Unfavorable
  }

  function MakeReview(marketId: string, proposal: Option<(string, Side)>, drift: Drift,
                      execution: Option<SimulationResult>, now: int): Review
  {
    var side := if proposal.Some? then Some(proposal.value.1) else None;
    Review(if proposal.Some? then Some(proposal.value.0) else None, marketId, drift, JudgeConfidence(drift),
           JudgeProbability(side, drift), JudgeExecutionPrice(side, execution), now)
  }

  /** Stored reviews are those the service made of a market, a proposal with its side, a drift and an execution. */
  ghost predicate Made(r: Review) {
    exists marketId, proposal, drift, execution, now :: r == MakeReview(marketId, proposal, drift, execution, now)
  }

  /** The one price that binary floating point decides differently from exact decimals: a buyer's expired order with a
      reference of 0.0625, where the slippage is exactly half a tick and the neighbouring ticks differ in parity. */
  predicate BinaryTie(request: OrderRequest) {
    request.side == Yes && Reference(request) == 625 && Plan(request).slippageBps == 8
  }

  /** The paper exchange never fills better than its reference, so a fill is judged favorable exactly when its slippage
      rounds to nothing: when it is below half a tick, or half a tick from an even one, or when a buyer already pays the
      highest price there is. */
  lemma FavorableIff(request: OrderRequest, now: int, start: int)
    requires Acceptable(request) && 0 <= Reference(request) <= TICKS_PER_UNIT && !BinaryTie(request)
    ensures var outcome := JudgeExecutionPrice(Some(request.side), Some(Simulation(request, now, start)));
      var slippage := Reference(request) * Plan(request).slippageBps;
      && (outcome == NotSimulated <==> Simulation(request, now, start).fragments == [])
      && (outcome == Favorable <==>
            && outcome != NotSimulated
            && (slippage < 5000 || (slippage == 5000 && Reference(request) % 2 == 0)
                || (request.side == Yes && Reference(request) == TICKS_PER_UNIT)))
  {
    var ref, bps := Reference(request), Plan(request).slippageBps;
    SimulatedPriceIsFragmentPrice(request, now, start);
    SimulatedPriceBounds(request, now, start);
    ProductNonNegative(ref, bps);
    ShiftRoundsAway(ref, ref * bps);
    ShiftRoundsAway(ref, -(ref * bps));
  }

  lemma ShiftRoundsAway(base: int, shift: int)
    requires 0 <= base <= TICKS_PER_UNIT
    requires base == 0 ==> shift == 0
    ensures ShiftedPrice(base, shift) == base <==>
      -5000 < shift < 5000 || ((shift == 5000 || shift == -5000) && base % 2 == 0)
        || (shift >= 0 && base == TICKS_PER_UNIT)
  {
    var exact := base as real + shift as real / 10000.0;
    RoundWithinHalf(exact);
    if shift == -5000 { assert exact.Floor == base - 1; }
    if shift == 5000 { assert exact.Floor == base; }
  }

  /** What the judgements of a made review say of the drift and the execution it was made of. */
  lemma JudgementsOf(marketId: string, proposal: Option<(string, Side)>, drift: Drift,
                     execution: Option<SimulationResult>, now: int)
    ensures var r := MakeReview(marketId, proposal, drift, execution, now);
      && (r.confidence == ConfidenceHeld <==> drift.Drift? && drift.confidenceDelta >= 0)
      && (r.confidence == ConfidenceDegraded <==> drift.Drift? && drift.confidenceDelta < 0)
      && (r.probability == MovedInFavor <==>
            && drift.Drift? && proposal.Some?
            && if proposal.value.1 == Yes then drift.fairDelta >= 0 else drift.fairDelta <= 0)
      && (r.probability == MovedAgainst <==>
            && drift.Drift? && proposal.Some?
            && if proposal.value.1 == Yes then drift.fairDelta < 0 else drift.fairDelta > 0)
      && (r.execution == NotSimulated <==>
            proposal.None? || execution.None? || execution.value.simulatedPrice.None?)
      && (r.execution == Favorable <==>
            && proposal.Some? && execution.Some? && execution.value.simulatedPrice.Some? && execution.value.accepted
            && (if proposal.value.1 == Yes then execution.value.simulatedPrice.value <= execution.value.reference
                else execution.value.reference <= execution.value.simulatedPrice.value))
      && r.drift == drift && r.marketId == marketId && r.createdAt == now
      && r.proposalId == (if proposal.Some? then Some(proposal.value.0) else None)
  {
  }
}
