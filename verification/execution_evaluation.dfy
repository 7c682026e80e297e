/** Judging a paper execution against what the order intended (`bot/services/execution_evaluation.py`). */
module ExecutionEvaluation {
  import opened Common
  import opened Domain
  import opened PaperTrading

  datatype Verdict =
    | Expired
    | Cancelled
    | PartiallyFilled
    | BetterThanExpected
    | WorseThanExpected
    | WithinExpectedRange

  /** Ratios are counted in units of 0.0001, like prices. */
  const FULL: int := 10000

  function ExpectedLatencyMs(size: int): int {
    if size <= 5000 then 250 else if size <= 10000 then 600 else 900
  }

  function JudgeExecution(status: IntentStatus, fillRatio: int, priceDelta: Option<int>,
                          latencyDelta: Option<int>): Verdict {
    if status == SimulatedExpired then Expired
    else if status == SimulatedCancelled then Verdict.Cancelled
    else if status == SimulatedPartiallyFilled || fillRatio < FULL then Verdict.PartiallyFilled
    else if priceDelta.Some? && priceDelta.value < -20 && (latencyDelta.None? || latencyDelta.value <= 0) then
      BetterThanExpected
    else if priceDelta.Some? && priceDelta.value > 50 then WorseThanExpected
    else if latencyDelta.Some? && latencyDelta.value > 250 then WorseThanExpected
    else WithinExpectedRange
  }

  datatype Evaluation = Evaluation(
    verdict: Verdict,
    fillRatio: int,
    priceDelta: Option<int>,
    expectedLatencyMs: int,
    latencyDelta: Option<int>)

  function FillRatio(filled: int, expected: int): int {
    if expected <= 0 then 0 else Round(filled as real / expected as real * 10000.0)
  }

  /** What `_persist_evaluation` computes and stores for one execution of an order of the given limit and size. */
  function Evaluate(execution: SimulationResult, limit: int, size: int): Evaluation {
    var priceDelta := if execution.simulatedPrice.None? then None else Some(execution.simulatedPrice.value - limit);
    var expected := ExpectedLatencyMs(size);
    var latencyDelta := if execution.latencyMs.None? then None else Some(execution.latencyMs.value - expected);
    var ratio := FillRatio(execution.filled, size);
    Evaluation(JudgeExecution(execution.stage, ratio, priceDelta, latencyDelta), ratio, priceDelta, expected,
        latencyDelta)
  }

  function SimulateThenEvaluate(request: OrderRequest, now: int, start: int): Verdict {
    Evaluate(Simulation(request, now, start), request.limit, request.size).verdict
  }

  lemma FullRatio(size: int)
    requires size > 0
    ensures FillRatio(size, size) == FULL
  {
    assert size as real / size as real == 1.0;
    RoundFixesGrid(FULL);
  }

  /** The last latency of an accepted full fill: one base latency for a single fragment, two when it was split. */
  lemma FullFillLatency(request: OrderRequest, now: int, start: int)
    requires Acceptable(request) && Plan(request).stage == SimulatedFilled
    ensures var result := Simulation(request, now, start);
      && result.stage == SimulatedFilled && result.filled == request.size && result.fragments != []
      && result.latencyMs == Some(if request.size <= 5000 then BaseLatency(request) else 2 * BaseLatency(request))
  {
    FilledShare(request, now, start);
    var plan := Plan(request);
    var price := FillPrice(Reference(request), request.side, plan.slippageBps);
    if request.size <= 5000 {
      OneFragment(request.size, price, BaseLatency(request), start);
    } else {
      LargeSplitIsPositive(request.size);
      TwoFragments(plan.sizes[0], plan.sizes[1], price, BaseLatency(request), start);
      assert plan.sizes == [plan.sizes[0], plan.sizes[1]];
    }
  }

  lemma OneFragment(size: int, price: int, latency: int, start: int)
    requires size > 0
    ensures var r := Fragments([size], 1, size, price, latency, start);
      |r| == 1 && r[0].latencyMs == latency
  {
  }

  lemma TwoFragments(first: int, second: int, price: int, latency: int, start: int)
    requires first > 0 && second > 0
    ensures var r := Fragments([first, second], 1, first + second, price, latency, start);
      |r| == 2 && r[1].latencyMs == 2 * latency
  {
    assert [first, second][1..] == [second];
  }

  lemma LargeSplitIsPositive(size: int)
    requires size > 5000
    ensures 0 < Share(size, 60) < size
  {
    RoundWithinHalf((size * 60) as real / 100.0);
  }

  /** No accepted order is ever judged partially filled: that verdict is given to rejected orders and to no others. */
  lemma PartiallyFilledMeansRejected(request: OrderRequest, now: int, start: int)
    ensures SimulateThenEvaluate(request, now, start) == Verdict.PartiallyFilled <==> !Acceptable(request)
  {
    if !Acceptable(request) {
      NothingFilledRatio(request.size);
    } else if Plan(request).stage == SimulatedFilled {
      FullFillLatency(request, now, start);
      FullRatio(request.size);
    }
  }

  lemma NothingFilledRatio(size: int)
    ensures FillRatio(0, size) < FULL
  {
    if size > 0 {
      assert 0 as real / size as real == 0.0;
      RoundFixesGrid(0);
    }
  }

  /** With quotes and latency left to their defaults, the price of a full fill moves from the limit by less than the
      worse-than-expected threshold, and by more than the better-than-expected one exactly for a no-side order whose
      limit exceeds 20 ticks. */
  lemma DefaultPriceDelta(request: OrderRequest)
    requires Acceptable(request) && request.bestBid.None? && request.bestAsk.None?
    requires Plan(request).stage == SimulatedFilled
    ensures var delta := FillPrice(Reference(request), request.side, Plan(request).slippageBps) - request.limit;
      delta <= 50 && (delta < -20 <==> request.side == No && request.limit > 20)
  {
    var ref, bps := Reference(request), Plan(request).slippageBps;
    assert 0 <= ref <= TICKS_PER_UNIT;
    FillPriceBounds(ref, request.side, bps);
    assert bps == 4 || bps == 6;
    assert ref * bps <= 60000;
    if request.side == No && request.limit <= 50 {
      assert ref == 0;
      assert FillPrice(0, No, bps) == 0 by { FillPriceBounds(0, No, bps); }
    }
  }

  /** End to end, over three files: simulating and then evaluating an order with no overrides expires above 100
      dollars; up to 100 it is within the expected range, except that a no-side order with a limit above 0.0020 is
      better than expected. */
  lemma DefaultVerdict(request: OrderRequest, now: int, start: int)
    requires Acceptable(request)
    requires request.bestBid.None? && request.bestAsk.None? && request.ttlMs.None? && request.cancelAfterMs.None?
    requires request.baseLatencyMs.None?
    ensures SimulateThenEvaluate(request, now, start) ==
      if request.size > 10000 then Expired
      else if request.side == No && request.limit > 20 then BetterThanExpected
      else WithinExpectedRange
  {
    if request.size <= 10000 {
      FullFillLatency(request, now, start);
      SimulatedPriceIsFragmentPrice(request, now, start);
      DefaultPriceDelta(request);
      FullRatio(request.size);
    }
  }

  /** With any quotes and any base latency, a full fill is worse than expected exactly when its price is more than half
      a cent above the limit or its last fragment is more than a quarter of a second over the size's allowance. */
  lemma SlowOrDearIsWorse(request: OrderRequest, now: int, start: int)
    requires Acceptable(request) && Plan(request).stage == SimulatedFilled
    ensures var delta := FillPrice(Reference(request), request.side, Plan(request).slippageBps) - request.limit;
      var base := BaseLatency(request);
      SimulateThenEvaluate(request, now, start) == WorseThanExpected <==>
      (delta > 50 || (if request.size <= 5000 then base > 500 else base > 425))
  {
    FullFillLatency(request, now, start);
    SimulatedPriceIsFragmentPrice(request, now, start);
    FullRatio(request.size);
  }

  /** The verdict on every accepted order, from its own fields and the price it was filled at: a requested cancellation
      is judged cancelled, an order with a time to live or above 100 dollars expired; any other fills, and is better
      than expected below the limit by more than 20 ticks without delay, worse above it by more than 50 or more than a
      quarter of a second late, and within range otherwise. */
  lemma VerdictOfEachOrder(request: OrderRequest, now: int, start: int)
    requires Acceptable(request)
    ensures var verdict := SimulateThenEvaluate(request, now, start);
      var price := Simulation(request, now, start).simulatedPrice;
      var base :=
        if request.baseLatencyMs.Some? && request.baseLatencyMs.value != 0 then request.baseLatencyMs.value else 250;
      if request.cancelAfterMs.Some? then verdict == Verdict.Cancelled
      else if request.ttlMs.Some? || request.size > 10000 then verdict == Expired
      else
        && price.Some?
        && var delta := price.value - request.limit;
        var late := if request.size <= 5000 then base - 250 else 2 * base - 600;
        && (verdict == BetterThanExpected <==> delta < -20 && late <= 0)
        && (verdict == WorseThanExpected <==> delta > 50 || late > 250)
        && (verdict == WithinExpectedRange <==> verdict != BetterThanExpected && verdict != WorseThanExpected)
  {
    if request.cancelAfterMs.None? && request.ttlMs.None? && request.size <= 10000 {
      FullFillLatency(request, now, start);
      SimulatedPriceIsFragmentPrice(request, now, start);
      FullRatio(request.size);
    }
  }
}
