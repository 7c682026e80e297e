/** The paper execution adapter of `bot/adapters/polymarket/trading.py`: an order is split into fill fragments,
    each priced with slippage, and the fragments are averaged into one simulated price.

    Money is counted in cents and prices in ticks of 0.0001. Both are exact: sizes and limits reach the adapter
    already rounded to these grids by the proposal services. */
module PaperTrading {
  import opened Common
  import opened Domain

  const TICKS_PER_UNIT: int := 10000

  datatype OrderRequest = OrderRequest(
    side: Side,
    size: int,
    limit: int,
    bestBid: Option<int>,
    bestAsk: Option<int>,
    ttlMs: Option<int>,
    cancelAfterMs: Option<int>,
    baseLatencyMs: Option<int>)

  datatype Fragment = Fragment(index: nat, price: int, size: int, remaining: int, latencyMs: int, timestamp: int)

  datatype CompletionReason =
    | InvalidOrderParameters
    | OperatorCancelled
    | TtlExpired
    | FullyFilled
    | CompletedAfterPartialFill

  /** `slippage` is in hundredths of a basis point, the grid of `round(..., 2)`. */
  datatype SimulationResult = SimulationResult(
    stage: IntentStatus,
    accepted: bool,
    reference: int,
    bestBid: Option<int>,
    bestAsk: Option<int>,
    simulatedPrice: Option<int>,
    slippage: Option<int>,
    filled: int,
    fillTimestamp: Option<int>,
    latencyMs: Option<int>,
    reason: CompletionReason,
    fragments: seq<Fragment>)

  // ---- Specification ----------------------------------------------------------------------------------------------

  predicate Acceptable(request: OrderRequest) {
    request.size > 0 && 0 < request.limit <= TICKS_PER_UNIT
  }

  function BestBid(request: OrderRequest): int {
    match request.bestBid
    case Some(bid) => bid
    case None => MaxInt(0, request.limit - 50)
  }

  function BestAsk(request: OrderRequest): int {
    match request.bestAsk
    case Some(ask) => ask
    case None => request.limit
  }

  /** The side of the book an order trades against. */
  function Reference(request: OrderRequest): int {
    if request.side == Yes then BestAsk(request) else BestBid(request)
  }

  /** An absent or zero base latency falls back to 250 ms. */
  function BaseLatency(request: OrderRequest): int {
    match request.baseLatencyMs
    case Some(ms) => if ms == 0 then 250 else ms
    case None => 250
  }

  /** What a branch of the simulation decides: how the order ends, its slippage and the sizes it tries to fill. */
  datatype FillPlan = FillPlan(stage: IntentStatus, reason: CompletionReason, slippageBps: int, sizes: seq<int>)

  function Share(size: int, percent: int): int { Round((size * percent) as real / 100.0) }

  function Plan(request: OrderRequest): FillPlan {
    var size := request.size;
    if request.cancelAfterMs.Some? then
      FillPlan(SimulatedCancelled, OperatorCancelled, 6, [Share(size, 25)])
    else if request.ttlMs.Some? || size > 10000 then
      FillPlan(SimulatedExpired, TtlExpired, 8, [Share(size, 40)])
    else if size <= 5000 then
      FillPlan(SimulatedFilled, FullyFilled, 4, [size])
    else
      FillPlan(SimulatedFilled, CompletedAfterPartialFill, 6, [Share(size, 60), size - Share(size, 60)])
  }

  /** A price `shift` ten-thousandths of a tick away from the base, rounded to a tick and clamped to [0, 1]. */
  function ShiftedPrice(base: int, shift: int): int {
    MinInt(TICKS_PER_UNIT, MaxInt(0, Round(base as real + shift as real / 10000.0)))
  }

  function FillPrice(reference: int, side: Side, slippageBps: int): int {
    ShiftedPrice(reference, (if side == Yes then 1 else -1) * (reference * slippageBps))
  }

  /** Sizes that are not positive are skipped but keep their position, which fixes the latency of the others. */
  function Fragments(sizes: seq<int>, index: nat, remaining: int, price: int, latency: int,
                     start: int): (r: seq<Fragment>)
    ensures |r| <= |sizes|
    ensures forall k :: 0 <= k < |r| ==> r[k].price == price && r[k].size > 0
  {
    if sizes == [] then []
    else if sizes[0] <= 0 then Fragments(sizes[1..], index + 1, remaining, price, latency, start)
    else
      var left := MaxInt(0, remaining - sizes[0]);
      [Fragment(index, price, sizes[0], left, latency * index, start + latency * index)]
      + Fragments(sizes[1..], index + 1, left, price, latency, start)
  }

  function FragmentSizes(fragments: seq<Fragment>): (r: seq<int>)
    ensures |r| == |fragments|
  {
    seq(|fragments|, k requires 0 <= k < |fragments| => fragments[k].size)
  }

  function TotalFilled(fragments: seq<Fragment>): int { Sum(FragmentSizes(fragments)) }

  /** The numerator of the volume-weighted price. */
  function Turnover(fragments: seq<Fragment>): int {
    if fragments == [] then 0
    else fragments[0].price * fragments[0].size + Turnover(fragments[1..])
  }

  function VolumeWeightedPrice(fragments: seq<Fragment>): Option<int>
    requires forall k :: 0 <= k < |fragments| ==> fragments[k].size > 0
  {
    if fragments == [] then None
    else
      FilledPositive(fragments);
      Some(Round(Turnover(fragments) as real / TotalFilled(fragments) as real))
  }

  function Slippage(simulated: Option<int>, reference: int): Option<int> {
    if simulated.None? || reference == 0 then None
    else Some(Round((simulated.value - reference) as real / reference as real * 1000000.0))
  }

  function PlannedFragments(request: OrderRequest, start: int): (r: seq<Fragment>)
    ensures forall k :: 0 <= k < |r| ==> r[k].size > 0
  {
    var plan := Plan(request);
    Fragments(plan.sizes, 1, request.size, FillPrice(Reference(request), request.side, plan.slippageBps),
              BaseLatency(request), start)
  }

  /** The whole simulation as one value; `now` and `start` are the two clock readings the adapter takes. */
  function Simulation(request: OrderRequest, now: int, start: int): SimulationResult {
    if !Acceptable(request) then
      SimulationResult(SimulatedRejected, false, request.limit, request.bestBid, request.bestAsk, None, None, 0, None,
                       None, InvalidOrderParameters, [])
    else
      var plan := Plan(request);
      var fragments := PlannedFragments(request, start);
      var simulated := VolumeWeightedPrice(fragments);
      var reference := Reference(request);
      SimulationResult(
        plan.stage, true, reference, Some(BestBid(request)), Some(BestAsk(request)), simulated,
        Slippage(simulated, reference), TotalFilled(fragments),
        Some(if fragments == [] then now else fragments[|fragments| - 1].timestamp),
        Some(if fragments == [] then 0 else fragments[|fragments| - 1].latencyMs),
        plan.reason, fragments)
  }

  // ---- The adapter ------------------------------------------------------------------------------------------------

  method BuildFillFragments(request: OrderRequest, start: int, basePrice: int, slippageBps: int,
                            fillSizes: seq<int>, baseLatencyMs: int)
    returns (fragments: seq<Fragment>)
    ensures fragments == Fragments(fillSizes, 1, request.size, FillPrice(basePrice, request.side, slippageBps),
                                   baseLatencyMs, start)
  {
    var price := FillPrice(basePrice, request.side, slippageBps);
    fragments := FillAtPrice(request.size, start, price, fillSizes, baseLatencyMs);
  }

  /** The loop over the fill sizes; they all fill at one price. */
  method FillAtPrice(total: int, start: int, price: int, fillSizes: seq<int>, baseLatencyMs: int)
    returns (fragments: seq<Fragment>)
    ensures fragments == Fragments(fillSizes, 1, total, price, baseLatencyMs, start)
  {
    fragments := [];
    var remaining := total;
    var i := 0;
    ghost var all := Fragments(fillSizes, 1, total, price, baseLatencyMs, start);
    while i < |fillSizes|
      invariant 0 <= i <= |fillSizes|
      invariant all == fragments + Fragments(fillSizes[i..], i + 1, remaining, price, baseLatencyMs, start)
    {
      var index := i + 1;
      var fillSize := fillSizes[i];
      FillStep(all, fragments, fillSizes, i, remaining, price, baseLatencyMs, start, baseLatencyMs * index);
      if fillSize > 0 {
        remaining := MaxInt(0, remaining - fillSize);
        var latencyMs := baseLatencyMs * index;
        fragments := fragments + [Fragment(index, price, fillSize, remaining, latencyMs, start + latencyMs)];
      }
      i := i + 1;
    }
  }

  /** One round of the loop. */
  lemma FillStep(all: seq<Fragment>, done: seq<Fragment>, sizes: seq<int>, i: nat, remaining: int, price: int,
                 latency: int, start: int, at: int)
    requires i < |sizes| && at == latency * (i + 1)
    requires all == done + Fragments(sizes[i..], i + 1, remaining, price, latency, start)
    ensures sizes[i] <= 0 ==> all == done + Fragments(sizes[i + 1..], i + 2, remaining, price, latency, start)
    ensures sizes[i] > 0 ==>
      var left := MaxInt(0, remaining - sizes[i]);
      all == done + [Fragment(i + 1, price, sizes[i], left, at, start + at)]
             + Fragments(sizes[i + 1..], i + 2, left, price, latency, start)
  {
    FragmentsStep(sizes, i, remaining, price, latency, start);
  }

  lemma FragmentsStep(sizes: seq<int>, i: nat, remaining: int, price: int, latency: int, start: int)
    requires i < |sizes|
    ensures var rest := Fragments(sizes[i..], i + 1, remaining, price, latency, start);
      rest == if sizes[i] <= 0 then Fragments(sizes[i + 1..], i + 2, remaining, price, latency, start)
              else
                var left := MaxInt(0, remaining - sizes[i]);
                [Fragment(i + 1, price, sizes[i], left, latency * (i + 1), start + latency * (i + 1))]
                + Fragments(sizes[i + 1..], i + 2, left, price, latency, start)
  {
    assert sizes[i..][1..] == sizes[i + 1..];
  }

  /** The four branches of `simulate_order`: how the order ends, and the fragments and total it fills. */
  method FillOrder(request: OrderRequest, start: int, reference: int, baseLatencyMs: int)
    returns (fragments: seq<Fragment>, filled: int, stage: IntentStatus, reason: CompletionReason)
    requires Acceptable(request) && reference == Reference(request) && baseLatencyMs == BaseLatency(request)
    ensures fragments == PlannedFragments(request, start) && filled == TotalFilled(fragments)
    ensures stage == Plan(request).stage && reason == Plan(request).reason
  {
    if request.cancelAfterMs.Some? {
      fragments := BuildFillFragments(request, start, reference, 6, [Share(request.size, 25)], baseLatencyMs);
      filled := TotalFilled(fragments);
      stage, reason := SimulatedCancelled, OperatorCancelled;
    } else if request.ttlMs.Some? || request.size > 10000 {
      fragments := BuildFillFragments(request, start, reference, 8, [Share(request.size, 40)], baseLatencyMs);
      filled := TotalFilled(fragments);
      stage, reason := SimulatedExpired, TtlExpired;
    } else if request.size <= 5000 {
      fragments := BuildFillFragments(request, start, reference, 4, [request.size], baseLatencyMs);
      filled := request.size;
      stage, reason := SimulatedFilled, FullyFilled;
      FullFillIsItsOnlyFragment(fragments, request, reference, baseLatencyMs, start);
    } else {
      var firstFill := Share(request.size, 60);
      var secondFill := request.size - firstFill;
      fragments := BuildFillFragments(request, start, reference, 6, [firstFill, secondFill], baseLatencyMs);
      filled := TotalFilled(fragments);
      stage, reason := SimulatedFilled, CompletedAfterPartialFill;
    }
  }

  method SimulateOrder(request: OrderRequest, now: int, start: int) returns (result: SimulationResult)
    ensures result == Simulation(request, now, start)
  {
    if request.size <= 0 || !(0 < request.limit <= TICKS_PER_UNIT) {
      return SimulationResult(SimulatedRejected, false, request.limit, request.bestBid, request.bestAsk, None, None,
                              0, None, None, InvalidOrderParameters, []);
    }
    var bestBid := if request.bestBid.Some? then request.bestBid.value else MaxInt(0, request.limit - 50);
    var bestAsk := if request.bestAsk.Some? then request.bestAsk.value else request.limit;
    var reference := if request.side == Yes then bestAsk else bestBid;
    var baseLatencyMs := if request.baseLatencyMs.Some? && request.baseLatencyMs.value != 0
                         then request.baseLatencyMs.value else 250;
    var fragments, filled, stage, reason := FillOrder(request, start, reference, baseLatencyMs);
    var simulated: Option<int> := None;
    if fragments != [] {
      FilledPositive(fragments);
      simulated := Some(Round(Turnover(fragments) as real / filled as real));
    }
    assert simulated == VolumeWeightedPrice(fragments);
    result := SimulationResult(
      stage, true, reference, Some(bestBid), Some(bestAsk), simulated, Slippage(simulated, reference), filled,
      Some(if fragments == [] then now else fragments[|fragments| - 1].timestamp),
      Some(if fragments == [] then 0 else fragments[|fragments| - 1].latencyMs),
      reason, fragments);
  }

  // ---- Conservation of the order size -----------------------------------------------------------------------------

  lemma {:induction false} FilledPositive(fragments: seq<Fragment>)
    requires fragments != []
    requires forall k :: 0 <= k < |fragments| ==> fragments[k].size > 0
    ensures TotalFilled(fragments) > 0
  {
    assert FragmentSizes(fragments)[1..] == FragmentSizes(fragments[1..]);
    assert TotalFilled(fragments) == fragments[0].size + TotalFilled(fragments[1..]);
    if |fragments| > 1 {
      FilledPositive(fragments[1..]);
    } else {
      assert FragmentSizes(fragments[1..]) == [];
    }
  }

  lemma FullFillIsItsOnlyFragment(fragments: seq<Fragment>, request: OrderRequest, reference: int, latency: int,
                                  start: int)
    requires request.size > 0
    requires fragments
      == Fragments([request.size], 1, request.size, FillPrice(reference, request.side, 4), latency, start)
    ensures TotalFilled(fragments) == request.size
  {
    assert [request.size][1..] == [];
    assert |fragments| == 1 && FragmentSizes(fragments) == [request.size];
    assert Sum([request.size]) == request.size;
  }

  /** Each fragment's remainder is what the fragments up to it leave of the total. */
  predicate Remainders(fragments: seq<Fragment>, total: int) {
    forall k :: 0 <= k < |fragments| ==> fragments[k].remaining == total - TotalFilled(fragments[..k + 1])
  }

  /** Fragments of any split that does not overfill add up to the split. */
  lemma {:induction false} FragmentsAddUp(sizes: seq<int>, index: nat, remaining: int, price: int, latency: int,
                                          start: int)
    requires forall k :: 0 <= k < |sizes| ==> sizes[k] >= 0
    requires Sum(sizes) <= remaining
    ensures var r := Fragments(sizes, index, remaining, price, latency, start);
      TotalFilled(r) == Sum(sizes) && Remainders(r, remaining)
  {
    if sizes != [] {
      SumNonNegative(sizes[1..]);
      var left := if sizes[0] <= 0 then remaining else remaining - sizes[0];
      FragmentsAddUp(sizes[1..], index + 1, left, price, latency, start);
      if sizes[0] > 0 {
        var r := Fragments(sizes, index, remaining, price, latency, start);
        RemaindersCons(r[0], r[1..], remaining);
        assert r == [r[0]] + r[1..];
      }
    }
  }

  lemma RemaindersCons(head: Fragment, rest: seq<Fragment>, remaining: int)
    requires head.remaining == remaining - head.size && Remainders(rest, head.remaining)
    ensures TotalFilled([head] + rest) == head.size + TotalFilled(rest) && Remainders([head] + rest, remaining)
  {
    var r := [head] + rest;
    FilledCons(head, rest);
    forall k | 0 <= k < |r| ensures r[k].remaining == remaining - TotalFilled(r[..k + 1]) {
      assert r[..k + 1] == [head] + rest[..k];
      FilledCons(head, rest[..k]);
    }
  }

  lemma LastRemainder(fragments: seq<Fragment>, total: int)
    requires Remainders(fragments, total) && fragments != []
    ensures fragments[|fragments| - 1].remaining == total - TotalFilled(fragments)
  {
    assert fragments[..|fragments|] == fragments;
  }

  predicate Timed(f: Fragment, latency: int, start: int) {
    f.latencyMs == latency * f.index && f.timestamp == start + f.latencyMs
  }

  /** Positions strictly increase from `index`, and latencies and time stamps follow the positions. */
  predicate InOrder(fragments: seq<Fragment>, index: nat, latency: int, start: int) {
    && (forall k :: 0 <= k < |fragments| ==> fragments[k].index >= index && Timed(fragments[k], latency, start))
    && (forall j, k :: 0 <= j < k < |fragments| ==> fragments[j].index < fragments[k].index)
  }

  lemma {:induction false} FragmentsInOrder(sizes: seq<int>, index: nat, remaining: int, price: int, latency: int,
                                            start: int)
    ensures InOrder(Fragments(sizes, index, remaining, price, latency, start), index, latency, start)
  {
    if sizes != [] {
      var left := if sizes[0] <= 0 then remaining else MaxInt(0, remaining - sizes[0]);
      FragmentsInOrder(sizes[1..], index + 1, left, price, latency, start);
      if sizes[0] > 0 {
        var head := Fragment(index, price, sizes[0], left, latency * index, start + latency * index);
        InOrderCons(head, Fragments(sizes[1..], index + 1, left, price, latency, start), latency, start);
      }
    }
  }

  lemma InOrderCons(head: Fragment, rest: seq<Fragment>, latency: int, start: int)
    requires Timed(head, latency, start) && InOrder(rest, head.index + 1, latency, start)
    ensures InOrder([head] + rest, head.index, latency, start)
  {
  }

  lemma LatenciesGrow(fragments: seq<Fragment>, index: nat, latency: int, start: int)
    requires InOrder(fragments, index, latency, start) && latency > 0
    ensures forall j, k :: 0 <= j < k < |fragments| ==> fragments[j].latencyMs < fragments[k].latencyMs
  {
    forall j, k | 0 <= j < k < |fragments| ensures fragments[j].latencyMs < fragments[k].latencyMs {
      LatencyGrows(latency, fragments[j].index, fragments[k].index);
    }
  }

  lemma FilledCons(head: Fragment, rest: seq<Fragment>)
    ensures TotalFilled([head] + rest) == head.size + TotalFilled(rest)
  {
    assert FragmentSizes([head] + rest)[1..] == FragmentSizes(rest);
  }

  lemma {:induction false} SumNonNegative(xs: seq<int>)
    requires forall k :: 0 <= k < |xs| ==> xs[k] >= 0
    ensures Sum(xs) >= 0
  {
    if xs != [] {
      SumNonNegative(xs[1..]);
    }
  }

  lemma ShareBounds(size: int)
    requires size > 0
    ensures 0 <= Share(size, 25) < size && 0 <= Share(size, 40) < size
    ensures size > 1 ==> 0 <= Share(size, 60) <= size
    ensures -0.5 <= Share(size, 25) as real - 0.25 * size as real <= 0.5
    ensures -0.5 <= Share(size, 40) as real - 0.4 * size as real <= 0.5
  {
    RoundWithinHalf((size * 25) as real / 100.0);
    RoundWithinHalf((size * 40) as real / 100.0);
    RoundWithinHalf((size * 60) as real / 100.0);
  }

  /** The sizes a plan asks for never exceed the order, and use it up exactly when the plan is a full fill. */
  lemma PlanFitsTheOrder(request: OrderRequest)
    requires Acceptable(request)
    ensures var plan := Plan(request);
      && (forall k :: 0 <= k < |plan.sizes| ==> plan.sizes[k] >= 0)
      && Sum(plan.sizes) <= request.size
      && (plan.stage == SimulatedFilled <==> Sum(plan.sizes) == request.size)
  {
    ShareBounds(request.size);
    var sizes := Plan(request).sizes;
    if |sizes| == 1 {
      SumOne(sizes[0]);
      assert sizes == [sizes[0]];
    } else {
      SumTwo(sizes[0], sizes[1]);
      assert sizes == [sizes[0], sizes[1]];
    }
  }

  /** Conservation for every accepted order: prefix sums of the fills leave exactly the recorded remainders, the
      reported fill is their total and at most the order, nothing remains exactly when the stage says filled, and a
      positive base latency makes the latencies strictly increase. */
  lemma FillConservation(request: OrderRequest, now: int, start: int)
    requires Acceptable(request)
    ensures var result := Simulation(request, now, start); var fs := result.fragments;
      && result.filled == TotalFilled(fs) <= request.size
      && Remainders(fs, request.size)
      && (result.stage == SimulatedFilled <==> fs != [] && fs[|fs| - 1].remaining == 0)
      && (BaseLatency(request) > 0 ==> forall j, k :: 0 <= j < k < |fs| ==> fs[j].latencyMs < fs[k].latencyMs)
      && (fs != [] ==> result.fillTimestamp == Some(fs[|fs| - 1].timestamp))
  {
    PlannedFragmentsConserve(request, start);
    if BaseLatency(request) > 0 { PlannedLatenciesGrow(request, start); }
  }

  lemma PlannedFragmentsConserve(request: OrderRequest, start: int)
    requires Acceptable(request)
    ensures var fs := PlannedFragments(request, start);
      && TotalFilled(fs) <= request.size && Remainders(fs, request.size)
      && (Plan(request).stage == SimulatedFilled <==> fs != [] && fs[|fs| - 1].remaining == 0)
  {
    var sizes := Plan(request).sizes;
    PlanFitsTheOrder(request);
    FragmentsAddUp(sizes, 1, request.size, FillPrice(Reference(request), request.side, Plan(request).slippageBps),
                   BaseLatency(request), start);
    var fs := PlannedFragments(request, start);
    if fs != [] { LastRemainder(fs, request.size); }
  }

  lemma PlannedLatenciesGrow(request: OrderRequest, start: int)
    requires Acceptable(request) && BaseLatency(request) > 0
    ensures var fs := PlannedFragments(request, start);
      forall j, k :: 0 <= j < k < |fs| ==> fs[j].latencyMs < fs[k].latencyMs
  {
    FragmentsInOrder(Plan(request).sizes, 1, request.size,
                     FillPrice(Reference(request), request.side, Plan(request).slippageBps), BaseLatency(request),
                     start);
    LatenciesGrow(PlannedFragments(request, start), 1, BaseLatency(request), start);
  }

  lemma LatencyGrows(latency: int, i: int, j: int)
    requires latency > 0 && i < j
    ensures latency * i < latency * j
  {
  }

  /** How much each ending fills, to within half a cent. */
  lemma FilledShare(request: OrderRequest, now: int, start: int)
    requires Acceptable(request)
    ensures var result := Simulation(request, now, start); var size := request.size as real;
      match result.stage
      case SimulatedCancelled => -0.5 <= result.filled as real - 0.25 * size <= 0.5
      case SimulatedExpired => -0.5 <= result.filled as real - 0.4 * size <= 0.5
      case _ => result.stage == SimulatedFilled && result.filled == request.size
  {
    FillConservation(request, now, start);
    PlanFitsTheOrder(request);
    var plan := Plan(request);
    FragmentsAddUp(plan.sizes, 1, request.size, FillPrice(Reference(request), request.side, plan.slippageBps),
                   BaseLatency(request), start);
    ShareBounds(request.size);
    if |plan.sizes| == 1 {
      assert Sum(plan.sizes) == plan.sizes[0];
    }
  }

  // ---- Price ------------------------------------------------------------------------------------------------------

  /** Fragments at one price have that price as their volume-weighted average. */
  lemma {:induction false} UniformTurnover(fragments: seq<Fragment>, price: int)
    requires forall k :: 0 <= k < |fragments| ==> fragments[k].price == price
    ensures Turnover(fragments) == price * TotalFilled(fragments)
  {
    if fragments == [] {
    } else {
      UniformTurnover(fragments[1..], price);
      assert FragmentSizes(fragments)[1..] == FragmentSizes(fragments[1..]);
      Distribute(price, fragments[0].size, TotalFilled(fragments[1..]));
    }
  }

  lemma Distribute(p: int, a: int, b: int)
    ensures p * a + p * b == p * (a + b)
  {
  }

  lemma AverageOfUniform(price: int, filled: int)
    requires filled > 0
    ensures (price * filled) as real / filled as real == price as real
  {
    var q := (price * filled) as real / filled as real;
    assert q * filled as real == price as real * filled as real;
  }

  /** The simulated price is the common price of the fragments; the average never divides by zero. */
  lemma SimulatedPriceIsFragmentPrice(request: OrderRequest, now: int, start: int)
    requires Acceptable(request)
    ensures var result := Simulation(request, now, start);
      var price := FillPrice(result.reference, request.side, Plan(request).slippageBps);
      && (forall k :: 0 <= k < |result.fragments| ==> result.fragments[k].price == price)
      && result.simulatedPrice == if result.fragments == [] then None else Some(price)
  {
    var fs := PlannedFragments(request, start);
    var price := FillPrice(Reference(request), request.side, Plan(request).slippageBps);
    if fs != [] {
      UniformTurnover(fs, price);
      FilledPositive(fs);
      AverageOfUniform(price, TotalFilled(fs));
      RoundFixesGrid(price);
    }
  }

  /** How many ticks worse than the reference a price is for the order's side. */
  function Cost(side: Side, reference: int, price: int): int {
    if side == Yes then price - reference else reference - price
  }

  /** For a quote in [0, 1] the simulated price lies in [0, 1], is never better than the reference for the order's
      side, and is off by at most the slippage plus half a tick; the slippage has the sign that costs the trader. */
  lemma SimulatedPriceBounds(request: OrderRequest, now: int, start: int)
    requires Acceptable(request)
    requires 0 <= Reference(request) <= TICKS_PER_UNIT
    ensures var result := Simulation(request, now, start); var ref := result.reference;
      result.fragments != [] ==>
        && result.simulatedPrice.Some?
        && 0 <= result.simulatedPrice.value <= TICKS_PER_UNIT
        && 0 <= Cost(request.side, ref, result.simulatedPrice.value)
        && Cost(request.side, ref, result.simulatedPrice.value) as real
           <= (ref * Plan(request).slippageBps) as real / 10000.0 + 0.5
        && (result.slippage.None? <==> ref == 0)
        && (result.slippage.Some?
          ==> if request.side == Yes then result.slippage.value >= 0 else result.slippage.value <= 0)
  {
    SimulatedPriceIsFragmentPrice(request, now, start);
    var ref, bps := Reference(request), Plan(request).slippageBps;
    FillPriceBounds(ref, request.side, bps);
    var price := FillPrice(ref, request.side, bps);
    if ref > 0 {
      QuotientSign(price - ref, ref);
      var x := (price - ref) as real / ref as real * 1000000.0;
      RoundFixesGrid(0);
      if price >= ref { RoundMonotone(0.0, x); }
      if price <= ref { RoundMonotone(x, 0.0); }
    }
  }

  lemma QuotientSign(a: int, b: int)
    requires b > 0
    ensures a >= 0 ==> a as real / b as real >= 0.0
    ensures a <= 0 ==> a as real / b as real <= 0.0
  {
  }

  lemma FillPriceBounds(ref: int, side: Side, bps: int)
    requires 0 <= ref <= TICKS_PER_UNIT && 0 <= bps
    ensures var price := FillPrice(ref, side, bps);
      && 0 <= price <= TICKS_PER_UNIT
      && 0 <= Cost(side, ref, price)
      && Cost(side, ref, price) as real <= (ref * bps) as real / 10000.0 + 0.5
  {
    ProductNonNegative(ref, bps);
    ShiftedPriceBounds(ref, ref * bps);
    ShiftedPriceBounds(ref, -(ref * bps));
  }

  lemma ProductNonNegative(a: int, b: int)
    requires a >= 0 && b >= 0
    ensures a * b >= 0
  {
  }

  lemma ShiftedPriceBounds(base: int, shift: int)
    requires 0 <= base <= TICKS_PER_UNIT
    ensures var price := ShiftedPrice(base, shift);
      && 0 <= price <= TICKS_PER_UNIT
      && (shift >= 0 ==> base <= price && (price - base) as real <= shift as real / 10000.0 + 0.5)
      && (shift <= 0 ==> price <= base && (base - price) as real <= -shift as real / 10000.0 + 0.5)
  {
    var exact := base as real + shift as real / 10000.0;
    RoundWithinHalf(exact);
    RoundFixesGrid(base);
    if shift >= 0 { RoundMonotone(base as real, exact); }
    if shift <= 0 { RoundMonotone(exact, base as real); }
  }

  // ---- Each ending, from the order's own fields -------------------------------------------------------------------

  /** A result whose reference is the quote of the order's side, a given one or else its default, and whose price is
      that quote moved by `cost`. */
  predicate PricedAt(request: OrderRequest, result: SimulationResult, cost: real) {
    var quote :=
      match request.side
      case Yes => if request.bestAsk.Some? then request.bestAsk.value else request.limit
      case No =>
        if request.bestBid.Some? then request.bestBid.value
        else if request.limit < 50 then 0
        else request.limit - 50;
    && result.reference == quote
    && (result.simulatedPrice.Some? <==> result.filled > 0)
    && (result.simulatedPrice.Some? ==> result.simulatedPrice.value == Moved(request.side, quote, cost))
    && forall k :: 0 <= k < |result.fragments| ==> Some(result.fragments[k].price) == result.simulatedPrice
  }

  /** A quote moved against the trader by a share of it, rounded to a tick and held inside [0, 1]. */
  function Moved(side: Side, quote: int, cost: real): int {
    var moved := Round(if side == Yes then quote as real * (1.0 + cost) else quote as real * (1.0 - cost));
    if moved < 0 then 0 else if moved > 10000 then 10000 else moved
  }

  /** A fill of a share of the order, to the cent. */
  predicate FillsShare(request: OrderRequest, result: SimulationResult, share: real) {
    |result.fragments| <= 1 && -0.5 <= result.filled as real - share * request.size as real <= 0.5
  }

  /** The delay of each fill: the base latency, 250 ms when none or zero is given, times the position of the fill. */
  predicate FillsAfter(request: OrderRequest, result: SimulationResult, start: int) {
    var base :=
      if request.baseLatencyMs.Some? && request.baseLatencyMs.value != 0 then request.baseLatencyMs.value else 250;
    forall k :: 0 <= k < |result.fragments| ==>
      result.fragments[k].latencyMs == (k + 1) * base && result.fragments[k].timestamp == start + (k + 1) * base
  }

  lemma ShiftLandsOn(base: int, shift: int, target: real)
    requires base as real + shift as real / 10000.0 == target
    ensures ShiftedPrice(base, shift) == (var t := Round(target); if t < 0 then 0 else if t > 10000 then 10000 else t)
  {
  }

  lemma FillPriceIsMoved(side: Side, quote: int, bps: int)
    ensures FillPrice(quote, side, bps) == Moved(side, quote, bps as real / 10000.0)
  {
    WholeProduct(quote, bps);
    MovedQuote(quote as real, bps as real);
    SignedShift(side, quote, quote * bps, bps as real / 10000.0);
  }

  lemma SignedShift(side: Side, quote: int, shift: int, cost: real)
    requires quote as real + shift as real / 10000.0 == quote as real * (1.0 + cost)
    requires quote as real + (-shift) as real / 10000.0 == quote as real * (1.0 - cost)
    ensures ShiftedPrice(quote, (if side == Yes then 1 else -1) * shift) == Moved(side, quote, cost)
  {
    if side == Yes {
      ShiftLandsOn(quote, shift, quote as real * (1.0 + cost));
    } else {
      ShiftLandsOn(quote, -shift, quote as real * (1.0 - cost));
    }
  }

  lemma WholeProduct(a: int, b: int)
    ensures (a * b) as real == a as real * b as real && (-(a * b)) as real == -(a as real * b as real)
    ensures 1 * (a * b) == a * b && -1 * (a * b) == -(a * b)
  {
  }

  lemma MovedQuote(q: real, b: real)
    ensures q + q * b / 10000.0 == q * (1.0 + b / 10000.0)
    ensures q + -(q * b) / 10000.0 == q * (1.0 - b / 10000.0)
  {
    assert q * (b / 10000.0) == q * b / 10000.0;
  }

  lemma PricedByPlan(request: OrderRequest, now: int, start: int)
    requires Acceptable(request)
    ensures PricedAt(request, Simulation(request, now, start), Plan(request).slippageBps as real / 10000.0)
  {
    var quote, cost := Reference(request), Plan(request).slippageBps as real / 10000.0;
    SimulatedPriceIsFragmentPrice(request, now, start);
    FillPriceIsMoved(request.side, quote, Plan(request).slippageBps);
    PriceWhenFilled(request, now, start);
    assert Reference(request) == Simulation(request, now, start).reference;
    PricedWhen(request, Simulation(request, now, start), cost);
  }

  lemma PriceWhenFilled(request: OrderRequest, now: int, start: int)
    requires Acceptable(request)
    ensures var r := Simulation(request, now, start); r.fragments != [] <==> r.filled > 0
  {
    var fs := PlannedFragments(request, start);
    if fs != [] { FilledPositive(fs); }
  }

  lemma PricedWhen(request: OrderRequest, r: SimulationResult, cost: real)
    requires r.reference == Reference(request) && (r.fragments != [] <==> r.filled > 0)
    requires r.simulatedPrice == if r.fragments == [] then None else Some(Moved(request.side, r.reference, cost))
    requires forall k :: 0 <= k < |r.fragments| ==> r.fragments[k].price == Moved(request.side, r.reference, cost)
    ensures PricedAt(request, r, cost)
  {
  }

  lemma OneSize(size: int, total: int, price: int, latency: int, start: int)
    ensures Fragments([size], 1, total, price, latency, start)
         == if size <= 0 then [] else [Fragment(1, price, size, MaxInt(0, total - size), latency, start + latency)]
  {
    assert [size][1..] == [];
  }

  lemma TwoSizes(first: int, second: int, total: int, price: int, latency: int, start: int)
    requires first > 0 && second > 0
    ensures var left := MaxInt(0, total - first);
      Fragments([first, second], 1, total, price, latency, start)
      == [Fragment(1, price, first, left, latency, start + latency),
          Fragment(2, price, second, MaxInt(0, left - second), latency * 2, start + latency * 2)]
  {
    assert [first, second][1..] == [second] && [second][1..] == [];
  }

  /** The fragments of each branch. */
  lemma FragmentsOfPlan(request: OrderRequest, start: int)
    requires Acceptable(request)
    ensures var fs := PlannedFragments(request, start); var base := BaseLatency(request);
      && |fs| <= |Plan(request).sizes|
      && (|fs| > 0 ==>
            fs[0].latencyMs == base && fs[0].timestamp == start + base && fs[0].size == Plan(request).sizes[0])
      && (|fs| > 1 ==> fs[1].latencyMs == 2 * base && fs[1].timestamp == start + 2 * base)
      && (Plan(request).stage == SimulatedFilled ==> |fs| == |Plan(request).sizes|)
  {
    var sizes, base := Plan(request).sizes, BaseLatency(request);
    var price := FillPrice(Reference(request), request.side, Plan(request).slippageBps);
    if |sizes| == 1 {
      OneSize(sizes[0], request.size, price, base, start);
      assert sizes == [sizes[0]];
    } else {
      SplitIsPositive(request.size);
      TwoSizes(sizes[0], sizes[1], request.size, price, base, start);
      assert sizes == [sizes[0], sizes[1]];
    }
  }

  lemma FillsInTurn(request: OrderRequest, now: int, start: int)
    requires Acceptable(request)
    ensures FillsAfter(request, Simulation(request, now, start), start)
    ensures |Simulation(request, now, start).fragments| <= |Plan(request).sizes|
  {
    FragmentsOfPlan(request, start);
    var fs := PlannedFragments(request, start);
    assert Simulation(request, now, start).fragments == fs;
    assert |fs| <= 2;
  }

  lemma SplitIsPositive(size: int)
    requires size > 5000
    ensures 0 < Share(size, 60) < size
    ensures -0.5 <= Share(size, 60) as real - 0.6 * size as real <= 0.5
  {
    RoundWithinHalf((size * 60) as real / 100.0);
  }

  /** How every accepted order ends, from its fields and the adapter's figures alone: cancelled at 6 basis points with a
      quarter filled, expired at 8 with two fifths filled, filled at once at 4 up to 50 dollars, and up to 100 in two
      fragments at 6, the first of them three fifths. */
  lemma EndingOfEachOrder(request: OrderRequest, now: int, start: int)
    requires Acceptable(request)
    ensures FillsAfter(request, Simulation(request, now, start), start)
    ensures request.cancelAfterMs.Some? ==>
      var r := Simulation(request, now, start);
      r.stage == SimulatedCancelled && r.reason == OperatorCancelled && PricedAt(request, r, 0.0006)
      && FillsShare(request, r, 0.25)
    ensures request.cancelAfterMs.None? && (request.ttlMs.Some? || request.size > 10000) ==>
      var r := Simulation(request, now, start);
      && r.stage == SimulatedExpired && r.reason == TtlExpired
      && PricedAt(request, r, 0.0008) && FillsShare(request, r, 0.4)
    ensures request.cancelAfterMs.None? && request.ttlMs.None? && request.size <= 5000 ==>
      var r := Simulation(request, now, start);
      r.stage == SimulatedFilled && r.reason == FullyFilled && PricedAt(request, r, 0.0004)
      && |r.fragments| == 1 && r.filled == request.size
    ensures request.cancelAfterMs.None? && request.ttlMs.None? && 5000 < request.size <= 10000 ==>
      var r := Simulation(request, now, start);
      r.stage == SimulatedFilled && r.reason == CompletedAfterPartialFill && PricedAt(request, r, 0.0006)
      && |r.fragments| == 2 && r.filled == request.size
      && -0.5 <= r.fragments[0].size as real - 0.6 * request.size as real <= 0.5
  {
    PricedByPlan(request, now, start);
    FilledShare(request, now, start);
    FillsInTurn(request, now, start);
    if request.cancelAfterMs.None? && request.ttlMs.None? && request.size <= 10000 { FullFills(request, now, start); }
  }

  lemma FullFills(request: OrderRequest, now: int, start: int)
    requires Acceptable(request)
    requires request.cancelAfterMs.None? && request.ttlMs.None? && request.size <= 10000
    ensures var fs := Simulation(request, now, start).fragments;
      if request.size <= 5000 then |fs| == 1
      else |fs| == 2 && -0.5 <= fs[0].size as real - 0.6 * request.size as real <= 0.5
  {
    FragmentsOfPlan(request, start);
    if request.size > 5000 { SplitIsPositive(request.size); }
  }

  /** The reported slippage is the relative move of the price, in hundredths of a basis point, to half of one; there is
      none exactly without a price or on a zero reference. */
  lemma SlippageReported(request: OrderRequest, now: int, start: int)
    requires Acceptable(request)
    ensures var r := Simulation(request, now, start);
      && (r.slippage.None? <==> r.simulatedPrice.None? || r.reference == 0)
      && (r.slippage.Some? ==>
            -0.5 <= r.slippage.value as real
                    - (r.simulatedPrice.value - r.reference) as real / r.reference as real * 1000000.0 <= 0.5)
  {
    var r := Simulation(request, now, start);
    if r.simulatedPrice.Some? && r.reference != 0 {
      RoundWithinHalf((r.simulatedPrice.value - r.reference) as real / r.reference as real * 1000000.0);
    }
  }
}
