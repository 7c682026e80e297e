/** The admission gate for strategy signals (`bot/services/signals/admission.py`, `bot/domain/signals.py`). */
module SignalAdmission {
  import opened Common
  import opened SignalScoring

  datatype StrategiesConfig = StrategiesConfig(
    enabled: bool,
    legacyBidirectionalEnabled: bool,
    momentumLagEnabled: bool,
    meanReversionEnabled: bool,
    mispricingEnabled: bool,
    minConfidence: real,
    autoExecuteMinConfidence: Option<real>,
    maxSpreadBps: real,
    minLiquidityUsd: real,
    minTimeToResolutionSeconds: int,
    maxPositionFraction: real)

  datatype Signal = Signal(signalType: SignalType, direction: Direction, confidence: real, tags: seq<string>)

  datatype Rejection =
    | StrategiesDisabled
    | LegacyBidirectionalDisabled
    | StrategyTypeDisabled
    | SkipDirection
    | AutoExecuteRequested
    | TimeToResolutionTooShort
    | LiquidityTooLow
    | SpreadTooWide
    | ConfidenceBelowThreshold

  /** The proposed fraction of the bankroll is in millionths, the grid it is rounded to. */
  datatype Decision =
    | Admitted(signal: Signal, fraction: int)
    | Rejected(signal: Signal, code: Rejection)

  const LEGACY_TAGS: set<string> :=
    {"bidirectional", "hedge", "hedged", "dual_side", "both_sides", "long_short", "yes_no"}

  predicate HasLegacyTag(s: Signal) {
    s.signalType == LegacyBidirectional || exists k :: 0 <= k < |s.tags| && s.tags[k] in LEGACY_TAGS
  }

  predicate TypeEnabled(signalType: SignalType, c: StrategiesConfig) {
    match signalType
    case MomentumLag => c.momentumLagEnabled
    case MeanReversion => c.meanReversionEnabled
    case Mispricing => c.mispricingEnabled
    case LegacyBidirectional => c.legacyBidirectionalEnabled
  }

  function Scale(confidence: real, minConfidence: real): real {
    (confidence - minConfidence) / Max(1.0 - minConfidence, 0.000001)
  }

  function SizeFraction(c: StrategiesConfig, confidence: real): int {
    if c.maxPositionFraction <= 0.0 || confidence <= c.minConfidence then 0
    else
      var scale := Scale(confidence, c.minConfidence);
      if scale < 0.0 then 0 else Portion(c.maxPositionFraction, Min(scale, 1.0))
  }

  function Portion(cap: real, scale: real): int { Round(cap * scale * 1000000.0) }

  function Admit(c: StrategiesConfig, s: Signal, f: MarketFeatures, autoExecuteRequested: bool): Decision {
    if !c.enabled then Rejected(s, StrategiesDisabled)
    else if HasLegacyTag(s) && !c.legacyBidirectionalEnabled then Rejected(s, LegacyBidirectionalDisabled)
    else if !TypeEnabled(s.signalType, c) then Rejected(s, StrategyTypeDisabled)
    else if s.direction == Skip then Rejected(s, SkipDirection)
    else if autoExecuteRequested || c.autoExecuteMinConfidence.Some? then Rejected(s, AutoExecuteRequested)
    else if f.secondsToResolution < c.minTimeToResolutionSeconds then Rejected(s, TimeToResolutionTooShort)
    else if f.liquidityUsd < c.minLiquidityUsd then Rejected(s, LiquidityTooLow)
    else if f.spreadBps > c.maxSpreadBps then Rejected(s, SpreadTooWide)
    else if s.confidence < c.minConfidence then Rejected(s, ConfidenceBelowThreshold)
    else Admitted(s, SizeFraction(c, s.confidence))
  }

  // ---- The size fraction ------------------------------------------------------------------------------------------

  lemma Cancel(x: real, y: real, w: real)
    requires w > 0.0 && x * w <= y * w
    ensures x <= y
  {
    assert x > y ==> (x - y) * w > 0.0;
  }

  /** Comparing two fractions by their cross products. */
  lemma DivideMonotone(a: real, b: real, p: real, q: real)
    requires p > 0.0 && q > 0.0 && a * q <= b * p
    ensures a / p <= b / q
  {
    var x, y := a / p, b / q;
    assert x * p == a && y * q == b;
    assert x * (p * q) == a * q && y * (p * q) == b * p;
    Cancel(x, y, p * q);
  }

  lemma ScalePositive(confidence: real, minConfidence: real)
    requires confidence > minConfidence
    ensures Scale(confidence, minConfidence) > 0.0
  {
  }

  /** A more confident signal is scaled up, and a higher threshold scales every signal above it down; above the cut at
      one the order no longer matters. */
  lemma ScaleMonotone(k1: real, k2: real, m1: real, m2: real)
    requires k1 >= k2 > m2 >= m1
    ensures Min(Scale(k1, m1), 1.0) >= Min(Scale(k2, m2), 1.0)
  {
    var s1, s2 := Max(1.0 - m1, 0.000001), Max(1.0 - m2, 0.000001);
    var t, d := k2 - m2, m2 - m1;
    assert s1 <= s2 + d && k1 - m1 >= t + d;
    if t <= s2 {
      CrossProducts(t, d, s2, s1, k1 - m1);
      DivideMonotone(t, k1 - m1, s2, s1);
    } else {
      assert k1 - m1 >= s1;
      DivideMonotone(1.0, k1 - m1, 1.0, s1);
    }
  }

  lemma CrossProducts(t: real, d: real, s2: real, s1: real, u: real)
    requires 0.0 < t <= s2 && d >= 0.0 && 0.0 < s1 <= s2 + d && u >= t + d
    ensures t * s1 <= u * s2
  {
    MulMonotone(s1, s2 + d, t);
    MulMonotone(t + d, u, s2);
    MulMonotone(t, s2, d);
    assert t * (s2 + d) == t * s2 + t * d;
    assert (t + d) * s2 == t * s2 + d * s2;
  }

  lemma ShareWithin(cap: real, scale: real)
    requires cap >= 0.0 && 0.0 <= scale <= 1.0
    ensures 0.0 <= cap * scale <= cap
  {
    assert cap * (1.0 - scale) >= 0.0;
  }

  lemma PortionBounds(cap: real, scale: real)
    requires cap >= 0.0 && 0.0 <= scale <= 1.0
    ensures 0 <= Portion(cap, scale)
    ensures Portion(cap, scale) as real <= cap * 1000000.0 + 0.5
    ensures Portion(cap, scale) <= Round(cap * 1000000.0)
  {
    ShareWithin(cap, scale);
    PortionOf(cap * scale, cap);
  }

  lemma PortionOf(exact: real, cap: real)
    requires 0.0 <= exact <= cap
    ensures 0 <= Round(exact * 1000000.0) <= Round(cap * 1000000.0)
    ensures Round(exact * 1000000.0) as real <= cap * 1000000.0 + 0.5
  {
    RoundMonotone(0.0, exact * 1000000.0);
    RoundFixesGrid(0);
    RoundMonotone(exact * 1000000.0, cap * 1000000.0);
    RoundWithinHalf(exact * 1000000.0);
  }

  lemma PortionMonotone(cap1: real, scale1: real, cap2: real, scale2: real)
    requires 0.0 <= cap1 <= cap2 && 0.0 <= scale1 <= scale2
    ensures Portion(cap1, scale1) <= Portion(cap2, scale2)
  {
    ProductsOrdered(cap1, scale1, cap2, scale2);
    MillionthsOrdered(cap1 * scale1, cap2 * scale2);
  }

  lemma ProductsOrdered(a: real, b: real, c: real, d: real)
    requires 0.0 <= a <= c && 0.0 <= b <= d
    ensures a * b <= c * d
  {
    MulMonotone(a, c, b);
    MulMonotone(b, d, c);
  }

  lemma MillionthsOrdered(x: real, y: real)
    requires x <= y
    ensures Round(x * 1000000.0) <= Round(y * 1000000.0)
  {
    RoundMonotone(x * 1000000.0, y * 1000000.0);
  }

  /** The fraction is never negative, exceeds the configured maximum by at most half a millionth, and by nothing when
      the maximum is a whole number of millionths. */
  lemma FractionWithinCap(c: StrategiesConfig, confidence: real)
    ensures 0 <= SizeFraction(c, confidence)
    ensures SizeFraction(c, confidence) as real <= Max(c.maxPositionFraction, 0.0) * 1000000.0 + 0.5
    ensures SizeFraction(c, confidence) <= Round(Max(c.maxPositionFraction, 0.0) * 1000000.0)
  {
    var cap := c.maxPositionFraction;
    RoundMonotone(0.0, Max(cap, 0.0) * 1000000.0);
    RoundFixesGrid(0);
    if cap > 0.0 && confidence > c.minConfidence {
      ScalePositive(confidence, c.minConfidence);
      PortionBounds(cap, Min(Scale(confidence, c.minConfidence), 1.0));
    }
  }

  lemma Whole(span: real)
    requires span > 0.0
    ensures span / span == 1.0
  {
    DivideMonotone(span, 1.0, span, 1.0);
    DivideMonotone(1.0, span, 1.0, span);
  }

  lemma FullScale(minConfidence: real)
    ensures minConfidence <= 0.999999 ==> Scale(1.0, minConfidence) == 1.0
    ensures minConfidence > 0.999999 ==> Scale(1.0, minConfidence) == (1.0 - minConfidence) * 1000000.0
  {
    if minConfidence <= 0.999999 { Whole(1.0 - minConfidence); }
  }

  /** Full confidence proposes the whole maximum, for every maximum up to the bankroll, exactly when the threshold is at
      most 0.999999: above it the scale is held down by the smallest span. */
  lemma FullConfidenceIff(c: StrategiesConfig)
    ensures c.minConfidence <= 0.999999 <==>
      forall cap: real :: 0.0 <= cap <= 1.0 ==>
        SizeFraction(c.(maxPositionFraction := cap), 1.0) == Portion(cap, 1.0)
  {
    FullScale(c.minConfidence);
    if c.minConfidence <= 0.999999 {
      forall cap: real | 0.0 <= cap <= 1.0
        ensures SizeFraction(c.(maxPositionFraction := cap), 1.0) == Portion(cap, 1.0)
      {
        NothingOfNothing(1.0);
      }
    } else {
      var cap := ShortCap(c.minConfidence);
      assert SizeFraction(c.(maxPositionFraction := cap), 1.0) == 0 && Portion(cap, 1.0) == 1;
    }
  }

  lemma NothingOfNothing(scale: real)
    ensures Portion(0.0, scale) == 0
  {
    assert 0.0 * scale == 0.0;
    RoundFixesGrid(0);
  }

  /** A maximum that rounds to a millionth whole but to nothing when scaled by a threshold above 0.999999. */
  lemma ShortCap(minConfidence: real) returns (cap: real)
    requires minConfidence > 0.999999
    ensures 0.0 < cap <= 1.0 && Portion(cap, 1.0) == 1
    ensures minConfidence < 1.0 ==> Portion(cap, Min(Scale(1.0, minConfidence), 1.0)) == 0
  {
    FullScale(minConfidence);
    var scale := (1.0 - minConfidence) * 1000000.0;
    if scale < 0.5 {
      cap := 0.000001;
      if minConfidence < 1.0 { ScaledBelowHalf(cap, scale); }
    } else {
      cap := 0.0000005 / scale;
      HalfOver(scale);
      ScaledBelowHalf(cap, scale);
    }
    assert cap * 1.0 == cap;
    RoundsToOne(cap * 1000000.0);
  }

  lemma HalfOver(scale: real)
    requires 0.5 <= scale < 1.0
    ensures 0.0000005 < 0.0000005 / scale <= 0.000001 && 0.0000005 / scale * scale == 0.0000005
  {
    var cap := 0.0000005 / scale;
    assert cap * scale == 0.0000005;
    if cap <= 0.0000005 { MulMonotone(cap, 0.0000005, scale); }
    if cap > 0.000001 { MulMonotone(0.000001, cap, scale); }
  }

  lemma ScaledBelowHalf(cap: real, scale: real)
    requires 0.0 <= cap * scale <= 0.0000005
    ensures Portion(cap, scale) == 0
  {
  }

  lemma RoundsToOne(x: real)
    requires 0.5 < x <= 1.0
    ensures Round(x) == 1
  {
  }

  /** A signal exactly at the threshold passes every other gate it would have passed, and is proposed at nothing. */
  lemma ThresholdAdmitsNothing(c: StrategiesConfig, s: Signal, f: MarketFeatures, auto: bool)
    requires s.confidence == c.minConfidence
    ensures Admit(c, s, f, auto).Admitted? <==> Admit(c, s.(confidence := s.confidence + 1.0), f, auto).Admitted?
    ensures Admit(c, s, f, auto).Admitted? ==> Admit(c, s, f, auto).fraction == 0
  {
    assert HasLegacyTag(s) == HasLegacyTag(s.(confidence := s.confidence + 1.0));
  }

  /** Exactly which admitted signals are proposed at nothing: those under a maximum of at most half a millionth, and
      those so close to the threshold that their share of the maximum is. */
  lemma AdmittedAtNothingIff(c: StrategiesConfig, s: Signal, f: MarketFeatures, auto: bool)
    requires Admit(c, s, f, auto).Admitted?
    ensures Admit(c, s, f, auto).fraction == 0 <==>
      || c.maxPositionFraction <= 0.0000005
      || c.maxPositionFraction * (s.confidence - c.minConfidence) <= 0.0000005 * Max(1.0 - c.minConfidence, 0.000001)
  {
    var cap, above, span := c.maxPositionFraction, s.confidence - c.minConfidence, Max(1.0 - c.minConfidence, 0.000001);
    if cap > 0.0 && above > 0.0 {
      ScalePositive(s.confidence, c.minConfidence);
      ShareAtMost(cap, above, span);
      assert Scale(s.confidence, c.minConfidence) == above / span;
      NothingIff(cap, Min(above / span, 1.0));
    } else if above == 0.0 {
      assert cap * above == 0.0;
    }
  }

  lemma ShareAtMost(cap: real, above: real, span: real)
    requires cap > 0.0 && above > 0.0 && span > 0.0
    ensures cap * Min(above / span, 1.0) <= 0.0000005 <==> cap <= 0.0000005 || cap * above <= 0.0000005 * span
    ensures 0.0 < cap * Min(above / span, 1.0)
  {
    assert above / span * span == above && above / span > 0.0;
    ShareOf(cap, above / span, above, span);
  }

  lemma ShareOf(cap: real, scale: real, above: real, span: real)
    requires cap > 0.0 && scale > 0.0 && span > 0.0 && scale * span == above
    ensures cap * Min(scale, 1.0) <= 0.0000005 <==> cap <= 0.0000005 || cap * above <= 0.0000005 * span
    ensures 0.0 < cap * Min(scale, 1.0)
  {
    SameFactor(cap, above, scale * span);
    if scale <= 1.0 {
      PartialShare(cap, scale, span);
      SameFactor(cap, Min(scale, 1.0), scale);
    } else {
      WholeShare(cap, scale, span);
      SameFactor(cap, Min(scale, 1.0), 1.0);
    }
  }

  lemma SameFactor(a: real, b: real, c: real)
    requires b == c
    ensures a * b == a * c
  {
  }

  lemma PartialShare(cap: real, scale: real, span: real)
    requires cap > 0.0 && 0.0 < scale <= 1.0 && span > 0.0
    ensures 0.0 < cap * scale <= cap
    ensures cap * scale <= 0.0000005 <==> cap * (scale * span) <= 0.0000005 * span
  {
    ShareWithin(cap, scale);
    Associative(cap, scale, span);
    ScaleBoth(cap * scale, 0.0000005, span);
  }

  lemma WholeShare(cap: real, scale: real, span: real)
    requires cap > 0.0 && scale > 1.0 && span > 0.0
    ensures cap * 1.0 == cap
    ensures cap * (scale * span) <= 0.0000005 * span ==> cap <= 0.0000005
  {
    Associative(cap, scale, span);
    ScaleBoth(cap * scale, 0.0000005, span);
    MoreThanWhole(cap, scale);
  }

  lemma MoreThanWhole(cap: real, scale: real)
    requires cap > 0.0 && scale > 1.0
    ensures cap < cap * scale && cap * 1.0 == cap
  {
    assert cap * (scale - 1.0) > 0.0;
  }

  lemma Associative(a: real, b: real, c: real)
    ensures a * (b * c) == a * b * c
  {
  }

  lemma ScaleBoth(x: real, y: real, w: real)
    requires w > 0.0
    ensures x <= y <==> x * w <= y * w
  {
    if x <= y { MulMonotone(x, y, w); }
    if x * w <= y * w { Cancel(x, y, w); }
  }

  lemma NothingIff(cap: real, scale: real)
    requires 0.0 < cap * scale
    ensures Portion(cap, scale) == 0 <==> cap * scale <= 0.0000005
  {
    RoundWithinHalf(cap * scale * 1000000.0);
  }

  /** A lower threshold, a larger maximum and a higher confidence never give less. */
  lemma FractionMonotone(loose: StrategiesConfig, strict: StrategiesConfig, high: real, low: real)
    requires strict.minConfidence >= loose.minConfidence && strict.maxPositionFraction <= loose.maxPositionFraction
    requires high >= low
    ensures SizeFraction(strict, low) <= SizeFraction(loose, high)
  {
    FractionWithinCap(loose, high);
    if strict.maxPositionFraction > 0.0 && low > strict.minConfidence {
      ScalePositive(low, strict.minConfidence);
      ScalePositive(high, loose.minConfidence);
      ScaleMonotone(high, low, loose.minConfidence, strict.minConfidence);
      PortionMonotone(strict.maxPositionFraction, Min(Scale(low, strict.minConfidence), 1.0),
                      loose.maxPositionFraction, Min(Scale(high, loose.minConfidence), 1.0));
    }
  }

  // ---- The gate ---------------------------------------------------------------------------------------------------

  /** Every switch of `strict` that is on is on in `loose`, and every threshold is at least as demanding. */
  predicate Stricter(strict: StrategiesConfig, loose: StrategiesConfig) {
    && (strict.enabled ==> loose.enabled)
    && (strict.legacyBidirectionalEnabled ==> loose.legacyBidirectionalEnabled)
    && (strict.momentumLagEnabled ==> loose.momentumLagEnabled)
    && (strict.meanReversionEnabled ==> loose.meanReversionEnabled)
    && (strict.mispricingEnabled ==> loose.mispricingEnabled)
    && (strict.autoExecuteMinConfidence.None? ==> loose.autoExecuteMinConfidence.None?)
    && strict.minConfidence >= loose.minConfidence
    && strict.maxSpreadBps <= loose.maxSpreadBps
    && strict.minLiquidityUsd >= loose.minLiquidityUsd
    && strict.minTimeToResolutionSeconds >= loose.minTimeToResolutionSeconds
    && strict.maxPositionFraction <= loose.maxPositionFraction
  }

  predicate Weaker(s: Signal, t: Signal) { t == s.(confidence := t.confidence) && s.confidence <= t.confidence }

  /** The gate is monotone in everything at once: a stricter configuration, a weaker signal and a worse market admit
      nothing that was rejected before and enlarge no admitted fraction. */
  lemma AdmissionMonotone(strict: StrategiesConfig, s: Signal, f: MarketFeatures, strictAuto: bool,
                          loose: StrategiesConfig, t: Signal, g: MarketFeatures, looseAuto: bool)
    requires Stricter(strict, loose) && Weaker(s, t) && (looseAuto ==> strictAuto)
    requires g.secondsToResolution >= f.secondsToResolution && g.liquidityUsd >= f.liquidityUsd
      && g.spreadBps <= f.spreadBps
    ensures Admit(strict, s, f, strictAuto).Admitted? ==>
      && Admit(loose, t, g, looseAuto).Admitted?
      && Admit(strict, s, f, strictAuto).fraction <= Admit(loose, t, g, looseAuto).fraction
  {
    assert HasLegacyTag(s) == HasLegacyTag(t);
    FractionMonotone(loose, strict, t.confidence, s.confidence);
  }

  /** Exactly when a signal passes, with the fraction bounded; a signal that carries a legacy tag passes only under the
      legacy switch. */
  lemma AdmittedIff(c: StrategiesConfig, s: Signal, f: MarketFeatures, auto: bool)
    ensures Admit(c, s, f, auto).Admitted? <==>
      && c.enabled && TypeEnabled(s.signalType, c) && (HasLegacyTag(s) ==> c.legacyBidirectionalEnabled)
      && s.direction != Skip && !auto && c.autoExecuteMinConfidence.None?
      && f.secondsToResolution >= c.minTimeToResolutionSeconds && f.liquidityUsd >= c.minLiquidityUsd
      && f.spreadBps <= c.maxSpreadBps && s.confidence >= c.minConfidence
    ensures Admit(c, s, f, auto).Admitted? ==>
      0.0 <= Admit(c, s, f, auto).fraction as real <= Max(c.maxPositionFraction, 0.0) * 1000000.0 + 0.5
  {
    FractionWithinCap(c, s.confidence);
  }

  /** Which code a refused signal gets, from the first condition that fails: the switches, the legacy mark by type or by
      tag, the side, automatic execution, then time, liquidity, spread and confidence. */
  lemma RejectedFor(c: StrategiesConfig, s: Signal, f: MarketFeatures, auto: bool)
    ensures var d := Admit(c, s, f, auto);
      var legacy := s.signalType == LegacyBidirectional || exists tag :: tag in s.tags && MarksLegacy(tag);
      var switchedOn := (s.signalType == MomentumLag && c.momentumLagEnabled)
        || (s.signalType == MeanReversion && c.meanReversionEnabled)
        || (s.signalType == Mispricing && c.mispricingEnabled)
        || (s.signalType == LegacyBidirectional && c.legacyBidirectionalEnabled);
      var known := c.enabled && (legacy ==> c.legacyBidirectionalEnabled);
      var tradable := known && switchedOn && (s.direction == Yes || s.direction == No);
      var manual := tradable && !auto && c.autoExecuteMinConfidence.None?;
      var timely := manual && c.minTimeToResolutionSeconds <= f.secondsToResolution;
      var liquid := timely && c.minLiquidityUsd <= f.liquidityUsd;
      var tight := liquid && f.spreadBps <= c.maxSpreadBps;
      && d.signal == s
      && (d == Rejected(s, StrategiesDisabled) <==> !c.enabled)
      && (d == Rejected(s, LegacyBidirectionalDisabled) <==> c.enabled && !known)
      && (d == Rejected(s, StrategyTypeDisabled) <==> known && !switchedOn)
      && (d == Rejected(s, SkipDirection) <==> known && switchedOn && s.direction == Skip)
      && (d == Rejected(s, AutoExecuteRequested) <==> tradable && !manual)
      && (d == Rejected(s, TimeToResolutionTooShort) <==> manual && !timely)
      && (d == Rejected(s, LiquidityTooLow) <==> timely && !liquid)
      && (d == Rejected(s, SpreadTooWide) <==> liquid && !tight)
      && (d == Rejected(s, ConfidenceBelowThreshold) <==> tight && s.confidence < c.minConfidence)
  {
    forall tag | tag in s.tags && MarksLegacy(tag) ensures exists k :: 0 <= k < |s.tags| && s.tags[k] in LEGACY_TAGS {
      var k :| 0 <= k < |s.tags| && s.tags[k] == tag;
      assert s.tags[k] in LEGACY_TAGS;
    }
    if k :| 0 <= k < |s.tags| && s.tags[k] in LEGACY_TAGS { assert s.tags[k] in s.tags && MarksLegacy(s.tags[k]); }
  }

  predicate MarksLegacy(tag: string) {
    || tag == "bidirectional" || tag == "hedge" || tag == "hedged" || tag == "dual_side" || tag == "both_sides"
    || tag == "long_short" || tag == "yes_no"
  }

  /** Up to certainty the fraction is the maximum in proportion to how far the confidence is from the threshold to
      certainty, to half a unit of the grid; the distances are multiplied out. */
  lemma FractionIsProportional(c: StrategiesConfig, confidence: real)
    requires 0.0 < c.maxPositionFraction && c.minConfidence < confidence <= 1.0 && c.minConfidence <= 0.999999
    ensures var exact := c.maxPositionFraction * 1000000.0 * (confidence - c.minConfidence);
      var whole := 1.0 - c.minConfidence;
      -0.5 * whole <= SizeFraction(c, confidence) as real * whole - exact <= 0.5 * whole
  {
    SizeIsRounded(c, confidence);
    RoundedShare(c.maxPositionFraction, confidence - c.minConfidence, 1.0 - c.minConfidence);
  }

  lemma SizeIsRounded(c: StrategiesConfig, confidence: real)
    requires 0.0 < c.maxPositionFraction && c.minConfidence < confidence <= 1.0 && c.minConfidence <= 0.999999
    ensures SizeFraction(c, confidence)
         == Portion(c.maxPositionFraction, (confidence - c.minConfidence) / (1.0 - c.minConfidence))
  {
    AtMostOne(confidence - c.minConfidence, 1.0 - c.minConfidence);
  }

  lemma AtMostOne(part: real, whole: real)
    requires 0.0 < part <= whole
    ensures 0.0 < part / whole <= 1.0
  {
  }

  lemma RoundedShare(cap: real, part: real, whole: real)
    requires whole > 0.0
    ensures -0.5 * whole <= Portion(cap, part / whole) as real * whole - cap * 1000000.0 * part <= 0.5 * whole
  {
    var exact := cap * (part / whole) * 1000000.0;
    RoundWithinHalf(exact);
    OverWhole(cap, part / whole, part, whole);
    Multiplied(Portion(cap, part / whole) as real, exact, cap * 1000000.0 * part, whole);
  }

  lemma OverWhole(cap: real, share: real, part: real, whole: real)
    requires share * whole == part
    ensures cap * share * 1000000.0 * whole == cap * 1000000.0 * part
  {
    Associative(cap, share, whole);
    SameFactor(cap, share * whole, part);
  }

  lemma Multiplied(x: real, y: real, target: real, c: real)
    requires c > 0.0 && y * c == target && -0.5 <= x - y <= 0.5
    ensures -0.5 * c <= x * c - target <= 0.5 * c
  {
    var gap := x - y;
    assert gap * c == x * c - target;
    assert -0.5 * c <= gap * c && gap * c <= 0.5 * c;
  }
}
