/** Position sizing (`bot/services/sizing.py`) and its agreement with the money limits of the risk policy. Amounts are
    dollars as reals until the final rounding to cents. */
module Sizing {
  import opened Common
  import opened Settings
  import opened Policies

  datatype SizingInput = SizingInput(
    confidence: real,
    edge: real,
    themeExposure: real,
    unresolvedExposure: real,
    liquidityUsd: real)

  /** Both sizes in cents. */
  datatype SizingResult = SizingResult(recommended: int, maxAllowed: int)

  // ---- Specification: one factor per rule -------------------------------------------------------------------------

  function Ceiling(s: Settings, unresolvedExposure: real): real {
    Min(Min(PositionCap(s), ReserveCapital(s)), Max(0.0, UnresolvedCap(s) - unresolvedExposure))
  }

  function ConfidenceFactor(s: Settings, confidence: real): real {
    Clamp((confidence - s.minConfidence) / Max(0.01, 1.0 - s.minConfidence), 0.25, 1.0)
  }

  function EdgeFactor(s: Settings, edge: real): real {
    Min(Clamp(edge / Max(s.minEdgePct, 0.01), 0.5, 1.25), 1.0)
  }

  function WithinTheme(s: Settings, themeExposure: real, size: real): real {
    if themeExposure > 0.0 then Min(size, Max(0.0, ThemeCap(s) - themeExposure)) else size
  }

  predicate Thin(s: Settings, liquidityUsd: real) { liquidityUsd < s.minLiquidityUsd * 1.5 }

  function Penalised(s: Settings, liquidityUsd: real, size: real): real {
    if Thin(s, liquidityUsd) then size * 0.75 else size
  }

  function Product(a: real, b: real, c: real): real { a * b * c }

  function Scaled(s: Settings, d: SizingInput): real {
    Product(Ceiling(s, d.unresolvedExposure), ConfidenceFactor(s, d.confidence), EdgeFactor(s, d.edge))
  }

  /** The theme cap, the liquidity penalty and the final clamp, applied to a scaled size. */
  function Limited(s: Settings, d: SizingInput, scaled: real, ceiling: real): real {
    Max(0.0, Min(Penalised(s, d.liquidityUsd, WithinTheme(s, d.themeExposure, scaled)), ceiling))
  }

  function Unrounded(s: Settings, d: SizingInput): real {
    Limited(s, d, Scaled(s, d), Ceiling(s, d.unresolvedExposure))
  }

  function ToCents(dollars: real): int { Round(dollars * 100.0) }

  function Sized(s: Settings, d: SizingInput): SizingResult {
    SizingResult(ToCents(Unrounded(s, d)), ToCents(Ceiling(s, d.unresolvedExposure)))
  }

  // ---- The engine -------------------------------------------------------------------------------------------------

  method Size(s: Settings, d: SizingInput) returns (result: SizingResult)
    ensures result == Sized(s, d)
  {
    var maxAllowed := MaxAllowedSize(s, d.unresolvedExposure);
    var size := ScaleByConviction(s, d, maxAllowed);
    size := ApplyLimits(s, d, size, maxAllowed);
    result := SizingResult(ToCents(size), ToCents(maxAllowed));
  }

  method MaxAllowedSize(s: Settings, unresolvedExposure: real) returns (maxAllowed: real)
    ensures maxAllowed == Ceiling(s, unresolvedExposure)
  {
    var baseSize := s.bankroll * s.maxPositionPct;
    var reserveCapital := s.bankroll * (1.0 - s.reserveRatio);
    var unresolvedCap := s.bankroll * s.maxUnresolvedExposurePct;
    maxAllowed := Min(Min(baseSize, reserveCapital), Max(0.0, unresolvedCap - unresolvedExposure));
  }

  /** The confidence and edge multipliers. */
  method ScaleByConviction(s: Settings, d: SizingInput, maxAllowed: real) returns (size: real)
    ensures size == Product(maxAllowed, ConfidenceFactor(s, d.confidence), EdgeFactor(s, d.edge))
  {
    var confidenceRatio := Clamp((d.confidence - s.minConfidence) / Max(0.01, 1.0 - s.minConfidence), 0.25, 1.0);
    assert confidenceRatio == ConfidenceFactor(s, d.confidence);
    size := maxAllowed * confidenceRatio;
    var edgeRatio := Clamp(d.edge / Max(s.minEdgePct, 0.01), 0.5, 1.25);
    assert Min(edgeRatio, 1.0) == EdgeFactor(s, d.edge);
    size := size * Min(edgeRatio, 1.0);
  }

  /** The theme cap, the liquidity penalty and the final clamp. */
  method ApplyLimits(s: Settings, d: SizingInput, scaled: real, maxAllowed: real) returns (size: real)
    ensures size == Limited(s, d, scaled, maxAllowed)
  {
    size := scaled;
    if d.themeExposure > 0.0 {
      var room := Max(0.0, s.bankroll * s.maxThemeExposurePct - d.themeExposure);
      size := Min(size, room);
    }
    if d.liquidityUsd < s.minLiquidityUsd * 1.5 {
      size := size * 0.75;
    }
    size := Max(0.0, Min(size, maxAllowed));
  }

  // ---- Bounds -----------------------------------------------------------------------------------------------------

  lemma CeilingBounds(s: Settings, unresolvedExposure: real)
    requires Validated(s)
    ensures var ceiling := Ceiling(s, unresolvedExposure);
      0.0 <= ceiling <= PositionCap(s) && ceiling <= ReserveCapital(s)
      && ceiling <= Max(0.0, UnresolvedCap(s) - unresolvedExposure)
  {
    ValidatedCaps(s);
  }

  lemma FactorBounds(s: Settings, d: SizingInput)
    ensures 0.25 <= ConfidenceFactor(s, d.confidence) <= 1.0
    ensures 0.5 <= EdgeFactor(s, d.edge) <= 1.0
  {
  }

  lemma ToCentsMonotone(a: real, b: real)
    requires a <= b
    ensures ToCents(a) <= ToCents(b)
  {
    RoundMonotone(a * 100.0, b * 100.0);
  }

  lemma ToCentsWithinHalf(dollars: real)
    ensures -0.005 <= Dollars(ToCents(dollars)) - dollars <= 0.005
  {
    RoundWithinHalf(dollars * 100.0);
  }

  /** Whole-cent amounts survive the rounding to cents. */
  predicate WholeCents(dollars: real) { Dollars(ToCents(dollars)) == dollars }

  lemma UnroundedBounds(s: Settings, d: SizingInput)
    requires Validated(s)
    ensures 0.0 <= Unrounded(s, d) <= Ceiling(s, d.unresolvedExposure)
    ensures d.themeExposure > 0.0 ==> Unrounded(s, d) <= Max(0.0, ThemeCap(s) - d.themeExposure)
  {
    CeilingBounds(s, d.unresolvedExposure);
    LimitedBounds(s, d, Scaled(s, d), Ceiling(s, d.unresolvedExposure));
  }

  /** Whatever the size before it, the theme rule, the penalty and the clamp leave at most the ceiling and the room. */
  lemma LimitedBounds(s: Settings, d: SizingInput, scaled: real, ceiling: real)
    requires ceiling >= 0.0
    ensures 0.0 <= Limited(s, d, scaled, ceiling) <= ceiling
    ensures d.themeExposure > 0.0 ==> Limited(s, d, scaled, ceiling) <= Max(0.0, ThemeCap(s) - d.themeExposure)
  {
  }

  /** The recommendation lies between zero and the allowed maximum it is returned with. */
  lemma RecommendedWithinAllowed(s: Settings, d: SizingInput)
    requires Validated(s)
    ensures 0 <= Sized(s, d).recommended <= Sized(s, d).maxAllowed
  {
    UnroundedBounds(s, d);
    ToCentsMonotone(0.0, Unrounded(s, d));
    ToCentsMonotone(Unrounded(s, d), Ceiling(s, d.unresolvedExposure));
    RoundFixesGrid(0);
  }

  // ---- Monotonicity -----------------------------------------------------------------------------------------------

  /** `e` is at least as good a case for trading as `d`: more confidence, edge and liquidity, less exposure. */
  predicate AtLeastAsFavourable(d: SizingInput, e: SizingInput) {
    && d.confidence <= e.confidence && d.edge <= e.edge && d.liquidityUsd <= e.liquidityUsd
    && e.themeExposure <= d.themeExposure && e.unresolvedExposure <= d.unresolvedExposure
  }

  lemma QuotientMonotone(a: real, b: real, c: real)
    requires a <= b && c > 0.0
    ensures a / c <= b / c
  {
  }

  lemma FactorsMonotone(s: Settings, d: SizingInput, e: SizingInput)
    requires d.confidence <= e.confidence && d.edge <= e.edge
    ensures ConfidenceFactor(s, d.confidence) <= ConfidenceFactor(s, e.confidence)
    ensures EdgeFactor(s, d.edge) <= EdgeFactor(s, e.edge)
  {
    QuotientMonotone(d.confidence - s.minConfidence, e.confidence - s.minConfidence, Max(0.01, 1.0 - s.minConfidence));
    QuotientMonotone(d.edge, e.edge, Max(s.minEdgePct, 0.01));
  }

  lemma ProductMonotone(a: real, b: real, c: real, a': real, b': real, c': real)
    requires 0.0 <= a <= a' && 0.0 <= b <= b' && 0.0 <= c <= c'
    ensures 0.0 <= Product(a, b, c) <= Product(a', b', c')
  {
    PairMonotone(a, b, a', b');
    PairMonotone(a * b, c, a' * b', c');
  }

  lemma PairMonotone(a: real, b: real, a': real, b': real)
    requires 0.0 <= a <= a' && 0.0 <= b <= b'
    ensures 0.0 <= a * b <= a' * b'
  {
    MulMonotone(0.0, a, b);
    MulMonotone(a, a', b);
    MulMonotone(b, b', a');
  }

  lemma LimitedMonotone(s: Settings, d: SizingInput, e: SizingInput, x: real, x': real, ceiling: real, ceiling': real)
    requires AtLeastAsFavourable(d, e) && 0.0 <= x <= x' && 0.0 <= ceiling <= ceiling'
    ensures Limited(s, d, x, ceiling) <= Limited(s, e, x', ceiling')
  {
    assert 0.0 <= WithinTheme(s, d.themeExposure, x) <= WithinTheme(s, e.themeExposure, x');
  }

  lemma ScaledMonotone(s: Settings, d: SizingInput, e: SizingInput)
    requires Validated(s) && AtLeastAsFavourable(d, e)
    ensures 0.0 <= Ceiling(s, d.unresolvedExposure) <= Ceiling(s, e.unresolvedExposure)
    ensures 0.0 <= Scaled(s, d) <= Scaled(s, e)
  {
    CeilingMonotone(s, d.unresolvedExposure, e.unresolvedExposure);
    FactorBounds(s, d);
    FactorsMonotone(s, d, e);
    ProductMonotone(Ceiling(s, d.unresolvedExposure), ConfidenceFactor(s, d.confidence), EdgeFactor(s, d.edge),
                    Ceiling(s, e.unresolvedExposure), ConfidenceFactor(s, e.confidence), EdgeFactor(s, e.edge));
  }

  lemma CeilingMonotone(s: Settings, more: real, less: real)
    requires Validated(s) && less <= more
    ensures 0.0 <= Ceiling(s, more) <= Ceiling(s, less)
  {
    CeilingBounds(s, more);
  }

  /** The recommended size never falls when confidence, edge or liquidity rises or an exposure falls, through every
      clamp, product, cap, penalty and the rounding; nor does the allowed maximum. */
  lemma SizingMonotone(s: Settings, d: SizingInput, e: SizingInput)
    requires Validated(s) && AtLeastAsFavourable(d, e)
    ensures Sized(s, d).recommended <= Sized(s, e).recommended
    ensures Sized(s, d).maxAllowed <= Sized(s, e).maxAllowed
  {
    ScaledMonotone(s, d, e);
    LimitedMonotone(s, d, e, Scaled(s, d), Scaled(s, e), Ceiling(s, d.unresolvedExposure),
        Ceiling(s, e.unresolvedExposure));
    ToCentsMonotone(Unrounded(s, d), Unrounded(s, e));
    ToCentsMonotone(Ceiling(s, d.unresolvedExposure), Ceiling(s, e.unresolvedExposure));
  }

  // ---- Agreement with the risk policy -----------------------------------------------------------------------------

  predicate ExposuresWithinCaps(s: Settings, d: SizingInput) {
    d.unresolvedExposure <= UnresolvedCap(s) && d.themeExposure <= ThemeCap(s)
  }

  /** Dollars the three money limits still leave for a new position. */
  function Room(s: Settings, d: SizingInput): real {
    Min(PositionCap(s), Min(UnresolvedCap(s) - d.unresolvedExposure, ThemeCap(s) - d.themeExposure))
  }

  /** The size before rounding fits the room. Without theme exposure this rests on the configuration check that one
      position may not exceed a theme. */
  lemma UnroundedFitsRoom(s: Settings, d: SizingInput)
    requires Validated(s) && ExposuresWithinCaps(s, d)
    ensures 0.0 <= Unrounded(s, d) <= Room(s, d)
  {
    ValidatedCaps(s);
    CeilingBounds(s, d.unresolvedExposure);
    UnroundedBounds(s, d);
  }

  /** The recommendation breaks none of the three money limits of the risk policy by more than half a cent. */
  lemma RecommendedFitsRoom(s: Settings, d: SizingInput)
    requires Validated(s) && ExposuresWithinCaps(s, d)
    ensures var size := Dollars(Sized(s, d).recommended);
      && d.unresolvedExposure + size <= UnresolvedCap(s) + 0.005
      && d.themeExposure + size <= ThemeCap(s) + 0.005
      && size <= PositionCap(s) + 0.005
  {
    UnroundedFitsRoom(s, d);
    ToCentsWithinHalf(Unrounded(s, d));
  }

  /** When the caps and exposures leave whole cents, a freshly sized proposal passes all three money limits exactly. */
  lemma WholeCentsPassMoneyLimits(s: Settings, d: SizingInput, c: Context)
    requires Validated(s) && ExposuresWithinCaps(s, d)
    requires WholeCents(PositionCap(s)) && WholeCents(UnresolvedCap(s) - d.unresolvedExposure)
    requires WholeCents(ThemeCap(s) - d.themeExposure)
    requires c.unresolvedExposure == d.unresolvedExposure && c.themeExposure == d.themeExposure
    requires c.proposedSize == Sized(s, d).recommended
    ensures WithinMoneyLimits(s, c)
  {
    UnroundedFitsRoom(s, d);
    ToCentsMonotone(Unrounded(s, d), PositionCap(s));
    ToCentsMonotone(Unrounded(s, d), UnresolvedCap(s) - d.unresolvedExposure);
    ToCentsMonotone(Unrounded(s, d), ThemeCap(s) - d.themeExposure);
  }

  /** Once the unresolved exposure has used up its cap, or positive theme exposure its own, nothing is recommended. */
  lemma NothingBeyondCaps(s: Settings, d: SizingInput)
    requires Validated(s)
    requires d.unresolvedExposure >= UnresolvedCap(s) || (d.themeExposure > 0.0 && d.themeExposure >= ThemeCap(s))
    ensures Sized(s, d).recommended == 0
  {
    CeilingBounds(s, d.unresolvedExposure);
    UnroundedBounds(s, d);
    assert Unrounded(s, d) == 0.0;
    RoundFixesGrid(0);
  }

  /** A configuration that passes every check but the one relating a position to a theme. */
  predicate ValidatedButThemeCheck(s: Settings) {
    Validated(s.(maxThemeExposurePct := 1.0)) && Ratio(s.maxThemeExposurePct)
  }

  /** Without that check, sizing keeps a proposal with no theme exposure inside the theme limit exactly when the
      ceiling it sizes from is already inside it. */
  lemma ThemeLimitWithoutExposure(s: Settings, unresolvedExposure: real)
    requires ValidatedButThemeCheck(s)
    ensures Ceiling(s, unresolvedExposure) <= ThemeCap(s) <==>
      forall d: SizingInput :: d.themeExposure == 0.0 && d.unresolvedExposure == unresolvedExposure
        ==> Unrounded(s, d) <= ThemeCap(s)
  {
    var ceiling := Ceiling(s, unresolvedExposure);
    CeilingBounds(s.(maxThemeExposurePct := 1.0), unresolvedExposure);
    forall d: SizingInput | d.unresolvedExposure == unresolvedExposure
      ensures Unrounded(s, d) <= ceiling
    {
      LimitedBounds(s, d, Scaled(s, d), ceiling);
    }
    var certain := SizingInput(s.minConfidence + 1.0, 1.25 * Max(s.minEdgePct, 0.01), 0.0, unresolvedExposure,
                               s.minLiquidityUsd * 1.5);
    FullConviction(s, certain);
    assert Scaled(s, certain) == ceiling;
    assert Unrounded(s, certain) == ceiling;
  }

  lemma FullConviction(s: Settings, d: SizingInput)
    requires Validated(s.(maxThemeExposurePct := 1.0))
    requires d.confidence == s.minConfidence + 1.0 && d.edge == 1.25 * Max(s.minEdgePct, 0.01)
    ensures ConfidenceFactor(s, d.confidence) == 1.0 && EdgeFactor(s, d.edge) == 1.0
  {
    AtLeastOne(d.confidence - s.minConfidence, Max(0.01, 1.0 - s.minConfidence));
    AtLeastOne(d.edge, Max(s.minEdgePct, 0.01));
  }

  lemma AtLeastOne(a: real, b: real)
    requires a >= b > 0.0
    ensures a / b >= 1.0
  {
  }

  // ---- The whole recommendation, from the inputs ------------------------------------------------------------------

  /** How far the confidence is from the minimum towards certainty, between a quarter and all of the way. */
  predicate ConvictionIs(s: Settings, confidence: real, share: real) {
    var above, span := confidence - s.minConfidence, if s.minConfidence <= 0.99 then 1.0 - s.minConfidence else 0.01;
    if 4.0 * above <= span then share == 0.25
    else if above >= span then share == 1.0
    else share * span == above
  }

  /** How far the edge reaches towards the configured minimum, between half and all of it. */
  predicate EdgeReaches(s: Settings, edge: real, share: real) {
    var minimum := if s.minEdgePct >= 0.01 then s.minEdgePct else 0.01;
    if 2.0 * edge <= minimum then share == 0.5
    else if edge >= minimum then share == 1.0
    else share * minimum == edge
  }

  /** The three capital limits of a position, in dollars. */
  predicate IsCapital(s: Settings, unresolvedExposure: real, capital: real) {
    var left := s.bankroll * s.maxUnresolvedExposurePct - unresolvedExposure;
    && capital <= s.bankroll * s.maxPositionPct && capital <= s.bankroll * (1.0 - s.reserveRatio)
    && capital <= (if left > 0.0 then left else 0.0)
    && capital in [s.bankroll * s.maxPositionPct, s.bankroll * (1.0 - s.reserveRatio), if left > 0.0 then left else 0.0]
  }

  lemma ConvictionMatches(s: Settings, confidence: real)
    ensures ConvictionIs(s, confidence, ConfidenceFactor(s, confidence))
  {
    RatioClamped(confidence - s.minConfidence, Max(0.01, 1.0 - s.minConfidence));
  }

  lemma RatioClamped(above: real, span: real)
    requires span > 0.0
    ensures var ratio := Clamp(above / span, 0.25, 1.0);
      if 4.0 * above <= span then ratio == 0.25 else if above >= span then ratio == 1.0 else ratio * span == above
    ensures var ratio := Min(Clamp(above / span, 0.5, 1.25), 1.0);
      if 2.0 * above <= span then ratio == 0.5 else if above >= span then ratio == 1.0 else ratio * span == above
  {
    var q := above / span;
    assert q * span == above;
    RatioSteps(q, above, span);
    SameProduct(q, Clamp(q, 0.25, 1.0), span);
    SameProduct(q, Min(Clamp(q, 0.5, 1.25), 1.0), span);
  }

  lemma RatioSteps(q: real, above: real, span: real)
    requires span > 0.0 && q * span == above
    ensures q <= 0.25 <==> 4.0 * above <= span
    ensures q <= 0.5 <==> 2.0 * above <= span
    ensures 1.0 <= q <==> span <= above
  {
    OrderedAt(q, 0.25, span, above, 0.25 * span);
    OrderedAt(q, 0.5, span, above, 0.5 * span);
    OrderedAt(q, 1.0, span, above, span);
  }

  lemma OrderedAt(q: real, bound: real, span: real, above: real, limit: real)
    requires span > 0.0 && q * span == above && bound * span == limit
    ensures q <= bound <==> above <= limit
    ensures bound <= q <==> limit <= above
  {
    Ordered(q, bound, span);
    Ordered(bound, q, span);
  }

  lemma SameProduct(x: real, y: real, span: real)
    ensures x == y ==> x * span == y * span
  {
  }

  lemma Ordered(q: real, bound: real, span: real)
    requires span > 0.0
    ensures q <= bound <==> q * span <= bound * span
    ensures q < bound <==> q * span < bound * span
  {
    if q <= bound { MulMonotone(q, bound, span); }
    if q > bound { assert (q - bound) * span > 0.0; }
    if q < bound { assert (bound - q) * span > 0.0; }
  }

  lemma EdgeMatches(s: Settings, edge: real)
    ensures EdgeReaches(s, edge, EdgeFactor(s, edge))
  {
    RatioClamped(edge, Max(s.minEdgePct, 0.01));
  }

  /** The dollars recommended before rounding: the capital, times the conviction and the reach of the edge, held within
      what the theme has left if it has exposure at all, and less a quarter when liquidity is below one and a half times
      the minimum. */
  function Recommendation(s: Settings, d: SizingInput, capital: real, conviction: real, reach: real): real {
    var scaled := capital * conviction * reach;
    var left := s.bankroll * s.maxThemeExposurePct - d.themeExposure;
    var held :=
      if d.themeExposure <= 0.0 || scaled <= left then scaled
      else if left > 0.0 then left
      else 0.0;
    if 2.0 * d.liquidityUsd < 3.0 * s.minLiquidityUsd then 0.75 * held else held
  }

  /** The recommendation and the allowed maximum of every input, to half a cent, by the plain description: for the
      capital, the conviction and the reach of the edge as they are defined, and they are defined uniquely. */
  lemma RecommendationOfEachInput(s: Settings, d: SizingInput, capital: real, conviction: real, reach: real)
    requires Validated(s)
    requires IsCapital(s, d.unresolvedExposure, capital)
    requires ConvictionIs(s, d.confidence, conviction) && EdgeReaches(s, d.edge, reach)
    ensures -0.5 <= Sized(s, d).maxAllowed as real - capital * 100.0 <= 0.5
    ensures -0.5 <= Sized(s, d).recommended as real - Recommendation(s, d, capital, conviction, reach) * 100.0 <= 0.5
  {
    ConvictionMatches(s, d.confidence);
    EdgeMatches(s, d.edge);
    SharesAreUnique(s, d, conviction, reach);
    FactorBounds(s, d);
    CeilingBounds(s, d.unresolvedExposure);
    assert capital == Ceiling(s, d.unresolvedExposure);
    ScaledWithin(capital, conviction, reach);
    LimitedIsRecommended(s, d, capital, Product(capital, conviction, reach));
    RoundWithinHalf(capital * 100.0);
    RoundWithinHalf(Unrounded(s, d) * 100.0);
  }

  lemma SharesAreUnique(s: Settings, d: SizingInput, conviction: real, reach: real)
    requires ConvictionIs(s, d.confidence, conviction) && EdgeReaches(s, d.edge, reach)
    ensures conviction == ConfidenceFactor(s, d.confidence) && reach == EdgeFactor(s, d.edge)
  {
    ConvictionMatches(s, d.confidence);
    EdgeMatches(s, d.edge);
    var span, minimum := Max(0.01, 1.0 - s.minConfidence), Max(s.minEdgePct, 0.01);
    SameQuotient(conviction, ConfidenceFactor(s, d.confidence), span);
    SameQuotient(reach, EdgeFactor(s, d.edge), minimum);
  }

  lemma SameQuotient(x: real, y: real, span: real)
    requires span > 0.0
    ensures x * span == y * span ==> x == y
  {
    Ordered(x, y, span);
    Ordered(y, x, span);
  }

  lemma ScaledWithin(capital: real, a: real, b: real)
    requires capital >= 0.0 && 0.0 <= a <= 1.0 && 0.0 <= b <= 1.0
    ensures 0.0 <= Product(capital, a, b) <= capital
  {
    PairMonotone(capital, a, capital, 1.0);
    PairMonotone(capital * a, b, capital, 1.0);
  }

  lemma LimitedIsRecommended(s: Settings, d: SizingInput, capital: real, scaled: real)
    requires 0.0 <= scaled <= capital
    ensures var left := ThemeCap(s) - d.themeExposure;
      var held := if d.themeExposure <= 0.0 || scaled <= left then scaled else if left > 0.0 then left else 0.0;
      Limited(s, d, scaled, capital) == if 2.0 * d.liquidityUsd < 3.0 * s.minLiquidityUsd then 0.75 * held else held
  {
  }

  /** One input in full: a bankroll of 1000 with positions of a tenth, confidence at the minimum, and everything else at
      its best: a quarter of the 100 dollars allowed. */
  lemma QuarterAtTheMinimum(s: Settings)
    requires Validated(s) && s.bankroll == 1000.0 && s.maxPositionPct == 0.1 && s.reserveRatio == 0.2
    requires s.maxUnresolvedExposurePct == 0.5 && s.minConfidence == 0.7 && s.minEdgePct == 0.05
    requires s.minLiquidityUsd == 1000.0
    ensures Sized(s, SizingInput(0.7, 0.1, 0.0, 0.0, 50000.0)) == SizingResult(2500, 10000)
  {
    RecommendationOfEachInput(s, SizingInput(0.7, 0.1, 0.0, 0.0, 50000.0), 100.0, 0.25, 1.0);
  }
}
