/** The four policies and their conjunction (`bot/policies`). Each appends its rejection reasons to a list; a
    proposal is allowed when no policy has a reason. */
module Policies {
  import opened Settings

  datatype Reason =
    | MarketCategoryBlocked
    | MarketNotWhitelisted
    | MarketBlacklisted
    | LiquidityTooLow
    | SpreadTooWide
    | TimeToResolutionTooShort
    | RulesUnclear
    | OrderbookRequired
    | ConfidenceBelowThreshold
    | EdgeBelowThreshold
    | ModelAgreementTooLow
    | TrustedSourceRequired
    | SourceTypeNotAllowed
    | OrderTypeNotAllowed
    | StaleData
    | KillSwitchActive
    | TooManyOpenPositions
    | UnresolvedExposureTooHigh
    | ThemeExposureTooHigh
    | ProposalSizeExceedsLimit

  datatype Market = Market(
    marketId: string,
    title: string,
    category: string,
    liquidityUsd: real,
    spreadPct: real,
    resolutionTime: int,
    rulesConfidence: real,
    hasOrderbook: bool)

  datatype ProbabilityEstimate = ProbabilityEstimate(
    fairProbability: real,
    confidence: real,
    modelAgreement: int,
    trustedSourcePresent: bool,
    sourceTypes: seq<SourceType>)

  /** Times are in seconds; `proposedSize` is in cents. */
  datatype Context = Context(
    market: Market,
    probability: ProbabilityEstimate,
    currentPrice: real,
    openPositions: int,
    unresolvedExposure: real,
    themeExposure: real,
    orderType: string,
    dataAgeSeconds: int,
    now: int,
    edge: real,
    proposedSize: int)

  const STALE_AFTER_SECONDS: int := 120

  function Dollars(cents: int): real { cents as real / 100.0 }

  // ---- Conditions -------------------------------------------------------------------------------------------------

  /** ASCII lower-casing; category and title matching in the source goes through `str.lower`. */
  function Lower(s: string): (r: string)
    ensures |r| == |s|
  {
    seq(|s|, i requires 0 <= i < |s| =>
      if 'A' <= s[i] <= 'Z' then ((s[i] as int) + 32) as char else s[i])
  }

  predicate Contains(haystack: string, needle: string) {
    exists i :: 0 <= i <= |haystack| && needle <= haystack[i..]
  }

  predicate TitleBlocked(patterns: seq<string>, title: string) {
    exists i :: 0 <= i < |patterns| && Contains(Lower(title), Lower(patterns[i]))
  }

  predicate AllAllowed(types: seq<SourceType>, allowed: seq<SourceType>) {
    forall i :: 0 <= i < |types| ==> types[i] in allowed
  }

  predicate MarketAllowed(s: Settings, c: Context) {
    && c.market.category !in s.blockedCategories
    && c.market.category in s.allowedCategories
    && (s.allowedMarketIds == [] || c.market.marketId in s.allowedMarketIds)
    && c.market.marketId !in s.blockedMarketIds
    && !TitleBlocked(s.blockedPatterns, c.market.title)
    && s.minLiquidityUsd <= c.market.liquidityUsd
    && c.market.spreadPct <= s.maxSpreadPct
    && s.minHoursToResolution * 3600.0 <= (c.market.resolutionTime - c.now) as real
    && (s.requireClearRules ==> s.minRulesConfidence <= c.market.rulesConfidence)
    && (s.requireOrderbook ==> c.market.hasOrderbook)
  }

  predicate WithinMoneyLimits(s: Settings, c: Context) {
    && c.unresolvedExposure + Dollars(c.proposedSize) <= UnresolvedCap(s)
    && c.themeExposure + Dollars(c.proposedSize) <= ThemeCap(s)
    && Dollars(c.proposedSize) <= PositionCap(s)
  }

  predicate RiskAllowed(s: Settings, c: Context) {
    c.openPositions < s.maxOpenPositions && WithinMoneyLimits(s, c)
  }

  predicate ExecutionAllowed(s: Settings, c: Context) {
    s.killSwitchEnabled && c.orderType == s.orderType && c.dataAgeSeconds <= STALE_AFTER_SECONDS
  }

  predicate AIAllowed(s: Settings, c: Context) {
    && s.minConfidence <= c.probability.confidence
    && s.minEdgePct <= c.edge
    && s.minModelAgreement <= c.probability.modelAgreement
    && (s.requireTrustedSource ==> c.probability.trustedSourcePresent)
    && AllAllowed(c.probability.sourceTypes, s.allowedSourceTypes)
  }

  predicate Allowed(s: Settings, c: Context) {
    MarketAllowed(s, c) && RiskAllowed(s, c) && ExecutionAllowed(s, c) && AIAllowed(s, c)
  }

  // ---- Reason lists -----------------------------------------------------------------------------------------------

  function When(condition: bool, reason: Reason): seq<Reason> {
    if condition then [reason] else []
  }

  function ListReasons(s: Settings, c: Context): seq<Reason> {
    When(c.market.category in s.blockedCategories, MarketCategoryBlocked)
    + When(c.market.category !in s.allowedCategories, MarketNotWhitelisted)
    + When(s.allowedMarketIds != [] && c.market.marketId !in s.allowedMarketIds, MarketNotWhitelisted)
    + When(s.blockedMarketIds != [] && c.market.marketId in s.blockedMarketIds, MarketBlacklisted)
    + When(TitleBlocked(s.blockedPatterns, c.market.title), MarketBlacklisted)
  }

  function ThresholdReasons(s: Settings, c: Context): seq<Reason> {
    When(c.market.liquidityUsd < s.minLiquidityUsd, LiquidityTooLow)
    + When(c.market.spreadPct > s.maxSpreadPct, SpreadTooWide)
    + When((c.market.resolutionTime - c.now) as real < s.minHoursToResolution * 3600.0, TimeToResolutionTooShort)
    + When(s.requireClearRules && c.market.rulesConfidence < s.minRulesConfidence, RulesUnclear)
    + When(s.requireOrderbook && !c.market.hasOrderbook, OrderbookRequired)
  }

  function MarketReasons(s: Settings, c: Context): seq<Reason> {
    ListReasons(s, c) + ThresholdReasons(s, c)
  }

  function RiskReasons(s: Settings, c: Context): seq<Reason> {
    When(c.openPositions >= s.maxOpenPositions, TooManyOpenPositions)
    + When(c.unresolvedExposure + Dollars(c.proposedSize) > UnresolvedCap(s), UnresolvedExposureTooHigh)
    + When(c.themeExposure + Dollars(c.proposedSize) > ThemeCap(s), ThemeExposureTooHigh)
    + When(Dollars(c.proposedSize) > PositionCap(s), ProposalSizeExceedsLimit)
  }

  function ExecutionReasons(s: Settings, c: Context): seq<Reason> {
    When(!s.killSwitchEnabled, KillSwitchActive)
    + When(c.orderType != s.orderType, OrderTypeNotAllowed)
    + When(c.dataAgeSeconds > STALE_AFTER_SECONDS, StaleData)
  }

  function AIReasons(s: Settings, c: Context): seq<Reason> {
    When(c.probability.confidence < s.minConfidence, ConfidenceBelowThreshold)
    + When(c.edge < s.minEdgePct, EdgeBelowThreshold)
    + When(c.probability.modelAgreement < s.minModelAgreement, ModelAgreementTooLow)
    + When(s.requireTrustedSource && !c.probability.trustedSourcePresent, TrustedSourceRequired)
    + When(!AllAllowed(c.probability.sourceTypes, s.allowedSourceTypes), SourceTypeNotAllowed)
  }

  /** Every reason of the composite policy, in the order the policies are asked. */
  function Reasons(s: Settings, c: Context): seq<Reason> {
    Flatten([MarketReasons(s, c), RiskReasons(s, c), ExecutionReasons(s, c), AIReasons(s, c)])
  }

  function Flatten(lists: seq<seq<Reason>>): (r: seq<Reason>)
    ensures r == [] <==> forall i :: 0 <= i < |lists| ==> lists[i] == []
  {
    if lists == [] then [] else lists[0] + Flatten(lists[1..])
  }

  // ---- The policies -----------------------------------------------------------------------------------------------

  method AppendIf(reasons: seq<Reason>, condition: bool, reason: Reason) returns (r: seq<Reason>)
    ensures r == reasons + When(condition, reason)
  {
    r := reasons;
    if condition { r := r + [reason]; }
  }

  method EvaluateMarket(s: Settings, c: Context) returns (reasons: seq<Reason>)
    ensures reasons == MarketReasons(s, c)
    ensures reasons == [] <==> MarketAllowed(s, c)
  {
    reasons := CheckLists(s, c);
    var thresholds := CheckThresholds(s, c);
    reasons := reasons + thresholds;
    NoMarketReasons(s, c);
  }

  /** The first half of the market policy: categories, whitelist and blacklist. */
  method CheckLists(s: Settings, c: Context) returns (reasons: seq<Reason>)
    ensures reasons == ListReasons(s, c)
  {
    reasons := AppendIf([], c.market.category in s.blockedCategories, MarketCategoryBlocked);
    assert reasons == When(c.market.category in s.blockedCategories, MarketCategoryBlocked);
    reasons := AppendIf(reasons, c.market.category !in s.allowedCategories, MarketNotWhitelisted);
    reasons := AppendIf(reasons, s.allowedMarketIds != []
      && c.market.marketId !in s.allowedMarketIds, MarketNotWhitelisted);
    reasons := AppendIf(reasons, s.blockedMarketIds != []
      && c.market.marketId in s.blockedMarketIds, MarketBlacklisted);
    reasons := AppendIf(reasons, TitleBlocked(s.blockedPatterns, c.market.title), MarketBlacklisted);
  }

  /** The second half: liquidity, spread, time to resolution, rules and order book. */
  method CheckThresholds(s: Settings, c: Context) returns (reasons: seq<Reason>)
    ensures reasons == ThresholdReasons(s, c)
  {
    reasons := AppendIf([], c.market.liquidityUsd < s.minLiquidityUsd, LiquidityTooLow);
    assert reasons == When(c.market.liquidityUsd < s.minLiquidityUsd, LiquidityTooLow);
    reasons := AppendIf(reasons, c.market.spreadPct > s.maxSpreadPct, SpreadTooWide);
    var remaining := c.market.resolutionTime - c.now;
    reasons := AppendIf(reasons, remaining as real < s.minHoursToResolution * 3600.0, TimeToResolutionTooShort);
    reasons := AppendIf(reasons, s.requireClearRules && c.market.rulesConfidence < s.minRulesConfidence, RulesUnclear);
    reasons := AppendIf(reasons, s.requireOrderbook && !c.market.hasOrderbook, OrderbookRequired);
  }

  method EvaluateRisk(s: Settings, c: Context) returns (reasons: seq<Reason>)
    ensures reasons == RiskReasons(s, c)
    ensures reasons == [] <==> RiskAllowed(s, c)
  {
    reasons := AppendIf([], c.openPositions >= s.maxOpenPositions, TooManyOpenPositions);
    assert reasons == When(c.openPositions >= s.maxOpenPositions, TooManyOpenPositions);
    var size := Dollars(c.proposedSize);
    reasons := AppendIf(reasons, c.unresolvedExposure + size > s.bankroll * s.maxUnresolvedExposurePct,
                        UnresolvedExposureTooHigh);
    reasons := AppendIf(reasons, c.themeExposure + size > s.bankroll * s.maxThemeExposurePct, ThemeExposureTooHigh);
    reasons := AppendIf(reasons, size > s.bankroll * s.maxPositionPct, ProposalSizeExceedsLimit);
    NoOtherReasons(s, c);
  }

  method EvaluateExecution(s: Settings, c: Context) returns (reasons: seq<Reason>)
    ensures reasons == ExecutionReasons(s, c)
    ensures reasons == [] <==> ExecutionAllowed(s, c)
  {
    reasons := AppendIf([], !s.killSwitchEnabled, KillSwitchActive);
    assert reasons == When(!s.killSwitchEnabled, KillSwitchActive);
    reasons := AppendIf(reasons, c.orderType != s.orderType, OrderTypeNotAllowed);
    reasons := AppendIf(reasons, c.dataAgeSeconds > STALE_AFTER_SECONDS, StaleData);
    NoOtherReasons(s, c);
  }

  method EvaluateAI(s: Settings, c: Context) returns (reasons: seq<Reason>)
    ensures reasons == AIReasons(s, c)
    ensures reasons == [] <==> AIAllowed(s, c)
  {
    reasons := AppendIf([], c.probability.confidence < s.minConfidence, ConfidenceBelowThreshold);
    assert reasons == When(c.probability.confidence < s.minConfidence, ConfidenceBelowThreshold);
    reasons := AppendIf(reasons, c.edge < s.minEdgePct, EdgeBelowThreshold);
    reasons := AppendIf(reasons, c.probability.modelAgreement < s.minModelAgreement, ModelAgreementTooLow);
    reasons := AppendIf(reasons, s.requireTrustedSource && !c.probability.trustedSourcePresent, TrustedSourceRequired);
    var types := c.probability.sourceTypes;
    var foreign := exists i :: 0 <= i < |types| && types[i] !in s.allowedSourceTypes;
    reasons := AppendIf(reasons, foreign, SourceTypeNotAllowed);
    NoOtherReasons(s, c);
  }

  /** The composite policy: it collects every policy's reasons and allows exactly what meets all their conditions. */
  method EvaluateAll(s: Settings, c: Context) returns (reasons: seq<Reason>)
    ensures reasons == Reasons(s, c)
    ensures reasons == [] <==> Allowed(s, c)
  {
    var market := EvaluateMarket(s, c);
    var risk := EvaluateRisk(s, c);
    var execution := EvaluateExecution(s, c);
    var ai := EvaluateAI(s, c);
    reasons := Collect([market, risk, execution, ai]);
    NoReasonsIffAllowed(s, c);
  }

  method Collect(decisions: seq<seq<Reason>>) returns (reasons: seq<Reason>)
    ensures reasons == Flatten(decisions)
  {
    reasons := [];
    var i := 0;
    while i < |decisions|
      invariant 0 <= i <= |decisions|
      invariant Flatten(decisions) == reasons + Flatten(decisions[i..])
    {
      assert decisions[i..][1..] == decisions[i + 1..];
      reasons := reasons + decisions[i];
      i := i + 1;
    }
  }

  lemma NoReasonsIffAllowed(s: Settings, c: Context)
    ensures Reasons(s, c) == [] <==> Allowed(s, c)
  {
    NoMarketReasons(s, c);
    NoOtherReasons(s, c);
    var lists := [MarketReasons(s, c), RiskReasons(s, c), ExecutionReasons(s, c), AIReasons(s, c)];
    assert Reasons(s, c) == [] ==> lists[0] == [] && lists[1] == [] && lists[2] == [] && lists[3] == [];
  }

  lemma NoMarketReasons(s: Settings, c: Context)
    ensures MarketReasons(s, c) == [] <==> MarketAllowed(s, c)
  {
  }

  lemma NoOtherReasons(s: Settings, c: Context)
    ensures RiskReasons(s, c) == [] <==> RiskAllowed(s, c)
    ensures ExecutionReasons(s, c) == [] <==> ExecutionAllowed(s, c)
    ensures AIReasons(s, c) == [] <==> AIAllowed(s, c)
  {
  }

  /** What each reason means. */
  predicate Means(reason: Reason, s: Settings, c: Context) {
    var m, p := c.market, c.probability;
    var dollars := c.proposedSize as real / 100.0;
    match reason
    case MarketCategoryBlocked => m.category in s.blockedCategories
    case MarketNotWhitelisted =>
      m.category !in s.allowedCategories || (s.allowedMarketIds != [] && m.marketId !in s.allowedMarketIds)
    case MarketBlacklisted =>
      || m.marketId in s.blockedMarketIds
      || exists k :: 0 <= k < |s.blockedPatterns| && Contains(Lower(m.title), Lower(s.blockedPatterns[k]))
    case LiquidityTooLow => m.liquidityUsd < s.minLiquidityUsd
    case SpreadTooWide => s.maxSpreadPct < m.spreadPct
    case TimeToResolutionTooShort => (m.resolutionTime - c.now) as real < s.minHoursToResolution * 3600.0
    case RulesUnclear => s.requireClearRules && m.rulesConfidence < s.minRulesConfidence
    case OrderbookRequired => s.requireOrderbook && !m.hasOrderbook
    case ConfidenceBelowThreshold => p.confidence < s.minConfidence
    case EdgeBelowThreshold => c.edge < s.minEdgePct
    case ModelAgreementTooLow => p.modelAgreement < s.minModelAgreement
    case TrustedSourceRequired => s.requireTrustedSource && !p.trustedSourcePresent
    case SourceTypeNotAllowed => exists k :: 0 <= k < |p.sourceTypes| && p.sourceTypes[k] !in s.allowedSourceTypes
    case OrderTypeNotAllowed => c.orderType != s.orderType
    case StaleData => 120 < c.dataAgeSeconds
    case KillSwitchActive => !s.killSwitchEnabled
    case TooManyOpenPositions => s.maxOpenPositions <= c.openPositions
    case UnresolvedExposureTooHigh => s.bankroll * s.maxUnresolvedExposurePct < c.unresolvedExposure + dollars
    case ThemeExposureTooHigh => s.bankroll * s.maxThemeExposurePct < c.themeExposure + dollars
    case ProposalSizeExceedsLimit => s.bankroll * s.maxPositionPct < dollars
  }

  lemma ListReasonIff(s: Settings, c: Context, reason: Reason)
    ensures reason in ListReasons(s, c) <==> Means(reason, s, c) && reason in {
      MarketCategoryBlocked, MarketNotWhitelisted, MarketBlacklisted}
  {
  }

  lemma ThresholdReasonIff(s: Settings, c: Context, reason: Reason)
    ensures reason in ThresholdReasons(s, c) <==> Means(reason, s, c) && reason in {
      LiquidityTooLow, SpreadTooWide, TimeToResolutionTooShort, RulesUnclear, OrderbookRequired}
  {
  }

  lemma RiskReasonIff(s: Settings, c: Context, reason: Reason)
    ensures reason in RiskReasons(s, c) <==> Means(reason, s, c) && reason in {
      TooManyOpenPositions, UnresolvedExposureTooHigh, ThemeExposureTooHigh, ProposalSizeExceedsLimit}
  {
  }

  lemma ExecutionReasonIff(s: Settings, c: Context, reason: Reason)
    ensures reason in ExecutionReasons(s, c) <==> Means(reason, s, c) && reason in {
      KillSwitchActive, OrderTypeNotAllowed, StaleData}
  {
  }

  lemma AIReasonIff(s: Settings, c: Context, reason: Reason)
    ensures reason in AIReasons(s, c) <==> Means(reason, s, c) && reason in {
      ConfidenceBelowThreshold, EdgeBelowThreshold, ModelAgreementTooLow, TrustedSourceRequired, SourceTypeNotAllowed}
  {
  }

  /** The composite policy gives a reason exactly when what it means is the case. */
  lemma ReasonIff(s: Settings, c: Context, reason: Reason)
    ensures reason in Reasons(s, c) <==> Means(reason, s, c)
  {
    ListReasonIff(s, c, reason);
    ThresholdReasonIff(s, c, reason);
    RiskReasonIff(s, c, reason);
    ExecutionReasonIff(s, c, reason);
    AIReasonIff(s, c, reason);
    FourLists(MarketReasons(s, c), RiskReasons(s, c), ExecutionReasons(s, c), AIReasons(s, c), reason);
  }

  lemma FourLists(a: seq<Reason>, b: seq<Reason>, c: seq<Reason>, d: seq<Reason>, reason: Reason)
    ensures reason in Flatten([a, b, c, d]) <==> reason in a || reason in b || reason in c || reason in d
  {
    var lists := [a, b, c, d];
    FlattenKeeps(lists, reason);
    assert lists[0] == a && lists[1] == b && lists[2] == c && lists[3] == d;
  }

  lemma {:induction false} FlattenKeeps(lists: seq<seq<Reason>>, reason: Reason)
    ensures reason in Flatten(lists) <==> exists i :: 0 <= i < |lists| && reason in lists[i]
  {
    if lists != [] {
      FlattenKeeps(lists[1..], reason);
      if i :| 0 <= i < |lists[1..]| && reason in lists[1..][i] { assert reason in lists[i + 1]; }
    }
  }
}
