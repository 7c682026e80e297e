/** The validated configuration, reduced to the fields the modelled services read (`bot/config/loader.py`,
    `bot/config/models.py`). */
module Settings {
  import opened Common
  import opened Domain

  datatype SourceType = Official | Regulator | MajorMedia | Social | Research

  datatype Settings = Settings(
    mode: BotMode,
    bankroll: real,
    reserveRatio: real,
    maxPositionPct: real,
    maxThemeExposurePct: real,
    maxUnresolvedExposurePct: real,
    maxOpenPositions: int,
    allowedCategories: seq<string>,
    blockedCategories: seq<string>,
    minLiquidityUsd: real,
    maxSpreadPct: real,
    minHoursToResolution: real,
    requireClearRules: bool,
    requireOrderbook: bool,
    allowedMarketIds: seq<string>,
    blockedMarketIds: seq<string>,
    blockedPatterns: seq<string>,
    minEdgePct: real,
    minConfidence: real,
    minModelAgreement: int,
    requireTrustedSource: bool,
    orderType: string,
    minRulesConfidence: real,
    allowedSourceTypes: seq<SourceType>,
    proposalTtlMinutes: int,
    killSwitchEnabled: bool)

  predicate Ratio(x: real) { 0.0 <= x <= 1.0 }

  /** The checks of `_validate_settings` that concern these fields. */
  predicate Validated(s: Settings) {
    && s.bankroll > 0.0
    && Ratio(s.reserveRatio)
    && Ratio(s.maxPositionPct) && Ratio(s.maxThemeExposurePct) && Ratio(s.maxUnresolvedExposurePct)
    && s.maxOpenPositions >= 1
    && s.maxPositionPct <= s.maxThemeExposurePct
    && s.minLiquidityUsd >= 0.0
    && Ratio(s.maxSpreadPct)
    && s.minHoursToResolution >= 0.0
    && s.allowedCategories != []
    && Ratio(s.minEdgePct) && Ratio(s.minConfidence)
    && s.minModelAgreement >= 1
    && Ratio(s.minRulesConfidence)
    && s.allowedSourceTypes != []
    && s.proposalTtlMinutes >= 1
  }

  function PositionCap(s: Settings): real { s.bankroll * s.maxPositionPct }

  function ThemeCap(s: Settings): real { s.bankroll * s.maxThemeExposurePct }

  function UnresolvedCap(s: Settings): real { s.bankroll * s.maxUnresolvedExposurePct }

  function ReserveCapital(s: Settings): real { s.bankroll * (1.0 - s.reserveRatio) }

  /** What the rest of the model needs of a validated configuration: the caps are non-negative, and one position
      never exceeds what a theme may hold. */
  lemma ValidatedCaps(s: Settings)
    requires Validated(s)
    ensures 0.0 <= PositionCap(s) <= ThemeCap(s)
    ensures UnresolvedCap(s) >= 0.0 && ReserveCapital(s) >= 0.0
  {
    MulMonotone(0.0, s.maxPositionPct, s.bankroll);
    MulMonotone(s.maxPositionPct, s.maxThemeExposurePct, s.bankroll);
    MulMonotone(0.0, s.maxUnresolvedExposurePct, s.bankroll);
    MulMonotone(0.0, 1.0 - s.reserveRatio, s.bankroll);
  }
}
