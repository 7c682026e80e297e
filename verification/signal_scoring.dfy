/** Strategy scores (`bot/services/signals/scoring.py`): each scorer turns market features into a direction and a
    confidence. Ratios and confidences are exact reals. */
module SignalScoring {
  import opened Common

  datatype SignalType = MomentumLag | MeanReversion | Mispricing | LegacyBidirectional

  datatype Direction = Yes | No | Skip

  datatype MarketFeatures = MarketFeatures(
    liquidityUsd: real,
    spreadBps: real,
    secondsToResolution: int,
    currentProbability: real,
    btcMove: real,
    marketMove: real,
    recentMove: real,
    hasNewsTrigger: bool)

  datatype Score = Score(signalType: SignalType, direction: Direction, confidence: real)

  function Abs(x: real): real { if x < 0.0 then -x else x }

  function Clamp01(x: real): real {
    if x <= 0.0 then 0.0 else if x >= 1.0 then 1.0 else x
  }

  lemma ClampRises(x: real, y: real)
    requires x <= y
    ensures Clamp01(x) <= Clamp01(y)
    ensures Clamp01(x) < Clamp01(y) <==> x < y && x < 1.0 && y > 0.0
  {
  }

  // ---- Momentum lag -----------------------------------------------------------------------------------------------

  function Lag(f: MarketFeatures): real { Abs(f.btcMove) - Abs(f.marketMove) }

  predicate HasLag(f: MarketFeatures) { !(Abs(f.btcMove) < 0.003 || Lag(f) <= 0.0) }

  function ScoreMomentumLag(f: MarketFeatures): Score {
    if !HasLag(f) then Score(MomentumLag, Skip, 0.0)
    else
      var btcStrength := Clamp01(Abs(f.btcMove) / 0.02);
      var lagStrength := Clamp01(Lag(f) / 0.02);
      var liquidityStrength := Clamp01(f.liquidityUsd / 50000.0);
      var spreadPenalty := Clamp01(f.spreadBps / 300.0);
      var resolutionPenalty := if f.secondsToResolution >= 1800 then 0.0 else 0.5;
      var raw := 0.40 * btcStrength + 0.30 * lagStrength + 0.20 * liquidityStrength
                 - 0.25 * spreadPenalty - resolutionPenalty * 0.20;
      Score(MomentumLag, if f.btcMove > 0.0 then Yes else No, Clamp01(0.55 + raw * 0.50))
  }

  /** A directional momentum score is above 0.405 and at most 1, whatever the liquidity, the spread and the time
      left. */
  lemma MomentumRange(f: MarketFeatures)
    ensures var s := ScoreMomentumLag(f); s.direction == Skip || 0.405 < s.confidence <= 1.0
    ensures ScoreMomentumLag(f).direction == Skip <==> Abs(f.btcMove) < 0.003 || Abs(f.marketMove) >= Abs(f.btcMove)
  {
  }

  /** Neither bound can be improved: 1 is reached, and every confidence above 0.405 has a directional score below it. */
  lemma MomentumRangeIsTight(confidence: real)
    requires confidence > 0.405
    ensures exists f :: ScoreMomentumLag(f).direction != Skip && ScoreMomentumLag(f).confidence < confidence
    ensures exists f :: ScoreMomentumLag(f).direction != Skip && ScoreMomentumLag(f).confidence == 1.0
  {
    var gap := Min(0.003, (confidence - 0.405) / 10.0);
    var weak := MarketFeatures(0.0, 300.0, 0, 0.5, 0.003, 0.003 - gap, 0.0, false);
    assert Lag(weak) == gap;
    assert ScoreMomentumLag(weak).confidence == 0.405 + 7.5 * gap;
    var strong := MarketFeatures(50000.0, 0.0, 1800, 0.5, 0.02, 0.0, 0.0, false);
    assert ScoreMomentumLag(strong).confidence == 1.0;
  }

  /** `g` is at least as good a momentum market as `f`: a stronger move the same way, a larger lag, more liquidity, a
      tighter spread, and more time to resolution. */
  predicate BetterMomentum(g: MarketFeatures, f: MarketFeatures) {
    && (g.btcMove > 0.0 <==> f.btcMove > 0.0)
    && Abs(g.btcMove) >= Abs(f.btcMove)
    && Lag(g) >= Lag(f)
    && g.liquidityUsd >= f.liquidityUsd
    && g.spreadBps <= f.spreadBps
    && g.secondsToResolution >= f.secondsToResolution
  }

  /** What it takes for an improvement to show: an input that has not yet reached the end of its range moves inside it,
      or the time to resolution passes half an hour. */
  predicate MomentumImprovementShows(f: MarketFeatures, g: MarketFeatures) {
    || (Abs(f.btcMove) < Abs(g.btcMove) && Abs(f.btcMove) < 0.02)
    || (Lag(f) < Lag(g) && Lag(f) < 0.02)
    || (f.liquidityUsd < g.liquidityUsd && f.liquidityUsd < 50000.0 && g.liquidityUsd > 0.0)
    || (g.spreadBps < f.spreadBps && f.spreadBps > 0.0 && g.spreadBps < 300.0)
    || f.secondsToResolution < 1800 <= g.secondsToResolution
  }

  function LateCost(f: MarketFeatures): real { if f.secondsToResolution >= 1800 then 0.0 else 0.05 }

  /** The clamp around a directional confidence never bites. */
  lemma MomentumUnclamped(f: MarketFeatures)
    requires HasLag(f)
    ensures ScoreMomentumLag(f).confidence ==
      0.55 + 0.20 * Clamp01(Abs(f.btcMove) / 0.02) + 0.15 * Clamp01(Lag(f) / 0.02)
        + 0.10 * Clamp01(f.liquidityUsd / 50000.0)
      - 0.125 * Clamp01(f.spreadBps / 300.0) - LateCost(f)
  {
  }

  lemma WeightsRise(move: real, move': real, lag: real, lag': real, liquidity: real, liquidity': real,
                    spread: real, spread': real, late: real, late': real)
    requires move <= move' && lag <= lag' && liquidity <= liquidity' && spread' <= spread && late' <= late
    ensures 0.55 + 0.20 * move + 0.15 * lag + 0.10 * liquidity - 0.125 * spread - late
         <= 0.55 + 0.20 * move' + 0.15 * lag' + 0.10 * liquidity' - 0.125 * spread' - late'
    ensures 0.55 + 0.20 * move + 0.15 * lag + 0.10 * liquidity - 0.125 * spread - late
          < 0.55 + 0.20 * move' + 0.15 * lag' + 0.10 * liquidity' - 0.125 * spread' - late'
      <==> move < move' || lag < lag' || liquidity < liquidity' || spread' < spread || late' < late
  {
  }

  lemma MomentumCompared(f: MarketFeatures, g: MarketFeatures)
    requires BetterMomentum(g, f) && HasLag(f)
    ensures ScoreMomentumLag(f).confidence <= ScoreMomentumLag(g).confidence
    ensures ScoreMomentumLag(f).confidence < ScoreMomentumLag(g).confidence <==> MomentumImprovementShows(f, g)
  {
    assert HasLag(g);
    MomentumUnclamped(f);
    MomentumUnclamped(g);
    ClampRises(Abs(f.btcMove) / 0.02, Abs(g.btcMove) / 0.02);
    ClampRises(Lag(f) / 0.02, Lag(g) / 0.02);
    ClampRises(f.liquidityUsd / 50000.0, g.liquidityUsd / 50000.0);
    ClampRises(g.spreadBps / 300.0, f.spreadBps / 300.0);
    WeightsRise(Clamp01(Abs(f.btcMove) / 0.02), Clamp01(Abs(g.btcMove) / 0.02),
                Clamp01(Lag(f) / 0.02), Clamp01(Lag(g) / 0.02),
                Clamp01(f.liquidityUsd / 50000.0), Clamp01(g.liquidityUsd / 50000.0),
                Clamp01(f.spreadBps / 300.0), Clamp01(g.spreadBps / 300.0), LateCost(f), LateCost(g));
  }

  /** What the scorer's documentation promises: none of these improvements lowers the confidence or turns the signal. */
  lemma MomentumRises(f: MarketFeatures, g: MarketFeatures)
    requires BetterMomentum(g, f)
    ensures ScoreMomentumLag(f).confidence <= ScoreMomentumLag(g).confidence
    ensures ScoreMomentumLag(f).direction != Skip ==> ScoreMomentumLag(g).direction == ScoreMomentumLag(f).direction
  {
    if HasLag(f) { MomentumCompared(f, g); }
  }

  /** Exactly when an improvement raises the confidence. */
  lemma MomentumRisesIff(f: MarketFeatures, g: MarketFeatures)
    requires BetterMomentum(g, f)
    ensures ScoreMomentumLag(f).confidence < ScoreMomentumLag(g).confidence <==>
      if HasLag(f) then MomentumImprovementShows(f, g) else HasLag(g)
  {
    if HasLag(f) {
      MomentumCompared(f, g);
    } else if HasLag(g) {
      MomentumRange(g);
    }
  }

  /** Two and a half times the move, more than twice the lag, twice the liquidity, a tighter spread and an hour more,
      and the confidence is the same. */
  lemma ImprovementWithoutRise()
    ensures var f := MarketFeatures(50000.0, 400.0, 1800, 0.5, 0.02, 0.0, 0.0, false);
      var g := MarketFeatures(100000.0, 350.0, 5400, 0.5, 0.05, 0.005, 0.0, false);
      BetterMomentum(g, f) && HasLag(f) && ScoreMomentumLag(f).confidence == ScoreMomentumLag(g).confidence
  {
    var f := MarketFeatures(50000.0, 400.0, 1800, 0.5, 0.02, 0.0, 0.0, false);
    var g := MarketFeatures(100000.0, 350.0, 5400, 0.5, 0.05, 0.005, 0.0, false);
    assert Lag(f) == 0.02 && Lag(g) == 0.045;
    MomentumRisesIff(f, g);
    MomentumRises(f, g);
  }

  // ---- Mean reversion ---------------------------------------------------------------------------------------------

  function Overextension(f: MarketFeatures): real { Max(f.currentProbability - 0.80, 0.20 - f.currentProbability) }

  function ScoreMeanReversion(f: MarketFeatures): Score {
    if Overextension(f) <= 0.0 then Score(MeanReversion, Skip, 0.0)
    else if f.hasNewsTrigger then Score(MeanReversion, Skip, 0.0)
    else
      var overextensionStrength := Clamp01(Overextension(f) / 0.15);
      var liquidityStrength := Clamp01(f.liquidityUsd / 50000.0);
      var spreadPenalty := Clamp01(f.spreadBps / 300.0);
      var volumeConfirmation := Clamp01(Abs(f.recentMove) / 0.10);
      var raw := 0.45 * overextensionStrength + 0.20 * liquidityStrength
                 - 0.25 * spreadPenalty - 0.30 * volumeConfirmation;
      Score(MeanReversion, if f.currentProbability >= 0.80 then No else Yes, Clamp01(0.55 + raw * 0.50))
  }

  /** A directional reversion score is above 0.275 and at most 0.875, and bets against the extreme price. */
  lemma ReversionRange(f: MarketFeatures)
    ensures var s := ScoreMeanReversion(f); s.direction == Skip || 0.275 < s.confidence <= 0.875
    ensures ScoreMeanReversion(f).direction == No <==> f.currentProbability > 0.80 && !f.hasNewsTrigger
    ensures ScoreMeanReversion(f).direction == Yes <==> f.currentProbability < 0.20 && !f.hasNewsTrigger
  {
  }

  lemma ReversionRangeIsTight(confidence: real)
    requires confidence > 0.275
    ensures exists f :: ScoreMeanReversion(f).direction != Skip && ScoreMeanReversion(f).confidence < confidence
    ensures exists f :: ScoreMeanReversion(f).direction != Skip && ScoreMeanReversion(f).confidence == 0.875
  {
    var gap := Min(0.1, (confidence - 0.275) / 10.0);
    var weak := MarketFeatures(0.0, 300.0, 0, 0.80 + gap, 0.0, 0.0, 0.10, false);
    assert Overextension(weak) == gap;
    assert ScoreMeanReversion(weak).confidence == 0.275 + 1.5 * gap;
    var strong := MarketFeatures(50000.0, 0.0, 0, 0.95, 0.0, 0.0, 0.0, false);
    assert ScoreMeanReversion(strong).confidence == 0.875;
  }

  predicate BetterReversion(g: MarketFeatures, f: MarketFeatures) {
    && (g.currentProbability >= 0.80 <==> f.currentProbability >= 0.80)
    && Overextension(g) >= Overextension(f)
    && g.liquidityUsd >= f.liquidityUsd
    && g.spreadBps <= f.spreadBps
    && Abs(g.recentMove) <= Abs(f.recentMove)
    && (g.hasNewsTrigger ==> f.hasNewsTrigger)
  }

  lemma ReversionRises(f: MarketFeatures, g: MarketFeatures)
    requires BetterReversion(g, f)
    ensures ScoreMeanReversion(f).confidence <= ScoreMeanReversion(g).confidence
    ensures ScoreMeanReversion(f).direction != Skip
      ==> ScoreMeanReversion(g).direction == ScoreMeanReversion(f).direction
  {
    if ScoreMeanReversion(f).direction != Skip { ReversionRange(g); }
  }

  predicate ReversionImprovementShows(f: MarketFeatures, g: MarketFeatures) {
    || (Overextension(f) < Overextension(g) && Overextension(f) < 0.15)
    || (f.liquidityUsd < g.liquidityUsd && f.liquidityUsd < 50000.0 && g.liquidityUsd > 0.0)
    || (g.spreadBps < f.spreadBps && f.spreadBps > 0.0 && g.spreadBps < 300.0)
    || (Abs(g.recentMove) < Abs(f.recentMove) && Abs(g.recentMove) < 0.10)
  }

  lemma ReversionUnclamped(f: MarketFeatures)
    requires ScoreMeanReversion(f).direction != Skip
    ensures ScoreMeanReversion(f).confidence ==
      0.55 + 0.225 * Clamp01(Overextension(f) / 0.15) + 0.10 * Clamp01(f.liquidityUsd / 50000.0)
      - 0.125 * Clamp01(f.spreadBps / 300.0) - 0.15 * Clamp01(Abs(f.recentMove) / 0.10)
  {
  }

  /** The same for reversion. */
  lemma ReversionRisesIff(f: MarketFeatures, g: MarketFeatures)
    requires BetterReversion(g, f)
    ensures ScoreMeanReversion(f).confidence < ScoreMeanReversion(g).confidence <==>
      if ScoreMeanReversion(f).direction != Skip then ReversionImprovementShows(f, g)
      else ScoreMeanReversion(g).direction != Skip
  {
    if ScoreMeanReversion(f).direction != Skip {
      assert ScoreMeanReversion(g).direction != Skip;
      ReversionUnclamped(f);
      ReversionUnclamped(g);
      ClampRises(Overextension(f) / 0.15, Overextension(g) / 0.15);
      ClampRises(f.liquidityUsd / 50000.0, g.liquidityUsd / 50000.0);
      ClampRises(g.spreadBps / 300.0, f.spreadBps / 300.0);
      ClampRises(Abs(g.recentMove) / 0.10, Abs(f.recentMove) / 0.10);
    } else if ScoreMeanReversion(g).direction != Skip {
      ReversionRange(g);
    }
  }

  // ---- The placeholder --------------------------------------------------------------------------------------------

  function ScoreMispricing(f: MarketFeatures): Score { Score(Mispricing, Skip, 0.0) }
}
