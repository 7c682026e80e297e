/** The signal engine (`bot/services/signals/engine.py`): every enabled strategy is scored on the same features and put
    through the gate, and the decisions are kept by outcome. */
module SignalEngine {
  import opened Common
  import opened Tally
  import opened SignalScoring
  import opened SignalAdmission

  datatype Evaluation = Evaluation(accepted: seq<Decision>, rejected: seq<Decision>)

  const SCORERS: seq<SignalType> := [MomentumLag, MeanReversion, Mispricing]

  function ScoreBy(t: SignalType, f: MarketFeatures): Option<Score> {
    match t
    case MomentumLag => Some(ScoreMomentumLag(f))
    case MeanReversion => Some(ScoreMeanReversion(f))
    case Mispricing => Some(ScoreMispricing(f))
    case LegacyBidirectional => None
  }

  function ToSignal(s: Score): Signal { Signal(s.signalType, s.direction, s.confidence, []) }

  /** The decision on one strategy; none when it is off or has no scorer. */
  function Deciding(c: StrategiesConfig, t: SignalType, f: MarketFeatures, auto: bool): Option<Decision> {
    if c.enabled && TypeEnabled(t, c) && ScoreBy(t, f).Some? then
      Some(Admit(c, ToSignal(ScoreBy(t, f).value), f, auto))
    else None
  }

  function Entered(e: Evaluation, d: Option<Decision>): Evaluation {
    if d.None? then e
    else if d.value.Admitted? then e.(accepted := e.accepted + [d.value])
    else e.(rejected := e.rejected + [d.value])
  }

  function Evaluating(c: StrategiesConfig, f: MarketFeatures, auto: bool, scorers: seq<SignalType>): Evaluation {
    if scorers == [] then Evaluation([], [])
    else
      var last := |scorers| - 1;
      Entered(Evaluating(c, f, auto, scorers[..last]), Deciding(c, scorers[last], f, auto))
  }

  class SignalEngine {
    const config: StrategiesConfig
    var lastEvaluation: Option<Evaluation>

    constructor (config: StrategiesConfig)
      ensures this.config == config && lastEvaluation == None
    {
      this.config := config;
      lastEvaluation := None;
    }

    method Evaluate(f: MarketFeatures, auto: bool) returns (e: Evaluation)
      modifies this
      ensures e == Evaluating(config, f, auto, SCORERS)
      ensures lastEvaluation == Some(e)
    {
      e := Evaluation([], []);
      if !config.enabled {
        NothingWhenDisabled(config, f, auto, SCORERS);
        lastEvaluation := Some(e);
        return;
      }
      for i := 0 to |SCORERS|
        invariant e == Evaluating(config, f, auto, SCORERS[..i])
      {
        assert SCORERS[..i + 1][..i] == SCORERS[..i];
        if !TypeEnabled(SCORERS[i], config) { continue; }
        var result := ScoreBy(SCORERS[i], f);
        if result.None? || result.value.signalType != SCORERS[i] { continue; }
        var decision := Admit(config, ToSignal(result.value), f, auto);
        if decision.Admitted? {
          e := e.(accepted := e.accepted + [decision]);
        } else {
          e := e.(rejected := e.rejected + [decision]);
        }
      }
      assert SCORERS[..|SCORERS|] == SCORERS;
      lastEvaluation := Some(e);
    }

    /** The counters of the diagnostics snapshot: evaluated, accepted, rejected, and the rejections by code. */
    method LastCounts() returns (evaluated: nat, accepted: nat, rejected: nat, byCode: map<Rejection, nat>)
      ensures var last := if lastEvaluation.Some? then lastEvaluation.value else Evaluation([], []);
        && accepted == |last.accepted| && rejected == |last.rejected| && evaluated == accepted + rejected
        && Counts(byCode, last.rejected)
    {
      var last := if lastEvaluation.Some? then lastEvaluation.value else Evaluation([], []);
      accepted, rejected := |last.accepted|, |last.rejected|;
      evaluated := accepted + rejected;
      byCode := RejectionCounts(last.rejected);
    }
  }

  lemma {:induction false} NothingWhenDisabled(c: StrategiesConfig, f: MarketFeatures, auto: bool,
                                               scorers: seq<SignalType>)
    requires !c.enabled
    ensures Evaluating(c, f, auto, scorers) == Evaluation([], [])
  {
    if scorers != [] { NothingWhenDisabled(c, f, auto, scorers[..|scorers| - 1]); }
  }

  // ---- Rejection counts -------------------------------------------------------------------------------------------

  function Codes(decisions: seq<Decision>): multiset<Rejection> {
    if decisions == [] then multiset{}
    else
      var last := decisions[|decisions| - 1];
      Codes(decisions[..|decisions| - 1]) + (if last.Rejected? then multiset{last.code} else multiset{})
  }

  /** The dictionary has exactly the codes that occur, each with how often it does. */
  ghost predicate Counts(byCode: map<Rejection, nat>, decisions: seq<Decision>) {
    && (forall code :: code in byCode <==> code in Codes(decisions))
    && (forall code :: code in byCode ==> byCode[code] == Codes(decisions)[code])
  }

  method RejectionCounts(rejected: seq<Decision>) returns (byCode: map<Rejection, nat>)
    ensures Counts(byCode, rejected)
  {
    byCode := map[];
    for i := 0 to |rejected|
      invariant Counts(byCode, rejected[..i])
    {
      assert rejected[..i + 1][..i] == rejected[..i];
      if rejected[i].Rejected? {
        var code := rejected[i].code;
        byCode := byCode[code := (if code in byCode then byCode[code] else 0) + 1];
      }
    }
    assert rejected[..|rejected|] == rejected;
  }

  lemma {:induction false} CodesOfRejected(decisions: seq<Decision>)
    requires forall d :: d in decisions ==> d.Rejected?
    ensures |Codes(decisions)| == |decisions|
  {
    if decisions != [] { CodesOfRejected(decisions[..|decisions| - 1]); }
  }

  // ---- What an evaluation holds -----------------------------------------------------------------------------------

  predicate Scored(t: SignalType, scorers: seq<SignalType>) { t in scorers }

  /** Everything accepted was admitted and everything rejected was rejected, each as its own strategy's decision; every
      strategy that is on is decided, and nothing else is. */
  lemma {:induction false} EvaluationHolds(c: StrategiesConfig, f: MarketFeatures, auto: bool, scorers: seq<SignalType>)
    ensures var e := Evaluating(c, f, auto, scorers);
      && (forall d :: d in e.accepted ==>
            d.Admitted? && Scored(d.signal.signalType, scorers) && Deciding(c, d.signal.signalType, f, auto) == Some(d))
      && (forall d :: d in e.rejected ==>
            d.Rejected? && Scored(d.signal.signalType, scorers) && Deciding(c, d.signal.signalType, f, auto) == Some(d))
      && (forall t :: Scored(t, scorers) && Deciding(c, t, f, auto).Some? ==>
            Deciding(c, t, f, auto).value
            in (if Deciding(c, t, f, auto).value.Admitted? then e.accepted else e.rejected))
  {
    if scorers != [] {
      var last := |scorers| - 1;
      EvaluationHolds(c, f, auto, scorers[..last]);
      var d := Deciding(c, scorers[last], f, auto);
      assert d.Some? ==> d.value.signal.signalType == scorers[last];
      assert forall t :: Scored(t, scorers) <==> Scored(t, scorers[..last]) || t == scorers[last];
    }
  }

  function Decided(c: StrategiesConfig, scorers: seq<SignalType>): nat {
    if scorers == [] then 0
    else
      var last := |scorers| - 1;
      Decided(c, scorers[..last])
        + (if c.enabled && TypeEnabled(scorers[last], c) && scorers[last] != LegacyBidirectional then 1 else 0)
  }

  lemma {:induction false} DecisionCount(c: StrategiesConfig, f: MarketFeatures, auto: bool, scorers: seq<SignalType>)
    ensures var e := Evaluating(c, f, auto, scorers); |e.accepted| + |e.rejected| == Decided(c, scorers)
  {
    if scorers != [] { DecisionCount(c, f, auto, scorers[..|scorers| - 1]); }
  }

  function Enabled(c: StrategiesConfig): nat {
    if !c.enabled then 0
    else
      (if c.momentumLagEnabled then 1 else 0) + (if c.meanReversionEnabled then 1 else 0)
      + (if c.mispricingEnabled then 1 else 0)
  }

  /** Nothing is lost: as many decisions as enabled strategies, and for any listing of the rejection codes that occur,
      their counts add up to the number of rejections. */
  lemma EvaluationConserves(c: StrategiesConfig, f: MarketFeatures, auto: bool, codes: seq<Rejection>)
    requires Distinct(codes)
    requires forall code :: code in Codes(Evaluating(c, f, auto, SCORERS).rejected) ==> code in codes
    ensures var e := Evaluating(c, f, auto, SCORERS);
      && |e.accepted| + |e.rejected| == Enabled(c)
      && Sum(CountsOf(codes, Codes(e.rejected))) == |e.rejected|
  {
    var e := Evaluating(c, f, auto, SCORERS);
    RejectedAreRejected(c, f, auto);
    CodesOfRejected(e.rejected);
    CountsSum(codes, Codes(e.rejected));
    DecisionCount(c, f, auto, SCORERS);
    DecidedIsEnabled(c);
  }

  lemma RejectedAreRejected(c: StrategiesConfig, f: MarketFeatures, auto: bool)
    ensures forall d :: d in Evaluating(c, f, auto, SCORERS).rejected ==> d.Rejected?
  {
    EvaluationHolds(c, f, auto, SCORERS);
  }

  lemma DecidedIsEnabled(c: StrategiesConfig)
    ensures Decided(c, SCORERS) == Enabled(c)
  {
    assert SCORERS[..2] == [MomentumLag, MeanReversion] && [MomentumLag, MeanReversion][..1] == [MomentumLag];
    assert [MomentumLag][..0] == [];
    assert Decided(c, [MomentumLag]) == if c.enabled && c.momentumLagEnabled then 1 else 0;
  }

  // ---- Monotonicity, through scoring and admission ----------------------------------------------------------------

  /** The same strategy and direction, admitted with at least as large a fraction. */
  predicate Covers(g: Decision, d: Decision) {
    g.Admitted? && d.Admitted? && g.signal.signalType == d.signal.signalType && g.signal.direction == d.signal.direction
    && d.fraction <= g.fraction
  }

  /** Every accepted decision of `lesser` is covered in `greater`. */
  ghost predicate Dominated(lesser: Evaluation, greater: Evaluation) {
    forall d :: d in lesser.accepted ==> exists g :: g in greater.accepted && Covers(g, d)
  }

  predicate DecisionCovered(t: SignalType, strict: StrategiesConfig, f: MarketFeatures,
                            loose: StrategiesConfig, g: MarketFeatures, auto: bool)
  {
    var d := Deciding(strict, t, f, auto);
    d.Some? && d.value.Admitted? ==>
      Deciding(loose, t, g, auto).Some? && Covers(Deciding(loose, t, g, auto).value, d.value)
  }

  lemma CoveredMeansDominated(strict: StrategiesConfig, f: MarketFeatures, loose: StrategiesConfig, g: MarketFeatures,
                              auto: bool)
    requires forall t :: DecisionCovered(t, strict, f, loose, g, auto)
    ensures Dominated(Evaluating(strict, f, auto, SCORERS), Evaluating(loose, g, auto, SCORERS))
  {
    EvaluationHolds(strict, f, auto, SCORERS);
    EvaluationHolds(loose, g, auto, SCORERS);
    forall d | d in Evaluating(strict, f, auto, SCORERS).accepted
      ensures exists e :: e in Evaluating(loose, g, auto, SCORERS).accepted && Covers(e, d)
    {
      var t := d.signal.signalType;
      assert DecisionCovered(t, strict, f, loose, g, auto);
      assert Deciding(loose, t, g, auto).value in Evaluating(loose, g, auto, SCORERS).accepted;
    }
  }

  /** A stricter configuration accepts no new signal and enlarges no fraction, through scoring, gate and sizing. */
  lemma StricterConfigAcceptsLess(strict: StrategiesConfig, loose: StrategiesConfig, f: MarketFeatures, auto: bool)
    requires Stricter(strict, loose)
    ensures Dominated(Evaluating(strict, f, auto, SCORERS), Evaluating(loose, f, auto, SCORERS))
  {
    forall t ensures DecisionCovered(t, strict, f, loose, f, auto) {
      if ScoreBy(t, f).Some? {
        var s := ToSignal(ScoreBy(t, f).value);
        AdmissionMonotone(strict, s, f, auto, loose, s, f, auto);
      }
    }
    CoveredMeansDominated(strict, f, loose, f, auto);
  }

  /** A market that is better for both strategies loses no accepted signal and shrinks no fraction. */
  lemma BetterMarketAcceptsMore(c: StrategiesConfig, f: MarketFeatures, g: MarketFeatures, auto: bool)
    requires BetterMomentum(g, f) && BetterReversion(g, f)
    ensures Dominated(Evaluating(c, f, auto, SCORERS), Evaluating(c, g, auto, SCORERS))
  {
    MomentumRises(f, g);
    ReversionRises(f, g);
    forall t ensures DecisionCovered(t, c, f, c, g, auto) {
      if ScoreBy(t, f).Some? && ScoreBy(t, f).value.direction != Skip {
        AdmissionMonotone(c, ToSignal(ScoreBy(t, f).value), f, auto, c, ToSignal(ScoreBy(t, g).value), g, auto);
      }
    }
    CoveredMeansDominated(c, f, c, g, auto);
  }

  /** What an accepted decision is: never the placeholder strategy, never without a side, never under automatic
      execution; its confidence reaches the threshold, and a reversion is only ever accepted below 0.875. */
  lemma AcceptedDecision(c: StrategiesConfig, f: MarketFeatures, auto: bool, d: Decision)
    requires d in Evaluating(c, f, auto, SCORERS).accepted
    ensures d.Admitted? && !auto && c.autoExecuteMinConfidence.None?
    ensures d.signal.signalType in {MomentumLag, MeanReversion} && d.signal.direction != Skip
    ensures c.minConfidence <= d.signal.confidence <= (if d.signal.signalType == MomentumLag then 1.0 else 0.875)
    ensures d.signal.confidence > (if d.signal.signalType == MomentumLag then 0.405 else 0.275)
    ensures 0.0 <= d.fraction as real <= Max(c.maxPositionFraction, 0.0) * 1000000.0 + 0.5
  {
    EvaluationHolds(c, f, auto, SCORERS);
    AdmittedIff(c, d.signal, f, auto);
    MomentumRange(f);
    ReversionRange(f);
  }

  // ---- Proposal artifacts -----------------------------------------------------------------------------------------

  datatype Artifact = Artifact(signalType: SignalType, side: string, confidence: real, fraction: int)

  function SideFor(d: Direction): string {
    match d case Yes => "yes" case No => "no" case Skip => "skip"
  }

  function ToProposalArtifact(d: Decision): Result<Artifact, string> {
    if d.Rejected? then Err("rejected")
    else Ok(Artifact(d.signal.signalType, SideFor(d.signal.direction), d.signal.confidence, d.fraction))
  }

  /** Every accepted decision becomes an artifact with a tradable side: the side of the move for momentum, the side
      against the extreme for reversion; a rejected decision never becomes one. */
  lemma ArtifactsAreTradable(c: StrategiesConfig, f: MarketFeatures, auto: bool, d: Decision)
    requires d in Evaluating(c, f, auto, SCORERS).accepted + Evaluating(c, f, auto, SCORERS).rejected
    ensures ToProposalArtifact(d).Ok? <==> d in Evaluating(c, f, auto, SCORERS).accepted
    ensures ToProposalArtifact(d).Ok? ==>
      ToProposalArtifact(d).value.side ==
      if (if d.signal.signalType == MomentumLag then f.btcMove > 0.0 else f.currentProbability <= 0.80) then "yes"
        else "no"
  {
    EvaluationHolds(c, f, auto, SCORERS);
    if d in Evaluating(c, f, auto, SCORERS).accepted {
      AcceptedDecision(c, f, auto, d);
      ReversionRange(f);
    }
  }
}
