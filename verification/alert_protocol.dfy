/** Whole-run properties of the alert store: deduplication, absorbing states and repeated scans. */
module AlertProtocol {
  import opened Common
  import opened Domain
  import opened OperatorAlerts

  datatype Operation =
    | RaiseOp(subject: Subject, now: int)
    | ScanProposalsOp(rows: seq<ProposalRow>, now: int, cutoff: int)
    | ScanMarketsOp(markets: seq<ScannedMarket>, rules: Rules)
    | TransitionOp(id: AlertId, state: AlertState, now: int)

  function Apply(st: Store, op: Operation): Store {
    match op
    case RaiseOp(subject, now) => Raising(st, subject, now)
    case ScanProposalsOp(rows, now, cutoff) => ScanningProposals(st, rows, now, cutoff)
    case ScanMarketsOp(markets, rules) => ScanningMarkets(st, markets, rules).0
    case TransitionOp(id, state, now) => Transitioning(st, id, state, now).0
  }

  /** Opportunity alerts are raised by the opportunity scan only. */
  predicate Legal(op: Operation) { op.RaiseOp? ==> !op.subject.alertType.Opportunity() }

  predicate LegalRun(ops: seq<Operation>) { forall i :: 0 <= i < |ops| ==> Legal(ops[i]) }

  function Run(st: Store, ops: seq<Operation>): Store
    decreases |ops|
  {
    if ops == [] then st else Run(Apply(st, ops[0]), ops[1..])
  }

  // ---- Invariant and history --------------------------------------------------------------------------------------

  ghost predicate Keyed(st: Store) {
    forall id :: id in st.alerts ==> id < st.nextId && st.alerts[id].alertId == id
  }

  ghost predicate OneActivePerSubject(st: Store) {
    forall a, b | a in st.alerts && b in st.alerts ::
      st.alerts[a].state.Active() && st.alerts[b].state.Active() && st.alerts[a].subject == st.alerts[b].subject
      ==> a == b
  }

  ghost predicate OneOpportunityEver(st: Store) {
    forall a, b | a in st.alerts && b in st.alerts ::
      st.alerts[a].subject == st.alerts[b].subject && st.alerts[a].subject.alertType.Opportunity() ==> a == b
  }

  ghost predicate Invariant(st: Store) { Keyed(st) && OneActivePerSubject(st) && OneOpportunityEver(st) }

  /** How many state changes an alert still has in it. */
  function ChangesLeft(state: AlertState): nat {
    if state == Open then 2 else if state == Acknowledged then 1 else 0
  }

  predicate Evolves(before: Alert, after: Alert) {
    && after.alertId == before.alertId && after.subject == before.subject && after.createdAt == before.createdAt
    && (!before.state.Active() ==> after == before)
    && (after.state != before.state ==> ChangesLeft(after.state) < ChangesLeft(before.state))
  }

  /** Alerts are never deleted and evolve along the state machine. */
  ghost predicate Later(before: Store, after: Store) {
    before.nextId <= after.nextId
    && forall id :: id in before.alerts ==> id in after.alerts && Evolves(before.alerts[id], after.alerts[id])
  }

  lemma LaterTransitive(a: Store, b: Store, c: Store)
    requires Later(a, b) && Later(b, c)
    ensures Later(a, c)
  {
  }

  // ---- Steps ------------------------------------------------------------------------------------------------------

  lemma OpenedKeeps(st: Store, subject: Subject, now: int)
    requires Invariant(st) && !HasActive(st.alerts, subject)
    requires subject.alertType.Opportunity() ==> !HasAny(st.alerts, subject)
    ensures Invariant(Opened(st, subject, now)) && Later(st, Opened(st, subject, now))
  {
    var st' := Opened(st, subject, now);
    forall a, b | a in st'.alerts && b in st'.alerts && st'.alerts[a].subject == st'.alerts[b].subject
      ensures st'.alerts[a].state.Active() && st'.alerts[b].state.Active() ==> a == b
      ensures st'.alerts[a].subject.alertType.Opportunity() ==> a == b
    {
      if a == st.nextId && b in st.alerts {
        assert st.alerts[b].subject == subject;
      } else if b == st.nextId && a in st.alerts {
        assert st.alerts[a].subject == subject;
      }
    }
  }

  lemma RaisingKeeps(st: Store, subject: Subject, now: int)
    requires Invariant(st) && !subject.alertType.Opportunity()
    ensures Invariant(Raising(st, subject, now)) && Later(st, Raising(st, subject, now))
  {
    if !HasActive(st.alerts, subject) { OpenedKeeps(st, subject, now); }
  }

  lemma RaisingOpportunityKeeps(st: Store, t: AlertType, marketId: string, now: int)
    requires Invariant(st)
    ensures var st' := RaisingOpportunity(st, t, marketId, now).0; Invariant(st') && Later(st, st')
    ensures HasAny(RaisingOpportunity(st, t, marketId, now).0.alerts, Subject(t, MarketEntity, marketId))
  {
    var subject := Subject(t, MarketEntity, marketId);
    if !HasAny(st.alerts, subject) {
      assert !HasActive(st.alerts, subject);
      OpenedKeeps(st, subject, now);
      assert Opened(st, subject, now).alerts[st.nextId].subject == subject;
    }
  }

  lemma {:induction false} RaisingAllKeeps(st: Store, subjects: seq<Subject>, now: int)
    requires Invariant(st) && forall i :: 0 <= i < |subjects| ==> !subjects[i].alertType.Opportunity()
    ensures Invariant(RaisingAll(st, subjects, now)) && Later(st, RaisingAll(st, subjects, now))
    decreases |subjects|
  {
    if subjects != [] {
      var st1 := Raising(st, subjects[0], now);
      RaisingKeeps(st, subjects[0], now);
      RaisingAllKeeps(st1, subjects[1..], now);
      LaterTransitive(st, st1, RaisingAll(st1, subjects[1..], now));
    }
  }

  lemma {:induction false} ScanningProposalsKeeps(st: Store, rows: seq<ProposalRow>, now: int, cutoff: int)
    requires Invariant(st)
    ensures Invariant(ScanningProposals(st, rows, now, cutoff)) && Later(st, ScanningProposals(st, rows, now, cutoff))
    decreases |rows|
  {
    if rows != [] {
      var st1 := RaisingAll(st, RowSubjects(rows[0], now, cutoff), now);
      RaisingAllKeeps(st, RowSubjects(rows[0], now, cutoff), now);
      ScanningProposalsKeeps(st1, rows[1..], now, cutoff);
      LaterTransitive(st, st1, ScanningProposals(st1, rows[1..], now, cutoff));
    }
  }

  lemma {:induction false} RaisingOpportunitiesKeeps(st: Store, marketId: string, types: seq<AlertType>, now: int)
    requires Invariant(st)
    ensures var st' := RaisingOpportunities(st, marketId, types, now).0;
      && Invariant(st') && Later(st, st')
      && forall i :: 0 <= i < |types| ==> HasAny(st'.alerts, Subject(types[i], MarketEntity, marketId))
    decreases |types|
  {
    if types != [] {
      var st1 := RaisingOpportunity(st, types[0], marketId, now).0;
      RaisingOpportunityKeeps(st, types[0], marketId, now);
      RaisingOpportunitiesKeeps(st1, marketId, types[1..], now);
      var st' := RaisingOpportunities(st1, marketId, types[1..], now).0;
      LaterTransitive(st, st1, st');
      StillAny(st1, st', Subject(types[0], MarketEntity, marketId));
      forall i | 0 <= i < |types| ensures HasAny(st'.alerts, Subject(types[i], MarketEntity, marketId)) {
        if i > 0 { assert types[i] == types[1..][i - 1]; }
      }
    }
  }

  lemma StillAny(before: Store, after: Store, subject: Subject)
    requires Later(before, after) && HasAny(before.alerts, subject)
    ensures HasAny(after.alerts, subject)
  {
    var id :| id in before.alerts && before.alerts[id].subject == subject;
    assert after.alerts[id].subject == subject;
  }

  /** Every alert a scan calls for exists afterwards, in whatever state. */
  ghost predicate Covered(st: Store, market: ScannedMarket, rules: Rules) {
    forall i :: 0 <= i < |WantedTypes(market, rules)| ==>
      HasAny(st.alerts, Subject(WantedTypes(market, rules)[i], MarketEntity, market.marketId))
  }

  lemma StillCovered(before: Store, after: Store, market: ScannedMarket, rules: Rules)
    requires Later(before, after) && Covered(before, market, rules)
    ensures Covered(after, market, rules)
  {
    var types := WantedTypes(market, rules);
    forall i | 0 <= i < |types| ensures HasAny(after.alerts, Subject(types[i], MarketEntity, market.marketId)) {
      StillAny(before, after, Subject(types[i], MarketEntity, market.marketId));
    }
  }

  lemma {:induction false} ScanningMarketsKeeps(st: Store, markets: seq<ScannedMarket>, rules: Rules)
    requires Invariant(st)
    ensures var st' := ScanningMarkets(st, markets, rules).0;
      && Invariant(st') && Later(st, st')
      && forall i :: 0 <= i < |markets| ==> Covered(st', markets[i], rules)
    decreases |markets|
  {
    if markets != [] {
      var st1 := RaisingFor(st, markets[0], rules).0;
      RaisingOpportunitiesKeeps(st, markets[0].marketId, WantedTypes(markets[0], rules), markets[0].lookedAt);
      ScanningMarketsKeeps(st1, markets[1..], rules);
      var st' := ScanningMarkets(st1, markets[1..], rules).0;
      LaterTransitive(st, st1, st');
      StillCovered(st1, st', markets[0], rules);
      forall i | 0 <= i < |markets| ensures Covered(st', markets[i], rules) {
        if i > 0 { assert markets[i] == markets[1..][i - 1]; }
      }
    }
  }

  lemma MovedEvolves(alert: Alert, state: AlertState, now: int)
    requires state in ValidTransitions(alert.state)
    ensures Evolves(alert, Moved(alert, state, now)) && alert.state.Active()
  {
  }

  lemma TransitionKeeps(st: Store, id: AlertId, state: AlertState, now: int)
    requires Invariant(st)
    ensures var st' := Transitioning(st, id, state, now).0; Invariant(st') && Later(st, st')
  {
    var (st', r) := Transitioning(st, id, state, now);
    if r.Ok? {
      MovedEvolves(st.alerts[id], state, now);
      ReplacedKeeps(st, id, Moved(st.alerts[id], state, now));
    }
  }

  lemma ReplacedKeeps(st: Store, id: AlertId, alert: Alert)
    requires Invariant(st) && id in st.alerts && Evolves(st.alerts[id], alert) && st.alerts[id].state.Active()
    ensures var st' := st.(alerts := st.alerts[id := alert]); Invariant(st') && Later(st, st')
  {
  }

  lemma ApplyKeeps(st: Store, op: Operation)
    requires Invariant(st) && Legal(op)
    ensures Invariant(Apply(st, op)) && Later(st, Apply(st, op))
  {
    match op
    case RaiseOp(subject, now) => RaisingKeeps(st, subject, now);
    case ScanProposalsOp(rows, now, cutoff) => ScanningProposalsKeeps(st, rows, now, cutoff);
    case ScanMarketsOp(markets, rules) => ScanningMarketsKeeps(st, markets, rules);
    case TransitionOp(id, state, now) => TransitionKeeps(st, id, state, now);
  }

  // ---- Whole-run theorems -----------------------------------------------------------------------------------------

  /** Over every run from a consistent store: at most one open or acknowledged alert per subject, at most one
      opportunity alert per type and market however it ended, no alert is lost, and one that was dismissed or resolved
      is never touched again. */
  lemma {:induction false} RunKeepsInvariant(st: Store, ops: seq<Operation>)
    requires Invariant(st) && LegalRun(ops)
    ensures Invariant(Run(st, ops)) && Later(st, Run(st, ops))
    decreases |ops|
  {
    if ops != [] {
      ApplyKeeps(st, ops[0]);
      RunKeepsInvariant(Apply(st, ops[0]), ops[1..]);
      LaterTransitive(st, Apply(st, ops[0]), Run(st, ops));
    }
  }

  lemma ReachableStoresAreDeduplicated(ops: seq<Operation>)
    requires LegalRun(ops)
    ensures OneActivePerSubject(Run(EMPTY, ops)) && OneOpportunityEver(Run(EMPTY, ops))
  {
    RunKeepsInvariant(EMPTY, ops);
  }

  function StateChanges(st: Store, ops: seq<Operation>, id: AlertId): nat
    decreases |ops|
  {
    if ops == [] then 0
    else
      var st' := Apply(st, ops[0]);
      (if id in st.alerts && id in st'.alerts && st.alerts[id].state != st'.alerts[id].state then 1 else 0)
      + StateChanges(st', ops[1..], id)
  }

  /** Each alert changes state at most twice. */
  lemma {:induction false} AtMostTwoChanges(st: Store, ops: seq<Operation>, id: AlertId)
    requires Invariant(st) && LegalRun(ops)
    ensures StateChanges(st, ops, id) <= if id in st.alerts then ChangesLeft(st.alerts[id].state) else 2
    decreases |ops|
  {
    if ops != [] {
      ApplyKeeps(st, ops[0]);
      AtMostTwoChanges(Apply(st, ops[0]), ops[1..], id);
    }
  }

  lemma {:induction false} TypesCreateNothingIff(st: Store, marketId: string, types: seq<AlertType>, now: int)
    ensures RaisingOpportunities(st, marketId, types, now).1 == [] <==>
      forall i :: 0 <= i < |types| ==> HasAny(st.alerts, Subject(types[i], MarketEntity, marketId))
    ensures RaisingOpportunities(st, marketId, types, now).1 == [] ==>
      RaisingOpportunities(st, marketId, types, now).0 == st
    decreases |types|
  {
    if types != [] && HasAny(st.alerts, Subject(types[0], MarketEntity, marketId)) {
      TypesCreateNothingIff(st, marketId, types[1..], now);
      Associative([], RaisingOpportunities(st, marketId, types[1..], now).1, []);
      assert forall i :: 1 <= i < |types| ==> types[i] == types[1..][i - 1];
    }
  }

  ghost predicate AllCovered(st: Store, markets: seq<ScannedMarket>, rules: Rules) {
    forall i :: 0 <= i < |markets| ==> Covered(st, markets[i], rules)
  }

  lemma AllCoveredCons(st: Store, markets: seq<ScannedMarket>, rules: Rules)
    requires markets != []
    ensures AllCovered(st, markets, rules) <==> Covered(st, markets[0], rules) && AllCovered(st, markets[1..], rules)
  {
    assert forall i :: 1 <= i < |markets| ==> markets[i] == markets[1..][i - 1];
  }

  /** A scan creates nothing exactly when every alert it calls for exists already, in whatever state. */
  lemma {:induction false} ScanCreatesNothingIff(st: Store, markets: seq<ScannedMarket>, rules: Rules)
    ensures ScanningMarkets(st, markets, rules).1 == [] <==> AllCovered(st, markets, rules)
    ensures ScanningMarkets(st, markets, rules).1 == [] ==> ScanningMarkets(st, markets, rules).0 == st
    decreases |markets|
  {
    if markets != [] {
      AllCoveredCons(st, markets, rules);
      TypesCreateNothingIff(st, markets[0].marketId, WantedTypes(markets[0], rules), markets[0].lookedAt);
      if Covered(st, markets[0], rules) { ScanCreatesNothingIff(st, markets[1..], rules); }
    }
  }

  // ---- Scanning again ---------------------------------------------------------------------------------------------

  /** The same catalog entry looked at on two occasions: the time differs, and whether the system holds context. */
  predicate SameListing(m: ScannedMarket, n: ScannedMarket) {
    n == m.(hasContext := n.hasContext, lookedAt := n.lookedAt)
  }

  predicate SameListings(markets: seq<ScannedMarket>, again: seq<ScannedMarket>) {
    |again| == |markets| && forall i :: 0 <= i < |markets| ==> SameListing(markets[i], again[i])
  }

  /** The market did not resolve soon on the first occasion, and does on the second. */
  predicate CameToResolveSoon(m: ScannedMarket, n: ScannedMarket, rules: Rules) {
    && m.relevant && ResolvingSoonMarket in rules.enabled && m.endTime.Some? && !m.closed
    && m.lookedAt + rules.resolvingSoonSeconds < m.endTime.value <= n.lookedAt + rules.resolvingSoonSeconds
  }

  /** The system held nothing on the market on the first occasion, and does on the second. */
  predicate CameIntoContext(m: ScannedMarket, n: ScannedMarket, rules: Rules) {
    m.relevant && PotentialContextMarket in rules.enabled && !m.hasContext && n.hasContext
  }

  /** The alert types that can newly be called for when a listed market is looked at again. */
  predicate NewlyWanted(t: AlertType, m: ScannedMarket, n: ScannedMarket, rules: Rules) {
    || (t == ResolvingSoonMarket && CameToResolveSoon(m, n, rules))
    || (t == PotentialContextMarket && CameIntoContext(m, n, rules))
  }

  lemma OnlyTheseAppear(m: ScannedMarket, n: ScannedMarket, rules: Rules, t: AlertType)
    requires SameListing(m, n)
    ensures t in WantedTypes(n, rules) ==> t in WantedTypes(m, rules) || NewlyWanted(t, m, n, rules)
    ensures NewlyWanted(t, m, n, rules) ==> t in WantedTypes(n, rules)
  {
  }

  /** Every alert newly called for exists already. */
  ghost predicate NewlyWantedExist(st: Store, m: ScannedMarket, n: ScannedMarket, rules: Rules) {
    && (CameToResolveSoon(m, n, rules) ==> HasAny(st.alerts, Subject(ResolvingSoonMarket, MarketEntity, m.marketId)))
    && (CameIntoContext(m, n, rules) ==> HasAny(st.alerts, Subject(PotentialContextMarket, MarketEntity, m.marketId)))
  }

  lemma CoveredAgainIff(st: Store, m: ScannedMarket, n: ScannedMarket, rules: Rules)
    requires SameListing(m, n) && Covered(st, m, rules)
    ensures Covered(st, n, rules) <==> NewlyWantedExist(st, m, n, rules)
  {
    var before, after := WantedTypes(m, rules), WantedTypes(n, rules);
    forall i | 0 <= i < |after|
      ensures HasAny(st.alerts, Subject(after[i], MarketEntity, m.marketId)) || NewlyWanted(after[i], m, n, rules)
    {
      OnlyTheseAppear(m, n, rules, after[i]);
      if after[i] in before {
        var k :| 0 <= k < |before| && before[k] == after[i];
        assert HasAny(st.alerts, Subject(before[k], MarketEntity, m.marketId));
      }
    }
    if Covered(st, n, rules) {
      forall t | NewlyWanted(t, m, n, rules) ensures HasAny(st.alerts, Subject(t, MarketEntity, m.marketId)) {
        OnlyTheseAppear(m, n, rules, t);
        var k :| 0 <= k < |after| && after[k] == t;
        assert HasAny(st.alerts, Subject(after[k], MarketEntity, n.marketId));
      }
      assert CameToResolveSoon(m, n, rules) ==> NewlyWanted(ResolvingSoonMarket, m, n, rules);
      assert CameIntoContext(m, n, rules) ==> NewlyWanted(PotentialContextMarket, m, n, rules);
    }
  }

  /** Scanning the same listings under the same rules again, whatever happened to alerts and to the rest of the system
      in between, creates nothing exactly when every market that has come to resolve soon since, and every market the
      system has come to hold context on since, already has the alert that says so. */
  lemma RescanCreatesNothingIff(st: Store, markets: seq<ScannedMarket>, again: seq<ScannedMarket>, rules: Rules,
                                ops: seq<Operation>)
    requires Invariant(st) && LegalRun(ops) && SameListings(markets, again)
    ensures var later := Run(ScanningMarkets(st, markets, rules).0, ops);
      ScanningMarkets(later, again, rules) == (later, []) <==>
      forall i :: 0 <= i < |markets| ==> NewlyWantedExist(later, markets[i], again[i], rules)
  {
    var first := ScanningMarkets(st, markets, rules).0;
    ScanningMarketsKeeps(st, markets, rules);
    RunKeepsInvariant(first, ops);
    var later := Run(first, ops);
    forall i | 0 <= i < |markets|
      ensures Covered(later, again[i], rules) <==> NewlyWantedExist(later, markets[i], again[i], rules)
    {
      StillCovered(first, later, markets[i], rules);
      CoveredAgainIff(later, markets[i], again[i], rules);
    }
    ScanCreatesNothingIff(later, again, rules);
  }

  /** A market that calls for nothing on one occasion and for one alert on another. */
  lemma OneNewAlert(m: ScannedMarket, n: ScannedMarket, rules: Rules, t: AlertType)
    requires WantedTypes(m, rules) == [] && WantedTypes(n, rules) == [t]
    ensures ScanningMarkets(EMPTY, [m], rules) == (EMPTY, [])
    ensures ScanningMarkets(EMPTY, [n], rules).1 == [0]
  {
    assert [m][1..] == [] && [n][1..] == [] && [t][1..] == [];
    Associative([], [], []);
    var raised := RaisingOpportunity(EMPTY, t, n.marketId, n.lookedAt).0;
    assert RaisingOpportunity(EMPTY, t, n.marketId, n.lookedAt).1 == Some(0);
    assert RaisingOpportunities(raised, n.marketId, [t][1..], n.lookedAt) == (raised, []);
    var ids: seq<AlertId> := [0];
    Associative(ids, [], []);
    assert RaisingFor(EMPTY, n, rules) == (raised, ids);
    assert ScanningMarkets(raised, [n][1..], rules) == (raised, []);
  }

  /** So a rescan does create alerts: for a market that ends at 100, looked at with a window of 10 at 0 and again at 90;
      and for one that the system holds nothing on at first, and a proposal by the second scan. */
  lemma RescanExamples()
    ensures var m := ScannedMarket("m", true, None, Some(100), false, false, 0); var n := m.(lookedAt := 90);
      var rules := Rules({ResolvingSoonMarket}, 0.0, 10);
      SameListing(m, n) && ScanningMarkets(ScanningMarkets(EMPTY, [m], rules).0, [n], rules).1 == [0]
    ensures var m := ScannedMarket("m", true, None, None, false, false, 0); var n := m.(hasContext := true);
      var rules := Rules({PotentialContextMarket}, 0.0, 10);
      SameListing(m, n) && ScanningMarkets(ScanningMarkets(EMPTY, [m], rules).0, [n], rules).1 == [0]
  {
    var soon := ScannedMarket("m", true, None, Some(100), false, false, 0);
    assert WantedTypes(soon.(lookedAt := 90), Rules({ResolvingSoonMarket}, 0.0, 10)) == [ResolvingSoonMarket];
    OneNewAlert(soon, soon.(lookedAt := 90), Rules({ResolvingSoonMarket}, 0.0, 10), ResolvingSoonMarket);
    var held := ScannedMarket("m", true, None, None, false, false, 0);
    assert WantedTypes(held.(hasContext := true), Rules({PotentialContextMarket}, 0.0, 10)) == [PotentialContextMarket];
    OneNewAlert(held, held.(hasContext := true), Rules({PotentialContextMarket}, 0.0, 10), PotentialContextMarket);
  }

  // ---- What scans and transitions do, from their inputs -----------------------------------------------------------

  /** Whether a market, as it is looked at, calls for an alert of a type. */
  predicate CallsFor(m: ScannedMarket, rules: Rules, t: AlertType) {
    && m.relevant && t in rules.enabled
    && match t
       case NewRelevantMarket => true
       case HighLiquidityMarket => m.liquidityUsd.Some? && m.liquidityUsd.value >= rules.liquidityThreshold
       case ResolvingSoonMarket =>
         m.endTime.Some? && !m.closed && m.endTime.value - m.lookedAt <= rules.resolvingSoonSeconds
       case PotentialContextMarket => m.hasContext
       case _ => false
  }

  lemma CalledForIsWanted(m: ScannedMarket, rules: Rules, t: AlertType)
    ensures t in WantedTypes(m, rules) <==> CallsFor(m, rules, t)
  {
  }

  lemma RaisedOrHeld(st: Store, t: AlertType, marketId: string, now: int, x: Subject)
    requires Keyed(st)
    ensures var after := RaisingOpportunity(st, t, marketId, now).0;
      Keyed(after) && (HasAny(after.alerts, x) <==> HasAny(st.alerts, x) || x == Subject(t, MarketEntity, marketId))
  {
    var after := RaisingOpportunity(st, t, marketId, now).0;
    if HasAny(st.alerts, x) {
      var id :| id in st.alerts && st.alerts[id].subject == x;
      assert after.alerts[id].subject == x;
    }
    if x == Subject(t, MarketEntity, marketId) && !HasAny(st.alerts, x) { assert after.alerts[st.nextId].subject == x; }
  }

  lemma {:induction false} TypesRaisedIff(st: Store, marketId: string, types: seq<AlertType>, now: int, x: Subject)
    requires Keyed(st)
    ensures var after := RaisingOpportunities(st, marketId, types, now).0;
      Keyed(after) && (HasAny(after.alerts, x) <==>
        HasAny(st.alerts, x) || exists k :: 0 <= k < |types| && x == Subject(types[k], MarketEntity, marketId))
    decreases |types|
  {
    if types != [] {
      RaisedOrHeld(st, types[0], marketId, now, x);
      TypesRaisedIff(RaisingOpportunity(st, types[0], marketId, now).0, marketId, types[1..], now, x);
      assert forall k :: 1 <= k < |types| ==> types[k] == types[1..][k - 1];
    }
  }

  predicate SomeMarketCallsFor(markets: seq<ScannedMarket>, rules: Rules, t: AlertType, marketId: string) {
    exists k :: 0 <= k < |markets| && markets[k].marketId == marketId && CallsFor(markets[k], rules, t)
  }

  lemma CallsCons(markets: seq<ScannedMarket>, rules: Rules, t: AlertType, marketId: string)
    requires markets != []
    ensures SomeMarketCallsFor(markets, rules, t, marketId) <==>
      (markets[0].marketId == marketId && CallsFor(markets[0], rules, t))
      || SomeMarketCallsFor(markets[1..], rules, t, marketId)
  {
    assert forall k :: 1 <= k < |markets| ==> markets[k] == markets[1..][k - 1];
  }

  /** After a scan an opportunity alert of a type exists for a market exactly when it did before or a listed market with
      that identifier calls for it: new when relevant, liquid at the threshold or above, ending within the window unless
      closed, or with context. */
  lemma {:induction false} ScanRaisesExactly(st: Store, markets: seq<ScannedMarket>, rules: Rules, t: AlertType,
                                             marketId: string)
    requires Keyed(st)
    ensures var after := ScanningMarkets(st, markets, rules).0; var x := Subject(t, MarketEntity, marketId);
      Keyed(after) && (HasAny(after.alerts, x) <==>
        HasAny(st.alerts, x) || SomeMarketCallsFor(markets, rules, t, marketId))
    decreases |markets|
  {
    if markets != [] {
      var types := WantedTypes(markets[0], rules);
      TypesRaisedIff(st, markets[0].marketId, types, markets[0].lookedAt, Subject(t, MarketEntity, marketId));
      ScanRaisesExactly(RaisingFor(st, markets[0], rules).0, markets[1..], rules, t, marketId);
      CalledForIsWanted(markets[0], rules, t);
      CallsCons(markets, rules, t, marketId);
    }
  }

  /** Whether a proposal row calls for a warning: pending and about to expire, or approved and past its time. */
  predicate RowCallsFor(row: ProposalRow, x: Subject, now: int, cutoff: int) {
    || (x == Subject(ProposalTtlNearing, ProposalEntity, row.proposalId)
        && row.status == PendingManualConfirmation && row.expiresAt > now && row.expiresAt <= cutoff)
    || (x == Subject(ApprovedProposalStale, ProposalEntity, row.proposalId)
        && row.status == Approved && now >= row.expiresAt)
  }

  lemma RaisedActive(st: Store, subject: Subject, now: int, x: Subject)
    requires Keyed(st)
    ensures var after := Raising(st, subject, now);
      Keyed(after) && (HasActive(after.alerts, x) <==> HasActive(st.alerts, x) || x == subject)
  {
    var after := Raising(st, subject, now);
    if HasActive(st.alerts, x) {
      var id :| id in st.alerts && st.alerts[id].subject == x && st.alerts[id].state.Active();
      assert after.alerts[id] == st.alerts[id];
    }
    if x == subject && !HasActive(st.alerts, x) { assert after.alerts[st.nextId].state.Active(); }
  }

  lemma RowRaisesIff(st: Store, row: ProposalRow, now: int, cutoff: int, x: Subject)
    requires Keyed(st)
    ensures var after := RaisingAll(st, RowSubjects(row, now, cutoff), now);
      Keyed(after) && (HasActive(after.alerts, x) <==> HasActive(st.alerts, x) || RowCallsFor(row, x, now, cutoff))
  {
    RaisingOne(st, row, now, cutoff);
    RaisedActive(st, Subject(ProposalTtlNearing, ProposalEntity, row.proposalId), now, x);
    RaisedActive(st, Subject(ApprovedProposalStale, ProposalEntity, row.proposalId), now, x);
  }

  /** After the proposal scan an alert on a subject is active exactly when it was before or a row calls for it. */
  lemma {:induction false} ProposalScanRaisesExactly(st: Store, rows: seq<ProposalRow>, now: int, cutoff: int,
                                                     x: Subject)
    requires Keyed(st)
    ensures var after := ScanningProposals(st, rows, now, cutoff);
      Keyed(after) && (HasActive(after.alerts, x) <==>
        HasActive(st.alerts, x) || exists k :: 0 <= k < |rows| && RowCallsFor(rows[k], x, now, cutoff))
    decreases |rows|
  {
    if rows != [] {
      RowRaisesIff(st, rows[0], now, cutoff, x);
      ProposalScanRaisesExactly(RaisingAll(st, RowSubjects(rows[0], now, cutoff), now), rows[1..], now, cutoff, x);
      assert forall k :: 1 <= k < |rows| ==> rows[k] == rows[1..][k - 1];
    }
  }

  /** Which transitions are accepted, and what one leaves: the new state, the time in its own column, and everything
      else as it was. */
  lemma TransitionIff(st: Store, id: AlertId, state: AlertState, now: int)
    ensures var (after, r) := Transitioning(st, id, state, now);
      && (r.Ok? <==> id in st.alerts && state != Open && state != st.alerts[id].state
                     && st.alerts[id].state in {Open, Acknowledged})
      && (r.Err? ==> after == st)
      && (r.Ok? ==>
            && after.nextId == st.nextId && after.alerts == st.alerts[id := r.value]
            && var a := st.alerts[id];
            r.value == match state
                       case Acknowledged => a.(state := state, acknowledgedAt := Some(now))
                       case Dismissed => a.(state := state, dismissedAt := Some(now))
                       case Resolved => a.(state := state, resolvedAt := Some(now))
                       case Open => a)
  {
  }
}
