/** Operator alerts (`bot/services/operator_notifications.py`, `bot/services/market_opportunity_alerts.py`,
    `bot/storage/alerts_repo.py`): creation with deduplication, the alert state machine, and the opportunity scan. */
module OperatorAlerts {
  import opened Common
  import opened Domain
  import opened Tally

  datatype AlertType =
    | ProposalTtlNearing
    | ApprovedProposalStale
    | ActiveIntentSuperseded
    | SimulatedExecutionRecorded
    | NewRelevantMarket
    | HighLiquidityMarket
    | ResolvingSoonMarket
    | PotentialContextMarket
  {
    predicate Opportunity() {
      NewRelevantMarket? || HighLiquidityMarket? || ResolvingSoonMarket? || PotentialContextMarket?
    }
  }

  datatype AlertState = Open | Acknowledged | Dismissed | Resolved {
    predicate Active() { Open? || Acknowledged? }
  }

  datatype EntityType = MarketEntity | ProposalEntity | IntentEntity

  type AlertId = nat

  /** What deduplication goes by. */
  datatype Subject = Subject(alertType: AlertType, entityType: EntityType, entityId: string)

  datatype Alert = Alert(
    alertId: AlertId,
    subject: Subject,
    state: AlertState,
    createdAt: int,
    acknowledgedAt: Option<int>,
    dismissedAt: Option<int>,
    resolvedAt: Option<int>)

  datatype Store = Store(alerts: map<AlertId, Alert>, nextId: AlertId)

  const EMPTY: Store := Store(map[], 0)

  datatype AlertError = UnknownAlert | InvalidTransition

  // ---- Specification ----------------------------------------------------------------------------------------------

  function ValidTransitions(state: AlertState): set<AlertState> {
    match state
    case Open => {Acknowledged, Dismissed, Resolved}
    case Acknowledged => {Dismissed, Resolved}
    case _ => {}
  }

  predicate HasActive(alerts: map<AlertId, Alert>, subject: Subject) {
    exists id :: id in alerts && alerts[id].subject == subject && alerts[id].state.Active()
  }

  predicate HasAny(alerts: map<AlertId, Alert>, subject: Subject) {
    exists id :: id in alerts && alerts[id].subject == subject
  }

  function Opened(st: Store, subject: Subject, now: int): Store {
    Store(st.alerts[st.nextId := Alert(st.nextId, subject, Open, now, None, None, None)], st.nextId + 1)
  }

  /** An active alert on the same subject stands in for a new one. */
  function Raising(st: Store, subject: Subject, now: int): Store {
    if HasActive(st.alerts, subject) then st else Opened(st, subject, now)
  }

  /** Any alert on the same subject, in whatever state, suppresses a new opportunity alert. */
  function RaisingOpportunity(st: Store, alertType: AlertType, marketId: string, now: int): (Store, Option<AlertId>) {
    var subject := Subject(alertType, MarketEntity, marketId);
    if HasAny(st.alerts, subject) then (st, None) else (Opened(st, subject, now), Some(st.nextId))
  }

  function Moved(alert: Alert, state: AlertState, now: int): Alert {
    alert.(state := state,
           acknowledgedAt := if state == Acknowledged then Some(now) else alert.acknowledgedAt,
           dismissedAt := if state == Dismissed then Some(now) else alert.dismissedAt,
           resolvedAt := if state == Resolved then Some(now) else alert.resolvedAt)
  }

  function Transitioning(st: Store, id: AlertId, state: AlertState, now: int): (Store, Result<Alert, AlertError>) {
    if id !in st.alerts then (st, Err(UnknownAlert))
    else if state !in ValidTransitions(st.alerts[id].state) then (st, Err(InvalidTransition))
    else
      var moved := Moved(st.alerts[id], state, now);
      (st.(alerts := st.alerts[id := moved]), Ok(moved))
  }

  /** The columns of a proposal row that the proposal scan reads. */
  datatype ProposalRow = ProposalRow(proposalId: string, status: ProposalStatus, expiresAt: int)

  function RowSubjects(row: ProposalRow, now: int, cutoff: int): seq<Subject> {
    (if row.status == PendingManualConfirmation && now < row.expiresAt <= cutoff
     then [Subject(ProposalTtlNearing, ProposalEntity, row.proposalId)] else [])
    + (if row.status == Approved && row.expiresAt <= now
       then [Subject(ApprovedProposalStale, ProposalEntity, row.proposalId)] else [])
  }

  function RaisingAll(st: Store, subjects: seq<Subject>, now: int): Store
    decreases |subjects|
  {
    if subjects == [] then st else RaisingAll(Raising(st, subjects[0], now), subjects[1..], now)
  }

  function ScanningProposals(st: Store, rows: seq<ProposalRow>, now: int, cutoff: int): Store
    decreases |rows|
  {
    if rows == [] then st
    else ScanningProposals(RaisingAll(st, RowSubjects(rows[0], now, cutoff), now), rows[1..], now, cutoff)
  }

  /** A catalog market as the opportunity scan sees it, with the clock reading at which it is looked at; relevance
      matching and whether the system holds proposals, research or analysis on the market are inputs. */
  datatype ScannedMarket = ScannedMarket(
    marketId: string,
    relevant: bool,
    liquidityUsd: Option<real>,
    endTime: Option<int>,
    closed: bool,
    hasContext: bool,
    lookedAt: int)

  datatype Rules = Rules(enabled: set<AlertType>, liquidityThreshold: real, resolvingSoonSeconds: int)

  function IfType(condition: bool, t: AlertType): seq<AlertType> { if condition then [t] else [] }

  /** The alert types a market calls for, in the order the scan raises them. */
  function WantedTypes(market: ScannedMarket, rules: Rules): seq<AlertType> {
    if !market.relevant then []
    else
      IfType(NewRelevantMarket in rules.enabled, NewRelevantMarket)
      + IfType(HighLiquidityMarket in rules.enabled && market.liquidityUsd.Some?
               && market.liquidityUsd.value >= rules.liquidityThreshold, HighLiquidityMarket)
      + IfType(ResolvingSoonMarket in rules.enabled && market.endTime.Some? && !market.closed
               && market.endTime.value <= market.lookedAt + rules.resolvingSoonSeconds, ResolvingSoonMarket)
      + IfType(PotentialContextMarket in rules.enabled && market.hasContext, PotentialContextMarket)
  }

  /** Raising a list of opportunities in order; the result lists the alerts actually created. */
  function RaisingOpportunities(st: Store, marketId: string, types: seq<AlertType>, now: int): (Store, seq<AlertId>)
    decreases |types|
  {
    if types == [] then (st, [])
    else
      var (st1, created) := RaisingOpportunity(st, types[0], marketId, now);
      var (st2, more) := RaisingOpportunities(st1, marketId, types[1..], now);
      (st2, (if created.Some? then [created.value] else []) + more)
  }

  function RaisingFor(st: Store, market: ScannedMarket, rules: Rules): (Store, seq<AlertId>) {
    RaisingOpportunities(st, market.marketId, WantedTypes(market, rules), market.lookedAt)
  }

  function ScanningMarkets(st: Store, markets: seq<ScannedMarket>, rules: Rules): (Store, seq<AlertId>)
    decreases |markets|
  {
    if markets == [] then (st, [])
    else
      var (st1, created) := RaisingFor(st, markets[0], rules);
      var (st2, more) := ScanningMarkets(st1, markets[1..], rules);
      (st2, created + more)
  }

  function RelevantCount(markets: seq<ScannedMarket>): nat {
    if markets == [] then 0 else (if markets[0].relevant then 1 else 0) + RelevantCount(markets[1..])
  }

  // ---- The services -----------------------------------------------------------------------------------------------

  class OperatorNotificationsService {
    var alerts: map<AlertId, Alert>
    var nextId: AlertId

    ghost function State(): Store
      reads this
    {
      Store(alerts, nextId)
    }

    constructor ()
      ensures State() == EMPTY
    {
      alerts, nextId := map[], 0;
    }

    method Add(subject: Subject, now: int) returns (id: AlertId)
      modifies this
      ensures State() == Opened(old(State()), subject, now) && id == old(nextId)
    {
      id := nextId;
      alerts := alerts[id := Alert(id, subject, Open, now, None, None, None)];
      nextId := nextId + 1;
    }

    /** `_create_alert`: the existing active alert is returned unchanged. */
    method CreateAlert(subject: Subject, now: int) returns (id: AlertId)
      modifies this
      ensures State() == Raising(old(State()), subject, now)
      ensures id in alerts && alerts[id].subject == subject && alerts[id].state.Active()
    {
      if HasActive(alerts, subject) {
        id :| id in alerts && alerts[id].subject == subject && alerts[id].state.Active();
      } else {
        id := Add(subject, now);
      }
    }

    method CreateMarketOpportunityAlert(alertType: AlertType, marketId: string,
                                        now: int) returns (created: Option<AlertId>)
      modifies this
      ensures (State(), created) == RaisingOpportunity(old(State()), alertType, marketId, now)
    {
      var subject := Subject(alertType, MarketEntity, marketId);
      if HasAny(alerts, subject) { return None; }
      var id := Add(subject, now);
      created := Some(id);
    }

    method TransitionAlert(id: AlertId, state: AlertState, now: int) returns (r: Result<Alert, AlertError>)
      modifies this
      ensures (State(), r) == Transitioning(old(State()), id, state, now)
    {
      if id !in alerts { return Err(UnknownAlert); }
      var alert := alerts[id];
      if state !in ValidTransitions(alert.state) { return Err(InvalidTransition); }
      var updated := alert.(state := state,
                            acknowledgedAt := if state == Acknowledged then Some(now) else alert.acknowledgedAt,
                            dismissedAt := if state == Dismissed then Some(now) else alert.dismissedAt,
                            resolvedAt := if state == Resolved then Some(now) else alert.resolvedAt);
      alerts := alerts[id := updated];
      r := Ok(updated);
    }

    /** The proposal scan: two independent checks on every row. */
    method Scan(rows: seq<ProposalRow>, now: int, ttlWarningSeconds: int)
      modifies this
      ensures State() == ScanningProposals(old(State()), rows, now, now + ttlWarningSeconds)
    {
      var cutoff := now + ttlWarningSeconds;
      var i := 0;
      while i < |rows|
        invariant 0 <= i <= |rows|
        invariant ScanningProposals(State(), rows[i..], now, cutoff)
          == ScanningProposals(old(State()), rows, now, cutoff)
      {
        assert rows[i..][1..] == rows[i + 1..];
        var row := rows[i];
        ghost var st := State();
        if row.status == PendingManualConfirmation && now < row.expiresAt <= cutoff {
          var _ := CreateAlert(Subject(ProposalTtlNearing, ProposalEntity, row.proposalId), now);
        }
        if row.status == Approved && row.expiresAt <= now {
          var _ := CreateAlert(Subject(ApprovedProposalStale, ProposalEntity, row.proposalId), now);
        }
        RaisingOne(st, row, now, cutoff);
        i := i + 1;
      }
    }

    /** The opportunity scan, with its counters and the final removal of repeated alerts; without a catalog listing
        there is nothing to scan. */
    method ScanOpportunities(listing: Option<seq<ScannedMarket>>, rules: Rules)
      returns (created: seq<AlertId>, scanned: nat, relevant: nat, available: bool)
      modifies this
      ensures available == listing.Some?
      ensures var markets := if listing.Some? then listing.value else [];
        && (State(), created) == ScanningMarkets(old(State()), markets, rules)
        && scanned == |markets| && relevant == RelevantCount(markets)
    {
      created, scanned, relevant, available := [], 0, 0, listing.Some?;
      if listing.None? { return; }
      var markets := listing.value;
      var all: seq<AlertId> := [];
      ghost var goal := ScanningMarkets(State(), markets, rules);
      var i := 0;
      assert markets[0..] == markets;
      while i < |markets|
        invariant 0 <= i <= |markets|
        invariant scanned == i && RelevantCount(markets) == relevant + RelevantCount(markets[i..])
        invariant goal.0 == ScanningMarkets(State(), markets[i..], rules).0
        invariant goal.1 == all + ScanningMarkets(State(), markets[i..], rules).1
      {
        assert markets[i..][1..] == markets[i + 1..];
        scanned := scanned + 1;
        if markets[i].relevant {
          relevant := relevant + 1;
        }
        var more := RaiseFor(markets[i], rules);
        Associative(all, more, ScanningMarkets(State(), markets[i + 1..], rules).1);
        all := all + more;
        i := i + 1;
      }
      Associative(all, [], []);
      ScanCreatesDistinct(old(State()), markets, rules);
      created := RemoveRepeats(all);
    }

    /** One market of the scan: each enabled check raises its alert. */
    method RaiseFor(market: ScannedMarket, rules: Rules) returns (created: seq<AlertId>)
      modifies this
      ensures (State(), created) == RaisingFor(old(State()), market, rules)
    {
      created := [];
      var types, now := WantedTypes(market, rules), market.lookedAt;
      ghost var goal := RaisingOpportunities(State(), market.marketId, types, now);
      var i := 0;
      assert types[0..] == types;
      while i < |types|
        invariant 0 <= i <= |types|
        invariant goal.0 == RaisingOpportunities(State(), market.marketId, types[i..], now).0
        invariant goal.1 == created + RaisingOpportunities(State(), market.marketId, types[i..], now).1
      {
        assert types[i..][1..] == types[i + 1..];
        var alert := CreateMarketOpportunityAlert(types[i], market.marketId, now);
        ghost var rest := RaisingOpportunities(State(), market.marketId, types[i + 1..], now).1;
        Associative(created, if alert.Some? then [alert.value] else [], rest);
        if alert.Some? {
          created := created + [alert.value];
        }
        i := i + 1;
      }
      Associative(created, [], []);
    }

    method RemoveRepeats(ids: seq<AlertId>) returns (unique: seq<AlertId>)
      requires Distinct(ids)
      ensures unique == ids
    {
      unique := [];
      var seen: set<AlertId> := {};
      var i := 0;
      while i < |ids|
        invariant 0 <= i <= |ids| && unique == ids[..i]
        invariant forall id :: id in seen ==> id in ids[..i]
      {
        if ids[i] !in seen {
          seen := seen + {ids[i]};
          unique := unique + [ids[i]];
        }
        i := i + 1;
      }
    }
  }

  lemma Associative(a: seq<AlertId>, b: seq<AlertId>, c: seq<AlertId>)
    ensures a + (b + c) == (a + b) + c
    ensures b == [] ==> a + b == a
  {
  }

  lemma RaisingOne(st: Store, row: ProposalRow, now: int, cutoff: int)
    ensures RaisingAll(st, RowSubjects(row, now, cutoff), now)
         == if row.status == PendingManualConfirmation && now < row.expiresAt <= cutoff
            then Raising(st, Subject(ProposalTtlNearing, ProposalEntity, row.proposalId), now)
            else if row.status == Approved && row.expiresAt <= now
            then Raising(st, Subject(ApprovedProposalStale, ProposalEntity, row.proposalId), now)
            else st
  {
    var subjects := RowSubjects(row, now, cutoff);
    assert |subjects| <= 1;
    assert subjects != [] ==> subjects[1..] == [];
  }

  // ---- Created alerts are new -------------------------------------------------------------------------------------

  /** Identifiers handed out between two states, in increasing order. */
  predicate IssuedBetween(ids: seq<AlertId>, from: AlertId, upto: AlertId) {
    && (forall i :: 0 <= i < |ids| ==> from <= ids[i] < upto)
    && (forall i, j :: 0 <= i < j < |ids| ==> ids[i] < ids[j])
  }

  lemma {:induction false} OpportunitiesAreNew(st: Store, marketId: string, types: seq<AlertType>, now: int)
    ensures var (st', created) := RaisingOpportunities(st, marketId, types, now);
      st.nextId <= st'.nextId && IssuedBetween(created, st.nextId, st'.nextId)
    decreases |types|
  {
    if types != [] {
      OpportunitiesAreNew(RaisingOpportunity(st, types[0], marketId, now).0, marketId, types[1..], now);
    }
  }

  lemma {:induction false} ScanCreatesDistinct(st: Store, markets: seq<ScannedMarket>, rules: Rules)
    ensures var (st', created) := ScanningMarkets(st, markets, rules);
      st.nextId <= st'.nextId && IssuedBetween(created, st.nextId, st'.nextId) && Distinct(created)
    decreases |markets|
  {
    if markets != [] {
      OpportunitiesAreNew(st, markets[0].marketId, WantedTypes(markets[0], rules), markets[0].lookedAt);
      ScanCreatesDistinct(RaisingFor(st, markets[0], rules).0, markets[1..], rules);
    }
  }
}
