/** The order-intent pipeline (`bot/services/execution_pipeline.py`, `bot/storage/execution_repo.py`): intents are
    created from approved proposals, prepared, and then submitted or simulated; creating one with supersession retires
    the active ones of the same proposal. */
module ExecutionPipeline {
  import opened Common
  import opened Domain
  import opened PaperTrading
  import ProposalLifecycle

  type TradeProposal = ProposalLifecycle.TradeProposal
  type ProposalId = ProposalLifecycle.ProposalId
  type IntentId = nat

  datatype OrderIntent = OrderIntent(
    intentId: IntentId,
    proposalId: ProposalId,
    side: Side,
    size: int,
    limit: int,
    status: IntentStatus,
    createdAt: int,
    updatedAt: int,
    supersededBy: Option<IntentId>)

  datatype Execution = Execution(executionId: nat, intentId: IntentId, status: IntentStatus, result: SimulationResult)

  datatype FillEvent = FillEvent(executionId: nat, intentId: IntentId, fragment: Fragment)

  datatype BoundaryError =
    | NotApproved
    | ProposalExpired
    | ActiveIntentExists
    | UnknownIntent
    | NotCreated
    | NotPrepared
    | AlreadySimulated
    | SubmissionForbidden
    | LiveExecutionForbidden

  type Outcome = Result<IntentStatus, BoundaryError>

  /** `submitted` lists the intents whose order reached the adapter's `submit_order`. Executions are numbered by their
      place in the list. */
  datatype PipelineState = PipelineState(
    intents: map<IntentId, OrderIntent>,
    executions: seq<Execution>,
    fills: seq<FillEvent>,
    submitted: seq<IntentId>,
    nextId: IntentId)

  const EMPTY: PipelineState := PipelineState(map[], [], [], [], 0)

  datatype Overrides = Overrides(
    bestBid: Option<int>,
    bestAsk: Option<int>,
    ttlMs: Option<int>,
    cancelAfterMs: Option<int>,
    baseLatencyMs: Option<int>)

  // ---- Specification ----------------------------------------------------------------------------------------------

  predicate ActiveFor(intent: OrderIntent, proposal: ProposalId) {
    intent.proposalId == proposal && intent.status.Active()
  }

  predicate HasActive(st: PipelineState, proposal: ProposalId) {
    exists id :: id in st.intents && ActiveFor(st.intents[id], proposal)
  }

  function Supersede(intent: OrderIntent, successor: IntentId, now: int): OrderIntent {
    intent.(status := Superseded, supersededBy := Some(successor), updatedAt := now)
  }

  function FromProposal(p: TradeProposal, id: IntentId, now: int): OrderIntent {
    OrderIntent(id, p.proposalId, p.side, p.currentSize, p.currentLimit, Created, now, now, None)
  }

  function Creating(st: PipelineState, p: TradeProposal, supersede: bool, now: int): (PipelineState, Outcome) {
    if p.status != Approved then (st, Err(NotApproved))
    else if p.expiresAt <= now then (st, Err(ProposalExpired))
    else if HasActive(st, p.proposalId) && !supersede then (st, Err(ActiveIntentExists))
    else
      var retired := map id | id in st.intents ::
        if ActiveFor(st.intents[id], p.proposalId) then Supersede(st.intents[id], st.nextId, now) else st.intents[id];
      (st.(intents := retired[st.nextId := FromProposal(p, st.nextId, now)], nextId := st.nextId + 1), Ok(Created))
  }

  function WithStatus(st: PipelineState, id: IntentId, status: IntentStatus, now: int): PipelineState
    requires id in st.intents
  {
    st.(intents := st.intents[id := st.intents[id].(status := status, updatedAt := now)])
  }

  function Preparing(st: PipelineState, id: IntentId, live: bool, accepted: bool, now: int): (PipelineState, Outcome) {
    if id !in st.intents then (st, Err(UnknownIntent))
    else if st.intents[id].status != Created then (st, Err(NotCreated))
    else if live then (st, Err(LiveExecutionForbidden))
    else
      var status := if accepted then Prepared else Blocked;
      (WithStatus(st, id, status, now), Ok(status))
  }

  /** In semi-auto mode the intent is disabled before the error is raised. */
  function Submitting(st: PipelineState, id: IntentId, mode: BotMode, live: bool, accepted: bool,
                      now: int): (PipelineState, Outcome) {
    if id !in st.intents then (st, Err(UnknownIntent))
    else if st.intents[id].status != Prepared then (st, Err(NotPrepared))
    else if live then (st, Err(LiveExecutionForbidden))
    else if mode == SemiAuto then (WithStatus(st, id, SubmissionDisabled, now), Err(SubmissionForbidden))
    else
      var status := if accepted then SubmissionAccepted else SubmissionRejected;
      (WithStatus(st, id, status, now).(submitted := st.submitted + [id]), Ok(status))
  }

  function RequestFor(intent: OrderIntent, o: Overrides): OrderRequest {
    OrderRequest(intent.side, intent.size, intent.limit, o.bestBid, o.bestAsk, o.ttlMs, o.cancelAfterMs,
        o.baseLatencyMs)
  }

  function FillEvents(executionId: nat, id: IntentId, fragments: seq<Fragment>): (r: seq<FillEvent>)
    ensures |r| == |fragments|
  {
    seq(|fragments|, k requires 0 <= k < |fragments| => FillEvent(executionId, id, fragments[k]))
  }

  function Simulating(st: PipelineState, id: IntentId, o: Overrides, now: int, start: int): (PipelineState, Outcome) {
    if id !in st.intents then (st, Err(UnknownIntent))
    else if st.intents[id].status.Simulated() then (st, Err(AlreadySimulated))
    else if st.intents[id].status != Prepared then (st, Err(NotPrepared))
    else
      var result := Simulation(RequestFor(st.intents[id], o), now, start);
      var execution := |st.executions|;
      (WithStatus(st, id, result.stage, now).(
         executions := st.executions + [Execution(execution, id, result.stage, result)],
         fills := st.fills + FillEvents(execution, id, result.fragments)),
       Ok(result.stage))
  }

  // ---- The service ------------------------------------------------------------------------------------------------

  /** Rows in the order the store lists them. */
  predicate ListsActive(rows: seq<OrderIntent>, intents: map<IntentId, OrderIntent>, proposal: ProposalId) {
    && (forall k :: 0 <= k < |rows| ==>
          rows[k].intentId in intents && intents[rows[k].intentId] == rows[k] && ActiveFor(rows[k], proposal))
    && (forall id :: id in intents && ActiveFor(intents[id], proposal) ==> intents[id] in rows)
    && (forall j, k :: 0 <= j < k < |rows| ==> rows[j].intentId != rows[k].intentId)
  }

  class ExecutionPipelineService {
    const mode: BotMode
    const supportsLive: bool
    var intents: map<IntentId, OrderIntent>
    var executions: seq<Execution>
    var fills: seq<FillEvent>
    var submitted: seq<IntentId>
    var nextId: IntentId

    ghost function State(): PipelineState
      reads this
    {
      PipelineState(intents, executions, fills, submitted, nextId)
    }

    constructor (mode: BotMode, supportsLive: bool)
      ensures State() == EMPTY && this.mode == mode && this.supportsLive == supportsLive
    {
      this.mode, this.supportsLive := mode, supportsLive;
      intents, executions, fills, submitted, nextId := map[], [], [], [], 0;
    }

    /** `existing` is the answer of the query for the proposal's active intents. */
    method CreateOrderIntent(p: TradeProposal, supersedeExisting: bool, now: int,
                             existing: seq<OrderIntent>) returns (r: Outcome)
      requires ListsActive(existing, intents, p.proposalId)
      requires forall id :: id in intents ==> id < nextId && intents[id].intentId == id
      modifies this
      ensures (State(), r) == Creating(old(State()), p, supersedeExisting, now)
    {
      if p.status != Approved { return Err(NotApproved); }
      if p.expiresAt <= now { return Err(ProposalExpired); }
      ghost var st := State();
      assert HasActive(st, p.proposalId) <==> existing != [] by {
        if existing != [] { assert ActiveFor(intents[existing[0].intentId], p.proposalId); }
      }
      if existing != [] && !supersedeExisting { return Err(ActiveIntentExists); }
      var intent := OrderIntent(nextId, p.proposalId, p.side, p.currentSize, p.currentLimit, Created, now, now, None);
      var i := 0;
      while i < |existing|
        invariant 0 <= i <= |existing|
        invariant State() == st.(intents := PartlyRetired(st.intents, existing[..i], intent.intentId, now))
      {
        RetireStep(st.intents, existing, i, p.proposalId, intent.intentId, now);
        var superseded := existing[i].(status := Superseded, supersededBy := Some(intent.intentId), updatedAt := now);
        intents := intents[superseded.intentId := superseded];
        i := i + 1;
      }
      AllRetired(st, existing, p.proposalId, now);
      intents := intents[intent.intentId := intent];
      nextId := nextId + 1;
      r := Ok(Created);
    }

    method PrepareSubmission(id: IntentId, accepted: bool, now: int) returns (r: Outcome)
      modifies this
      ensures (State(), r) == Preparing(old(State()), id, supportsLive, accepted, now)
    {
      if id !in intents { return Err(UnknownIntent); }
      var intent := intents[id];
      if intent.status != Created { return Err(NotCreated); }
      if supportsLive { return Err(LiveExecutionForbidden); }
      var status := if accepted then Prepared else Blocked;
      intents := intents[id := intent.(status := status, updatedAt := now)];
      r := Ok(status);
    }

    method SubmitIntent(id: IntentId, accepted: bool, now: int) returns (r: Outcome)
      modifies this
      ensures (State(), r) == Submitting(old(State()), id, mode, supportsLive, accepted, now)
    {
      if id !in intents { return Err(UnknownIntent); }
      var intent := intents[id];
      if intent.status != Prepared { return Err(NotPrepared); }
      if supportsLive { return Err(LiveExecutionForbidden); }
      if mode == SemiAuto {
        intents := intents[id := intent.(status := SubmissionDisabled, updatedAt := now)];
        return Err(SubmissionForbidden);
      }
      submitted := submitted + [id];
      var status := if accepted then SubmissionAccepted else SubmissionRejected;
      intents := intents[id := intent.(status := status, updatedAt := now)];
      r := Ok(status);
    }

    method SimulateIntent(id: IntentId, o: Overrides, now: int, start: int) returns (r: Outcome)
      modifies this
      ensures (State(), r) == Simulating(old(State()), id, o, now, start)
    {
      if id !in intents { return Err(UnknownIntent); }
      var intent := intents[id];
      if intent.status.Simulated() { return Err(AlreadySimulated); }
      if intent.status != Prepared { return Err(NotPrepared); }
      var result := PaperTrading.SimulateOrder(RequestFor(intent, o), now, start);
      intents := intents[id := intent.(status := result.stage, updatedAt := now)];
      var execution := Execution(|executions|, id, result.stage, result);
      executions := executions + [execution];
      if result.fragments != [] {
        SaveFillEvents(execution);
      }
      assert fills == old(fills) + FillEvents(execution.executionId, id, result.fragments);
      r := Ok(result.stage);
    }

    method SaveFillEvents(execution: Execution)
      modifies this`fills
      ensures fills == old(fills) + FillEvents(execution.executionId, execution.intentId, execution.result.fragments)
    {
      var fragments := execution.result.fragments;
      var i := 0;
      while i < |fragments|
        invariant 0 <= i <= |fragments|
        invariant fills == old(fills) + FillEvents(execution.executionId, execution.intentId, fragments[..i])
      {
        fills := fills + [FillEvent(execution.executionId, execution.intentId, fragments[i])];
        assert FillEvents(execution.executionId, execution.intentId, fragments[..i + 1])
            == FillEvents(execution.executionId, execution.intentId, fragments[..i])
               + [FillEvent(execution.executionId, execution.intentId, fragments[i])];
        i := i + 1;
      }
      assert fragments[..|fragments|] == fragments;
    }
  }

  // ---- The supersession loop --------------------------------------------------------------------------------------

  function PartlyRetired(intents: map<IntentId, OrderIntent>, done: seq<OrderIntent>, successor: IntentId, now: int)
    : map<IntentId, OrderIntent>
  {
    map id | id in intents :: if intents[id] in done then Supersede(intents[id], successor, now) else intents[id]
  }

  lemma RetireStep(intents: map<IntentId, OrderIntent>, rows: seq<OrderIntent>, i: nat, proposal: ProposalId,
                   successor: IntentId, now: int)
    requires ListsActive(rows, intents, proposal) && i < |rows|
    requires forall id :: id in intents ==> intents[id].intentId == id
    ensures PartlyRetired(intents, rows[..i + 1], successor, now)
         == PartlyRetired(intents, rows[..i], successor, now)[rows[i].intentId := Supersede(rows[i], successor, now)]
  {
    assert rows[..i + 1] == rows[..i] + [rows[i]];
  }

  lemma AllRetired(st: PipelineState, rows: seq<OrderIntent>, proposal: ProposalId, now: int)
    requires ListsActive(rows, st.intents, proposal)
    ensures rows[..|rows|] == rows
    ensures PartlyRetired(st.intents, rows, st.nextId, now) == map id | id in st.intents ::
      if ActiveFor(st.intents[id], proposal) then Supersede(st.intents[id], st.nextId, now) else st.intents[id]
  {
    assert forall id :: id in st.intents ==> (ActiveFor(st.intents[id], proposal) <==> st.intents[id] in rows);
  }
}
