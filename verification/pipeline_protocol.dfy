/** Whole-run properties of the order-intent pipeline. */
module PipelineProtocol {
  import opened Common
  import opened Domain
  import opened PaperTrading
  import opened ExecutionPipeline

  /** The service's fixed configuration: its mode and whether its adapter could execute live. */
  datatype Config = Config(mode: BotMode, supportsLive: bool)

  datatype Operation =
    | CreateOp(proposal: TradeProposal, supersede: bool, now: int)
    | PrepareOp(id: IntentId, accepted: bool, now: int)
    | SubmitOp(id: IntentId, accepted: bool, now: int)
    | SimulateOp(id: IntentId, overrides: Overrides, now: int, start: int)

  function Apply(c: Config, st: PipelineState, op: Operation): PipelineState {
    match op
    case CreateOp(p, supersede, now) => Creating(st, p, supersede, now).0
    case PrepareOp(id, accepted, now) => Preparing(st, id, c.supportsLive, accepted, now).0
    case SubmitOp(id, accepted, now) => Submitting(st, id, c.mode, c.supportsLive, accepted, now).0
    case SimulateOp(id, o, now, start) => Simulating(st, id, o, now, start).0
  }

  function Run(c: Config, st: PipelineState, ops: seq<Operation>): PipelineState
    decreases |ops|
  {
    if ops == [] then st else Run(c, Apply(c, st, ops[0]), ops[1..])
  }

  // ---- Invariant --------------------------------------------------------------------------------------------------

  ghost predicate KeyedIntents(st: PipelineState) {
    forall id :: id in st.intents ==> id < st.nextId && st.intents[id].intentId == id
  }

  ghost predicate OneActivePerProposal(st: PipelineState) {
    forall i, j | i in st.intents && j in st.intents ::
      (st.intents[i].status.Active() && ActiveFor(st.intents[j], st.intents[i].proposalId)) ==> i == j
  }

  /** A superseded intent, and no other, points to a later intent of its own proposal. */
  ghost predicate LinksForward(st: PipelineState) {
    forall id :: id in st.intents ==>
      var intent := st.intents[id];
      && (intent.status == Superseded <==> intent.supersededBy.Some?)
      && (intent.supersededBy.Some? ==>
            var next := intent.supersededBy.value;
            id < next && next in st.intents && st.intents[next].proposalId == intent.proposalId)
  }

  function ExecutionCount(executions: seq<Execution>, id: IntentId): nat {
    if executions == [] then 0
    else ExecutionCount(executions[..|executions| - 1], id) + if executions[|executions| - 1].intentId == id then 1
      else 0
  }

  /** What the recorded fill events of one execution add up to. */
  function RecordedFill(fills: seq<FillEvent>, executionId: nat): int {
    if fills == [] then 0
    else
      var last := fills[|fills| - 1];
      RecordedFill(fills[..|fills| - 1], executionId)
      + if last.executionId == executionId then last.fragment.size else 0
  }

  function ExpectedExecutions(st: PipelineState, id: IntentId): nat {
    if id in st.intents && st.intents[id].status.Simulated() then 1 else 0
  }

  ghost predicate ExecutionsMatchIntents(st: PipelineState) {
    && (forall id :: ExecutionCount(st.executions, id) == ExpectedExecutions(st, id))
    && (forall k :: 0 <= k < |st.executions| ==>
          var e := st.executions[k];
          && e.executionId == k
          && e.intentId in st.intents
          && e.status == st.intents[e.intentId].status
          && 0 <= e.result.filled
          && e.result.filled <= MaxInt(0, st.intents[e.intentId].size))
  }

  ghost predicate FillsMatchExecutions(st: PipelineState) {
    && (forall k :: 0 <= k < |st.fills| ==> st.fills[k].executionId < |st.executions|)
    && (forall k :: 0 <= k < |st.executions| ==> RecordedFill(st.fills, k) == st.executions[k].result.filled)
  }

  /** An intent's order reaches the adapter at most once, exactly when its submission was answered. */
  ghost predicate SubmittedOnce(c: Config, st: PipelineState) {
    && (forall j, k :: 0 <= j < k < |st.submitted| ==> st.submitted[j] != st.submitted[k])
    && (forall id :: id in st.submitted <==>
          id in st.intents && st.intents[id].status in {SubmissionAccepted, SubmissionRejected})
    && (c.mode == SemiAuto ==> st.submitted == [])
  }

  ghost predicate Invariant(c: Config, st: PipelineState) {
    && KeyedIntents(st)
    && OneActivePerProposal(st)
    && LinksForward(st)
    && ExecutionsMatchIntents(st)
    && FillsMatchExecutions(st)
    && SubmittedOnce(c, st)
  }

  // ---- Steps ------------------------------------------------------------------------------------------------------

  ghost predicate SoundIntents(st: PipelineState) {
    KeyedIntents(st) && OneActivePerProposal(st) && LinksForward(st)
  }

  lemma StatusKeepsIntentsSound(st: PipelineState, id: IntentId, status: IntentStatus, now: int)
    requires SoundIntents(st) && id in st.intents && st.intents[id].status.Active() && status != Superseded
    ensures SoundIntents(WithStatus(st, id, status, now))
  {
  }

  lemma StatusKeepsExecutions(st: PipelineState, id: IntentId, status: IntentStatus, now: int)
    requires ExecutionsMatchIntents(st) && id in st.intents && st.intents[id].status.Active() && !status.Simulated()
    ensures ExecutionsMatchIntents(WithStatus(st, id, status, now))
  {
    var st' := WithStatus(st, id, status, now);
    NoExecutionOf(st, id);
    forall other ensures ExecutionCount(st'.executions, other) == ExpectedExecutions(st', other) {
      assert ExecutionCount(st.executions, other) == ExpectedExecutions(st, other);
    }
  }

  lemma StatusKeepsSubmitted(c: Config, st: PipelineState, id: IntentId, status: IntentStatus, now: int)
    requires SubmittedOnce(c, st) && id in st.intents && st.intents[id].status.Active()
    requires status !in {SubmissionAccepted, SubmissionRejected}
    ensures SubmittedOnce(c, WithStatus(st, id, status, now))
  {
  }

  /** A status change of an active intent that neither simulates, submits nor supersedes it. */
  lemma PlainStatusKeeps(c: Config, st: PipelineState, id: IntentId, status: IntentStatus, now: int)
    requires Invariant(c, st) && id in st.intents && st.intents[id].status.Active()
    requires !status.Simulated() && status !in {Superseded, SubmissionAccepted, SubmissionRejected}
    ensures Invariant(c, WithStatus(st, id, status, now))
  {
    StatusKeepsIntentsSound(st, id, status, now);
    StatusKeepsExecutions(st, id, status, now);
    StatusKeepsSubmitted(c, st, id, status, now);
  }

  lemma NoExecutionOf(st: PipelineState, id: IntentId)
    requires ExecutionsMatchIntents(st) && ExpectedExecutions(st, id) == 0
    ensures forall k :: 0 <= k < |st.executions| ==> st.executions[k].intentId != id
  {
    CountZero(st.executions, id);
  }

  lemma {:induction false} CountZero(executions: seq<Execution>, id: IntentId)
    requires ExecutionCount(executions, id) == 0
    ensures forall k :: 0 <= k < |executions| ==> executions[k].intentId != id
  {
    if executions != [] {
      CountZero(executions[..|executions| - 1], id);
    }
  }

  lemma CountAppend(executions: seq<Execution>, e: Execution, id: IntentId)
    ensures ExecutionCount(executions + [e], id) == ExecutionCount(executions, id) + if e.intentId == id then 1 else 0
  {
    assert (executions + [e])[..|executions|] == executions;
  }

  lemma SubmittedAppend(c: Config, st: PipelineState, id: IntentId, status: IntentStatus, now: int)
    requires SubmittedOnce(c, st) && id in st.intents && st.intents[id].status == Prepared && c.mode != SemiAuto
    requires status in {SubmissionAccepted, SubmissionRejected}
    ensures SubmittedOnce(c, WithStatus(st, id, status, now).(submitted := st.submitted + [id]))
  {
  }

  lemma SubmitKeeps(c: Config, st: PipelineState, id: IntentId, status: IntentStatus, now: int)
    requires Invariant(c, st) && id in st.intents && st.intents[id].status == Prepared
    requires status in {SubmissionAccepted, SubmissionRejected} && c.mode != SemiAuto
    ensures Invariant(c, WithStatus(st, id, status, now).(submitted := st.submitted + [id]))
  {
    StatusKeepsIntentsSound(st, id, status, now);
    StatusKeepsExecutions(st, id, status, now);
    SubmittedAppend(c, st, id, status, now);
  }

  lemma {:induction false} RecordedFillAppend(fills: seq<FillEvent>, events: seq<FillEvent>, executionId: nat)
    ensures RecordedFill(fills + events, executionId)
      == RecordedFill(fills, executionId) + RecordedFill(events, executionId)
  {
    if events == [] {
      assert fills + events == fills;
    } else {
      var n := |events| - 1;
      assert (fills + events)[..|fills| + n] == fills + events[..n];
      RecordedFillAppend(fills, events[..n], executionId);
    }
  }

  lemma {:induction false} RecordedFillOfFragments(executionId: nat, id: IntentId, fragments: seq<Fragment>, asked: nat)
    ensures RecordedFill(FillEvents(executionId, id, fragments), asked) == if asked == executionId
      then TotalFilled(fragments) else 0
  {
    var events := FillEvents(executionId, id, fragments);
    if fragments == [] {
    } else {
      var n := |fragments| - 1;
      assert events[..n] == FillEvents(executionId, id, fragments[..n]);
      RecordedFillOfFragments(executionId, id, fragments[..n], asked);
      assert FragmentSizes(fragments) == FragmentSizes(fragments[..n]) + [fragments[n].size];
      SumConcat(FragmentSizes(fragments[..n]), [fragments[n].size]);
      SumOne(fragments[n].size);
    }
  }

  lemma {:induction false} RecordedFillOfOthers(fills: seq<FillEvent>, executionId: nat)
    requires forall k :: 0 <= k < |fills| ==> fills[k].executionId != executionId
    ensures RecordedFill(fills, executionId) == 0
  {
    if fills != [] {
      RecordedFillOfOthers(fills[..|fills| - 1], executionId);
    }
  }

  lemma FillsAfterSimulation(st: PipelineState, id: IntentId, result: SimulationResult)
    requires FillsMatchExecutions(st) && result.filled == TotalFilled(result.fragments)
    ensures var n := |st.executions|;
      FillsMatchExecutions(st.(executions := st.executions + [Execution(n, id, result.stage, result)],
                               fills := st.fills + FillEvents(n, id, result.fragments)))
  {
    var n := |st.executions|;
    var events := FillEvents(n, id, result.fragments);
    forall k | 0 <= k <= n
      ensures RecordedFill(st.fills + events, k) == if k == n then result.filled else st.executions[k].result.filled
    {
      RecordedFillAppend(st.fills, events, k);
      RecordedFillOfFragments(n, id, result.fragments, k);
      if k == n { RecordedFillOfOthers(st.fills, n); }
    }
  }

  lemma SimulationIsSimulated(request: OrderRequest, now: int, start: int)
    ensures var result := Simulation(request, now, start);
      && result.stage.Simulated()
      && result.filled == TotalFilled(result.fragments)
      && 0 <= result.filled && result.filled <= MaxInt(0, request.size)
  {
    if Acceptable(request) {
      FillConservation(request, now, start);
      var fragments := Simulation(request, now, start).fragments;
      if fragments != [] { FilledPositive(fragments); }
    }
  }

  lemma ExecutionsAfterSimulation(st: PipelineState, id: IntentId, result: SimulationResult, now: int)
    requires ExecutionsMatchIntents(st) && id in st.intents && st.intents[id].status == Prepared
    requires result.stage.Simulated() && 0 <= result.filled && result.filled <= MaxInt(0, st.intents[id].size)
    ensures ExecutionsMatchIntents(WithStatus(st, id, result.stage, now).(
      executions := st.executions + [Execution(|st.executions|, id, result.stage, result)]))
  {
    var e := Execution(|st.executions|, id, result.stage, result);
    var st' := WithStatus(st, id, result.stage, now).(executions := st.executions + [e]);
    forall other ensures ExecutionCount(st'.executions, other) == ExpectedExecutions(st', other) {
      CountAppend(st.executions, e, other);
      assert ExecutionCount(st.executions, other) == ExpectedExecutions(st, other);
    }
    RowsAfterSimulation(st, id, result, now);
  }

  lemma RowsAfterSimulation(st: PipelineState, id: IntentId, result: SimulationResult, now: int)
    requires ExecutionsMatchIntents(st) && id in st.intents && st.intents[id].status == Prepared
    requires 0 <= result.filled && result.filled <= MaxInt(0, st.intents[id].size)
    ensures var st' := WithStatus(st, id, result.stage, now);
      var executions := st.executions + [Execution(|st.executions|, id, result.stage, result)];
      forall k :: 0 <= k < |executions| ==>
        && executions[k].executionId == k
        && executions[k].intentId in st'.intents
        && executions[k].status == st'.intents[executions[k].intentId].status
        && 0 <= executions[k].result.filled
        && executions[k].result.filled <= MaxInt(0, st'.intents[executions[k].intentId].size)
  {
    NoExecutionOf(st, id);
  }

  lemma SimulateKeeps(c: Config, st: PipelineState, id: IntentId, result: SimulationResult, now: int)
    requires Invariant(c, st) && id in st.intents && st.intents[id].status == Prepared
    requires result.stage.Simulated() && result.filled == TotalFilled(result.fragments)
    requires 0 <= result.filled && result.filled <= MaxInt(0, st.intents[id].size)
    ensures Invariant(c, WithStatus(st, id, result.stage, now).(
      executions := st.executions + [Execution(|st.executions|, id, result.stage, result)],
      fills := st.fills + FillEvents(|st.executions|, id, result.fragments)))
  {
    StatusKeepsIntentsSound(st, id, result.stage, now);
    ExecutionsAfterSimulation(st, id, result, now);
    FillsAfterSimulation(st, id, result);
    StatusKeepsSubmitted(c, st, id, result.stage, now);
  }

  lemma CreateKeepsOneActive(st: PipelineState, p: TradeProposal, supersede: bool, now: int)
    requires KeyedIntents(st) && OneActivePerProposal(st)
    ensures OneActivePerProposal(Creating(st, p, supersede, now).0)
  {
  }

  lemma CreateKeepsLinks(st: PipelineState, p: TradeProposal, supersede: bool, now: int)
    requires KeyedIntents(st) && LinksForward(st)
    ensures KeyedIntents(Creating(st, p, supersede, now).0) && LinksForward(Creating(st, p, supersede, now).0)
  {
  }

  lemma CreateKeepsIntentsSound(st: PipelineState, p: TradeProposal, supersede: bool, now: int)
    requires SoundIntents(st)
    ensures SoundIntents(Creating(st, p, supersede, now).0)
  {
    CreateKeepsOneActive(st, p, supersede, now);
    CreateKeepsLinks(st, p, supersede, now);
  }

  lemma CreateKeepsExecutions(st: PipelineState, p: TradeProposal, supersede: bool, now: int)
    requires KeyedIntents(st) && ExecutionsMatchIntents(st)
    ensures ExecutionsMatchIntents(Creating(st, p, supersede, now).0)
  {
    var (st', r) := Creating(st, p, supersede, now);
    if r.Ok? {
      forall id ensures ExecutionCount(st'.executions, id) == ExpectedExecutions(st', id) {
        assert ExecutionCount(st.executions, id) == ExpectedExecutions(st, id);
      }
      forall k | 0 <= k < |st'.executions|
        ensures var id := st'.executions[k].intentId;
          id in st.intents && id in st'.intents && st'.intents[id] == st.intents[id]
      {
        ExecutedIsSimulated(st, k);
      }
    }
  }

  lemma CreateKeepsSubmitted(c: Config, st: PipelineState, p: TradeProposal, supersede: bool, now: int)
    requires KeyedIntents(st) && SubmittedOnce(c, st)
    ensures SubmittedOnce(c, Creating(st, p, supersede, now).0)
  {
  }

  lemma CreateKeeps(c: Config, st: PipelineState, p: TradeProposal, supersede: bool, now: int)
    requires Invariant(c, st)
    ensures Invariant(c, Creating(st, p, supersede, now).0)
  {
    CreateKeepsIntentsSound(st, p, supersede, now);
    CreateKeepsExecutions(st, p, supersede, now);
    CreateKeepsSubmitted(c, st, p, supersede, now);
  }

  /** An intent with an execution is in a simulated state, so it is never superseded. */
  lemma ExecutedIsSimulated(st: PipelineState, k: nat)
    requires ExecutionsMatchIntents(st) && k < |st.executions|
    ensures st.intents[st.executions[k].intentId].status.Simulated()
  {
    var id := st.executions[k].intentId;
    if ExpectedExecutions(st, id) == 0 {
      NoExecutionOf(st, id);
      assert false;
    }
  }

  lemma ApplyKeeps(c: Config, st: PipelineState, op: Operation)
    requires Invariant(c, st)
    ensures Invariant(c, Apply(c, st, op))
  {
    match op
    case CreateOp(p, supersede, now) => CreateKeeps(c, st, p, supersede, now);
    case PrepareOp(id, accepted, now) =>
      if Preparing(st, id, c.supportsLive, accepted, now).1.Ok? {
        PlainStatusKeeps(c, st, id, if accepted then Prepared else Blocked, now);
      }
    case SubmitOp(id, accepted, now) =>
      if id in st.intents && st.intents[id].status == Prepared && !c.supportsLive {
        if c.mode == SemiAuto {
          PlainStatusKeeps(c, st, id, SubmissionDisabled, now);
        } else {
          SubmitKeeps(c, st, id, if accepted then SubmissionAccepted else SubmissionRejected, now);
        }
      }
    case SimulateOp(id, o, now, start) =>
      if id in st.intents && st.intents[id].status == Prepared {
        SimulationIsSimulated(RequestFor(st.intents[id], o), now, start);
        SimulateKeeps(c, st, id, Simulation(RequestFor(st.intents[id], o), now, start), now);
      }
  }

  lemma EmptyIsConsistent(c: Config)
    ensures Invariant(c, EMPTY)
  {
  }

  lemma {:induction false} RunKeepsInvariant(c: Config, st: PipelineState, ops: seq<Operation>)
    requires Invariant(c, st)
    ensures Invariant(c, Run(c, st, ops))
    decreases |ops|
  {
    if ops != [] {
      ApplyKeeps(c, st, ops[0]);
      RunKeepsInvariant(c, Apply(c, st, ops[0]), ops[1..]);
    }
  }

  // ---- Whole-run theorems -----------------------------------------------------------------------------------------

  /** In every reachable state: at most one active intent per proposal; exactly one execution, with the intent's own
      status, for a simulated intent and none for any other; recorded fill events that add up to what their execution
      filled, which never exceeds the order; and no order submitted twice, or at all in semi-auto mode. */
  lemma ReachableStatesAreConsistent(c: Config, ops: seq<Operation>)
    ensures var st := Run(c, EMPTY, ops);
      && OneActivePerProposal(st)
      && ExecutionsMatchIntents(st)
      && FillsMatchExecutions(st)
      && SubmittedOnce(c, st)
  {
    EmptyIsConsistent(c);
    RunKeepsInvariant(c, EMPTY, ops);
  }

  /** `n` links on from an intent, if there are that many. */
  function Follow(st: PipelineState, id: IntentId, n: nat): Option<IntentId>
    decreases n
  {
    if n == 0 then Some(id)
    else if id in st.intents && st.intents[id].supersededBy.Some?
      then Follow(st, st.intents[id].supersededBy.value, n - 1)
    else None
  }

  /** Following links never comes back: each one leads to a strictly later intent of the same proposal. */
  lemma {:induction false} LinksAreAcyclic(c: Config, st: PipelineState, id: IntentId, n: nat)
    requires Invariant(c, st) && id in st.intents
    ensures Follow(st, id, n).Some? ==>
      var end := Follow(st, id, n).value;
      end in st.intents && st.intents[end].proposalId == st.intents[id].proposalId && (n > 0 ==> id < end)
    decreases n
  {
    if n > 0 && st.intents[id].supersededBy.Some? {
      LinksAreAcyclic(c, st, st.intents[id].supersededBy.value, n - 1);
    }
  }

  /** The links of an intent end after `n` steps at one of its proposal's intents that is not superseded. */
  predicate LinksEnd(st: PipelineState, id: IntentId, n: nat) {
    && id in st.intents && Follow(st, id, n).Some?
    && var last := Follow(st, id, n).value;
    last in st.intents && st.intents[last].status != Superseded
      && st.intents[last].proposalId == st.intents[id].proposalId
  }

  lemma {:induction false} FollowToTheEnd(c: Config, st: PipelineState, id: IntentId) returns (n: nat)
    requires Invariant(c, st) && id in st.intents
    ensures LinksEnd(st, id, n)
    decreases st.nextId - id
  {
    if st.intents[id].supersededBy.None? {
      n := 0;
    } else {
      var rest := FollowToTheEnd(c, st, st.intents[id].supersededBy.value);
      n := rest + 1;
    }
  }

  /** In every reachable state the links lead from any intent, superseded or not, to one that is not superseded; there
      the links stop, so it is the only one they lead to. */
  lemma SupersessionEnds(c: Config, ops: seq<Operation>, id: IntentId)
    requires id in Run(c, EMPTY, ops).intents
    ensures exists n: nat :: LinksEnd(Run(c, EMPTY, ops), id, n)
    ensures forall m: nat, n: nat ::
              LinksEnd(Run(c, EMPTY, ops), id, m) && LinksEnd(Run(c, EMPTY, ops), id, n) ==> m == n
  {
    EmptyIsConsistent(c);
    RunKeepsInvariant(c, EMPTY, ops);
    var st := Run(c, EMPTY, ops);
    var n := FollowToTheEnd(c, st, id);
    forall j: nat, k: nat | LinksEnd(st, id, j) && LinksEnd(st, id, k) ensures j == k {
      if j < k { NothingAfterTheEnd(c, st, id, j, k); }
      if k < j { NothingAfterTheEnd(c, st, id, k, j); }
    }
  }

  lemma {:induction false} NothingAfterTheEnd(c: Config, st: PipelineState, id: IntentId, n: nat, more: nat)
    requires Invariant(c, st) && LinksEnd(st, id, n) && n < more
    ensures Follow(st, id, more).None?
    decreases n
  {
    if n > 0 { NothingAfterTheEnd(c, st, st.intents[id].supersededBy.value, n - 1, more - 1); }
  }

  /** What an operation may do to an existing intent: its terms never change, and a terminal one is not touched. */
  predicate Evolves(before: OrderIntent, after: OrderIntent) {
    && after.intentId == before.intentId && after.proposalId == before.proposalId && after.side == before.side
    && after.size == before.size && after.limit == before.limit && after.createdAt == before.createdAt
    && (before.status.Terminal() ==> after == before)
  }

  /** How many status changes an intent still has in it. */
  function ChangesLeft(status: IntentStatus): nat {
    if status == Created then 2 else if status == Prepared then 1 else 0
  }

  lemma CreateEvolves(st: PipelineState, p: TradeProposal, supersede: bool, now: int, id: IntentId)
    requires KeyedIntents(st) && id in st.intents
    ensures var after := Creating(st, p, supersede, now).0.intents;
      && id in after && Evolves(st.intents[id], after[id])
      && (after[id].status != st.intents[id].status
        ==> ChangesLeft(after[id].status) < ChangesLeft(st.intents[id].status))
  {
  }

  lemma SimulateEvolves(st: PipelineState, asked: IntentId, overrides: Overrides, now: int, start: int, id: IntentId)
    requires KeyedIntents(st) && id in st.intents
    ensures var after := Simulating(st, asked, overrides, now, start).0.intents;
      && id in after && Evolves(st.intents[id], after[id])
      && (after[id].status != st.intents[id].status
        ==> ChangesLeft(after[id].status) < ChangesLeft(st.intents[id].status))
  {
    if asked == id { SimulationIsSimulated(RequestFor(st.intents[id], overrides), now, start); }
  }

  lemma ApplyEvolves(c: Config, st: PipelineState, op: Operation, id: IntentId)
    requires Invariant(c, st) && id in st.intents
    ensures id in Apply(c, st, op).intents
    ensures var before, after := st.intents[id], Apply(c, st, op).intents[id];
      && Evolves(before, after)
      && (after.status != before.status ==> ChangesLeft(after.status) < ChangesLeft(before.status))
  {
    match op
    case CreateOp(p, supersede, now) => CreateEvolves(st, p, supersede, now, id);
    case PrepareOp(_, _, _) =>
    case SubmitOp(_, _, _) =>
    case SimulateOp(asked, overrides, now, start) => SimulateEvolves(st, asked, overrides, now, start, id);
  }

  lemma {:induction false} RunEvolves(c: Config, st: PipelineState, ops: seq<Operation>, id: IntentId)
    requires Invariant(c, st) && id in st.intents
    ensures id in Run(c, st, ops).intents && Evolves(st.intents[id], Run(c, st, ops).intents[id])
    decreases |ops|
  {
    if ops != [] {
      ApplyKeeps(c, st, ops[0]);
      ApplyEvolves(c, st, ops[0], id);
      RunEvolves(c, Apply(c, st, ops[0]), ops[1..], id);
    }
  }

  /** The number of operations of a run that change the status of an existing intent. */
  function StatusChanges(c: Config, st: PipelineState, ops: seq<Operation>, id: IntentId): nat
    decreases |ops|
  {
    if ops == [] then 0
    else
      var st' := Apply(c, st, ops[0]);
      (if id in st.intents && id in st'.intents && st.intents[id].status != st'.intents[id].status then 1 else 0)
      + StatusChanges(c, st', ops[1..], id)
  }

  /** Every intent changes status at most twice, over any run from any consistent state. */
  lemma {:induction false} AtMostTwoChanges(c: Config, st: PipelineState, ops: seq<Operation>, id: IntentId)
    requires Invariant(c, st)
    ensures StatusChanges(c, st, ops, id) <= if id in st.intents then ChangesLeft(st.intents[id].status) else 2
    decreases |ops|
  {
    if ops != [] {
      ApplyKeeps(c, st, ops[0]);
      if id in st.intents {
        ApplyEvolves(c, st, ops[0], id);
      }
      AtMostTwoChanges(c, Apply(c, st, ops[0]), ops[1..], id);
    }
  }

  // ---- What every status says about the run -----------------------------------------------------------------------

  /** Which answer leads where, on an adapter that does not submit live: preparing a created intent, and submitting a
      prepared one outside semi-auto mode; any other intent is left alone, and so is every other intent. */
  lemma AnswersDecide(c: Config, st: PipelineState, id: IntentId, accepted: bool, now: int, other: IntentId)
    requires !c.supportsLive && id in st.intents && other in st.intents
    ensures var after := Apply(c, st, PrepareOp(id, accepted, now)).intents;
      && id in after && other in after && (other != id ==> after[other] == st.intents[other])
      && (if st.intents[id].status == Created
          then (after[id].status == Prepared <==> accepted) && (after[id].status == Blocked <==> !accepted)
          else after[id] == st.intents[id])
    ensures var after := Apply(c, st, SubmitOp(id, accepted, now)).intents;
      && id in after && other in after && (other != id ==> after[other] == st.intents[other])
      && (if st.intents[id].status == Prepared && c.mode != SemiAuto
          then
            && (after[id].status == SubmissionAccepted <==> accepted)
            && (after[id].status == SubmissionRejected <==> !accepted)
          else if st.intents[id].status == Prepared then after[id].status == SubmissionDisabled
          else after[id] == st.intents[id])
  {
  }

  /** A live adapter is refused everything: nothing is ever prepared or submitted. */
  lemma LiveAdaptersAreRefused(c: Config, st: PipelineState, id: IntentId, accepted: bool, now: int)
    requires c.supportsLive
    ensures Apply(c, st, PrepareOp(id, accepted, now)) == st && Apply(c, st, SubmitOp(id, accepted, now)) == st
  {
  }

  /** An intent is created from a proposal exactly when it is approved and unexpired and either has no active intent or
      may replace it; it carries the proposal's terms, and exactly the proposal's active intents are superseded by
      it. */
  lemma CreatedIff(st: PipelineState, p: TradeProposal, supersede: bool, now: int)
    requires KeyedIntents(st)
    ensures var (after, r) := Creating(st, p, supersede, now);
      var busy := exists id :: id in st.intents && st.intents[id].proposalId == p.proposalId
                               && st.intents[id].status in {Created, Prepared};
      && (r.Ok? <==> p.status == Approved && now < p.expiresAt && (busy ==> supersede))
      && (r.Err? ==> after == st)
      && (r.Ok? ==>
            && after.intents.Keys == st.intents.Keys + {st.nextId}
            && after.intents[st.nextId]
               == OrderIntent(st.nextId, p.proposalId, p.side, p.currentSize, p.currentLimit, Created, now, now, None))
  {
    if HasActive(st, p.proposalId) {
      var id :| id in st.intents && ActiveFor(st.intents[id], p.proposalId);
      assert st.intents[id].status in {Created, Prepared};
    }
  }

  lemma SupersededExactly(st: PipelineState, p: TradeProposal, supersede: bool, now: int, id: IntentId)
    requires KeyedIntents(st) && id in st.intents && Creating(st, p, supersede, now).1.Ok?
    ensures var before, after := st.intents[id], Creating(st, p, supersede, now).0.intents[id];
      if before.proposalId == p.proposalId && before.status in {Created, Prepared}
      then after == before.(status := Superseded, supersededBy := Some(st.nextId), updatedAt := now)
      else after == before
  {
  }

  predicate Answered(ops: seq<Operation>, id: IntentId, accepted: bool) {
    exists k :: 0 <= k < |ops| && ops[k].PrepareOp? && ops[k].id == id && ops[k].accepted == accepted
  }

  predicate Submitted(ops: seq<Operation>, id: IntentId, accepted: bool) {
    exists k :: 0 <= k < |ops| && ops[k].SubmitOp? && ops[k].id == id && ops[k].accepted == accepted
  }

  predicate SimulationAsked(ops: seq<Operation>, id: IntentId) {
    exists k :: 0 <= k < |ops| && ops[k].SimulateOp? && ops[k].id == id
  }

  predicate ReplacementAsked(ops: seq<Operation>, proposal: ProposalId) {
    exists k :: 0 <= k < |ops| && ops[k].CreateOp? && ops[k].supersede && ops[k].proposal.proposalId == proposal
  }

  /** The operations that a status is the trace of. */
  predicate Explained(c: Config, intent: OrderIntent, ops: seq<Operation>) {
    var id := intent.intentId;
    match intent.status
    case Created => true
    case Prepared => Answered(ops, id, true)
    case Blocked => Answered(ops, id, false)
    case Superseded => ReplacementAsked(ops, intent.proposalId)
    case SubmissionAccepted => Answered(ops, id, true) && Submitted(ops, id, true) && c.mode != SemiAuto
    case SubmissionRejected => Answered(ops, id, true) && Submitted(ops, id, false) && c.mode != SemiAuto
    case SubmissionDisabled => Answered(ops, id, true) && c.mode == SemiAuto
    case _ => Answered(ops, id, true) && SimulationAsked(ops, id)
  }

  ghost predicate AllExplained(c: Config, st: PipelineState, ops: seq<Operation>) {
    forall id :: id in st.intents ==> Explained(c, st.intents[id], ops)
  }

  /** One more operation takes no explanation away, and gives the ones it is. */
  lemma MoreOperations(ops: seq<Operation>, op: Operation)
    ensures forall id, b :: Answered(ops, id, b) || (op.PrepareOp? && op.id == id && op.accepted == b) ==>
              Answered(ops + [op], id, b)
    ensures forall id, b :: Submitted(ops, id, b) || (op.SubmitOp? && op.id == id && op.accepted == b) ==>
              Submitted(ops + [op], id, b)
    ensures forall id :: SimulationAsked(ops, id) || (op.SimulateOp? && op.id == id) ==> SimulationAsked(ops + [op], id)
    ensures forall p :: ReplacementAsked(ops, p) || (op.CreateOp? && op.supersede && op.proposal.proposalId == p) ==>
              ReplacementAsked(ops + [op], p)
  {
    var more := ops + [op];
    assert more[|ops|] == op && forall k :: 0 <= k < |ops| ==> more[k] == ops[k];
  }

  lemma StillExplained(c: Config, intent: OrderIntent, ops: seq<Operation>, op: Operation)
    requires Explained(c, intent, ops)
    ensures Explained(c, intent, ops + [op])
  {
    MoreOperations(ops, op);
  }

  lemma CreateExplains(c: Config, st: PipelineState, ops: seq<Operation>, op: Operation, id: IntentId)
    requires KeyedIntents(st) && AllExplained(c, st, ops) && op.CreateOp? && id in Apply(c, st, op).intents
    ensures Explained(c, Apply(c, st, op).intents[id], ops + [op])
  {
    MoreOperations(ops, op);
    if id in st.intents {
      StillExplained(c, st.intents[id], ops, op);
      if Apply(c, st, op).intents[id] != st.intents[id] {
        SupersededExactly(st, op.proposal, op.supersede, op.now, id);
        assert ActiveFor(st.intents[id], op.proposal.proposalId);
        assert HasActive(st, op.proposal.proposalId) && op.supersede;
      }
    }
  }

  lemma StepExplains(c: Config, st: PipelineState, ops: seq<Operation>, op: Operation, id: IntentId)
    requires KeyedIntents(st) && AllExplained(c, st, ops) && id in Apply(c, st, op).intents
    ensures Explained(c, Apply(c, st, op).intents[id], ops + [op])
  {
    MoreOperations(ops, op);
    match op
    case CreateOp(_, _, _) => CreateExplains(c, st, ops, op, id);
    case PrepareOp(_, _, _) => StillExplained(c, st.intents[id], ops, op);
    case SubmitOp(_, _, _) => StillExplained(c, st.intents[id], ops, op);
    case SimulateOp(asked, overrides, now, start) =>
      StillExplained(c, st.intents[id], ops, op);
      if asked == id { SimulationIsSimulated(RequestFor(st.intents[id], overrides), now, start); }
  }

  lemma {:induction false} RunExplains(c: Config, st: PipelineState, done: seq<Operation>, ops: seq<Operation>)
    requires Invariant(c, st) && AllExplained(c, st, done)
    ensures AllExplained(c, Run(c, st, ops), done + ops)
    decreases |ops|
  {
    if ops == [] {
      assert done + ops == done;
    } else {
      var st' := Apply(c, st, ops[0]);
      ApplyKeeps(c, st, ops[0]);
      forall id | id in st'.intents ensures Explained(c, st'.intents[id], done + [ops[0]]) {
        StepExplains(c, st, done, ops[0], id);
      }
      RunExplains(c, st', done + [ops[0]], ops[1..]);
      assert done + [ops[0]] + ops[1..] == done + ops;
    }
  }

  /** In every run from the start each status is the trace of what was done: a prepared, submitted or simulated intent
      was prepared by an accepting answer, a blocked one by a refusing answer, a submission was answered as its status
      says, and in semi-auto mode only disabled; a simulated one was asked for, and a superseded one was replaced. */
  lemma StatusTellsItsOperations(c: Config, ops: seq<Operation>, id: IntentId)
    requires id in Run(c, EMPTY, ops).intents
    ensures Explained(c, Run(c, EMPTY, ops).intents[id], ops)
  {
    EmptyIsConsistent(c);
    RunExplains(c, EMPTY, [], ops);
    assert [] + ops == ops;
  }

  // ---- What every execution is an execution of --------------------------------------------------------------------

  /** The operation that made an execution: the paper result of the intent's own side, size and limit, under the quotes
      and limits the operation gave. */
  predicate Executes(op: Operation, e: Execution, side: Side, size: int, limit: int) {
    && op.SimulateOp? && op.id == e.intentId && e.status == e.result.stage
    && var o := op.overrides;
    e.result == Simulation(OrderRequest(side, size, limit, o.bestBid, o.bestAsk, o.ttlMs, o.cancelAfterMs,
                                        o.baseLatencyMs),
                           op.now, op.start)
  }

  predicate ExecutionExplained(e: Execution, intent: OrderIntent, ops: seq<Operation>) {
    exists k :: 0 <= k < |ops| && Executes(ops[k], e, intent.side, intent.size, intent.limit)
  }

  ghost predicate ExecutionsExplained(st: PipelineState, ops: seq<Operation>) {
    forall k :: 0 <= k < |st.executions| ==>
      st.executions[k].intentId in st.intents
      && ExecutionExplained(st.executions[k], st.intents[st.executions[k].intentId], ops)
  }

  lemma ExecutionStillExplained(c: Config, st: PipelineState, ops: seq<Operation>, op: Operation, k: nat)
    requires Invariant(c, st) && ExecutionsExplained(st, ops) && k < |st.executions|
    ensures var st' := Apply(c, st, op); var e := st.executions[k];
      e.intentId in st'.intents && ExecutionExplained(e, st'.intents[e.intentId], ops + [op])
  {
    var e := st.executions[k];
    var intent := st.intents[e.intentId];
    ApplyEvolves(c, st, op, e.intentId);
    var j :| 0 <= j < |ops| && Executes(ops[j], e, intent.side, intent.size, intent.limit);
    assert (ops + [op])[j] == ops[j];
  }

  lemma NewExecutionExplained(c: Config, st: PipelineState, ops: seq<Operation>, op: Operation)
    requires Invariant(c, st) && Apply(c, st, op).executions != st.executions
    ensures var st' := Apply(c, st, op);
      && |st'.executions| == |st.executions| + 1 && st'.executions[..|st.executions|] == st.executions
      && var e := st'.executions[|st.executions|];
      e.intentId in st'.intents && ExecutionExplained(e, st'.intents[e.intentId], ops + [op])
  {
    assert (ops + [op])[|ops|] == op;
    var e := Apply(c, st, op).executions[|st.executions|];
    ApplyEvolves(c, st, op, e.intentId);
    var intent := Apply(c, st, op).intents[e.intentId];
    assert Executes(op, e, intent.side, intent.size, intent.limit);
  }

  lemma ExecutionsStepExplained(c: Config, st: PipelineState, ops: seq<Operation>, op: Operation)
    requires Invariant(c, st) && ExecutionsExplained(st, ops)
    ensures ExecutionsExplained(Apply(c, st, op), ops + [op])
  {
    var st' := Apply(c, st, op);
    if st'.executions != st.executions { NewExecutionExplained(c, st, ops, op); }
    forall k | 0 <= k < |st'.executions|
      ensures st'.executions[k].intentId in st'.intents
        && ExecutionExplained(st'.executions[k], st'.intents[st'.executions[k].intentId], ops + [op])
    {
      if k < |st.executions| {
        ExecutionStillExplained(c, st, ops, op, k);
        assert st'.executions[k] == st.executions[k];
      }
    }
  }

  lemma {:induction false} RunExecutionsExplained(c: Config, st: PipelineState, done: seq<Operation>,
                                                  ops: seq<Operation>)
    requires Invariant(c, st) && ExecutionsExplained(st, done)
    ensures ExecutionsExplained(Run(c, st, ops), done + ops)
    decreases |ops|
  {
    if ops == [] {
      assert done + ops == done;
    } else {
      ApplyKeeps(c, st, ops[0]);
      ExecutionsStepExplained(c, st, done, ops[0]);
      RunExecutionsExplained(c, Apply(c, st, ops[0]), done + [ops[0]], ops[1..]);
      assert done + [ops[0]] + ops[1..] == done + ops;
    }
  }

  /** In every run each stored execution is the paper result of its intent's own side, size and limit, under what some
      operation of the run asked for. */
  lemma ExecutionsAreOfTheirIntents(c: Config, ops: seq<Operation>)
    ensures ExecutionsExplained(Run(c, EMPTY, ops), ops)
  {
    EmptyIsConsistent(c);
    RunExecutionsExplained(c, EMPTY, [], ops);
    assert [] + ops == ops;
  }
}
