/** The proposal lifecycle and the order-intent pipeline running together: what an approval guarantees of every intent
    ever created. An intent is created from a proposal value its caller read from the store, which may be older than
    what the store holds by then. */
module TradingSystem {
  import opened Common
  import opened Domain
  import opened Settings
  import opened Policies
  import opened ProposalLifecycle
  import Proposals = ProposalProtocol
  import Pipeline = ExecutionPipeline
  import Intents = PipelineProtocol
  import PaperTrading
  import ExecutionEvaluation

  datatype SystemState = SystemState(lifecycle: LifecycleState, pipeline: Pipeline.PipelineState)

  const EMPTY_SYSTEM: SystemState := SystemState(ProposalLifecycle.EMPTY, Pipeline.EMPTY)

  datatype Operation = OnProposals(proposalOp: Proposals.Operation) | OnIntents(intentOp: Intents.Operation)

  function Apply(s: Settings, c: Intents.Config, st: SystemState, op: Operation): SystemState {
    match op
    case OnProposals(p) => st.(lifecycle := Proposals.Apply(s, st.lifecycle, p))
    case OnIntents(i) => st.(pipeline := Intents.Apply(c, st.pipeline, i))
  }

  /** An intent is created from a row the store has held at some time. */
  predicate Legal(st: SystemState, op: Operation) {
    match op
    case OnProposals(p) => Proposals.Legal(st.lifecycle, p)
    case OnIntents(i) => i.CreateOp? ==> i.proposal in st.lifecycle.saves
  }

  predicate LegalRun(s: Settings, c: Intents.Config, st: SystemState, ops: seq<Operation>)
    decreases |ops|
  {
    ops == [] || (Legal(st, ops[0]) && LegalRun(s, c, Apply(s, c, st, ops[0]), ops[1..]))
  }

  function Run(s: Settings, c: Intents.Config, st: SystemState, ops: seq<Operation>): SystemState
    decreases |ops|
  {
    if ops == [] then st else Run(s, c, Apply(s, c, st, ops[0]), ops[1..])
  }

  // ---- Invariant --------------------------------------------------------------------------------------------------

  predicate MadeFrom(intent: Pipeline.OrderIntent, p: TradeProposal) {
    && p.status == Approved
    && intent.proposalId == p.proposalId && intent.side == p.side
    && intent.size == p.currentSize && intent.limit == p.currentLimit
    && intent.createdAt < p.expiresAt
  }

  ghost predicate IntentsComeFromApprovedRows(st: SystemState) {
    forall id :: id in st.pipeline.intents ==>
      exists k :: 0 <= k < |st.lifecycle.saves| && MadeFrom(st.pipeline.intents[id], st.lifecycle.saves[k])
  }

  ghost predicate Invariant(s: Settings, c: Intents.Config, st: SystemState) {
    Proposals.Invariant(s, st.lifecycle) && Intents.Invariant(c, st.pipeline) && IntentsComeFromApprovedRows(st)
  }

  /** The history of saved rows only grows. */
  lemma SavesGrow(s: Settings, st: LifecycleState, op: Proposals.Operation)
    ensures st.saves <= Proposals.Apply(s, st, op).saves
  {
  }

  lemma ProposalStepKeepsOrigins(s: Settings, c: Intents.Config, st: SystemState, op: Proposals.Operation)
    requires IntentsComeFromApprovedRows(st)
    ensures IntentsComeFromApprovedRows(Apply(s, c, st, OnProposals(op)))
  {
    SavesGrow(s, st.lifecycle, op);
    var saves, saves' := st.lifecycle.saves, Proposals.Apply(s, st.lifecycle, op).saves;
    forall id | id in st.pipeline.intents
      ensures exists k :: 0 <= k < |saves'| && MadeFrom(st.pipeline.intents[id], saves'[k])
    {
      var k :| 0 <= k < |saves| && MadeFrom(st.pipeline.intents[id], saves[k]);
      assert saves'[k] == saves[k];
    }
  }

  lemma IntentStepKeepsOrigins(s: Settings, c: Intents.Config, st: SystemState, op: Intents.Operation)
    requires IntentsComeFromApprovedRows(st) && Intents.Invariant(c, st.pipeline) && Legal(st, OnIntents(op))
    ensures IntentsComeFromApprovedRows(Apply(s, c, st, OnIntents(op)))
  {
    var st' := Apply(s, c, st, OnIntents(op));
    var saves := st.lifecycle.saves;
    forall id | id in st'.pipeline.intents
      ensures exists k :: 0 <= k < |saves| && MadeFrom(st'.pipeline.intents[id], saves[k])
    {
      if id in st.pipeline.intents {
        Intents.ApplyEvolves(c, st.pipeline, op, id);
        var k :| 0 <= k < |saves| && MadeFrom(st.pipeline.intents[id], saves[k]);
        assert MadeFrom(st'.pipeline.intents[id], saves[k]);
      } else {
        var k :| 0 <= k < |saves| && saves[k] == op.proposal;
        assert MadeFrom(st'.pipeline.intents[id], saves[k]);
      }
    }
  }

  lemma ApplyKeeps(s: Settings, c: Intents.Config, st: SystemState, op: Operation)
    requires Validated(s) && Invariant(s, c, st) && Legal(st, op)
    ensures Invariant(s, c, Apply(s, c, st, op))
  {
    match op
    case OnProposals(p) =>
      Proposals.ApplyKeeps(s, st.lifecycle, p);
      ProposalStepKeepsOrigins(s, c, st, p);
    case OnIntents(i) =>
      Intents.ApplyKeeps(c, st.pipeline, i);
      IntentStepKeepsOrigins(s, c, st, i);
  }

  lemma {:induction false} RunKeepsInvariant(s: Settings, c: Intents.Config, st: SystemState, ops: seq<Operation>)
    requires Validated(s) && Invariant(s, c, st) && LegalRun(s, c, st, ops)
    ensures Invariant(s, c, Run(s, c, st, ops))
    decreases |ops|
  {
    if ops != [] {
      ApplyKeeps(s, c, st, ops[0]);
      RunKeepsInvariant(s, c, Apply(s, c, st, ops[0]), ops[1..]);
    }
  }

  lemma EmptyIsConsistent(s: Settings, c: Intents.Config)
    ensures Invariant(s, c, EMPTY_SYSTEM)
  {
    Proposals.EmptyIsConsistent(s);
    Intents.EmptyIsConsistent(c);
  }

  // ---- Whole-run theorems -----------------------------------------------------------------------------------------

  /** The log entry that approved an intent's terms, and what it bounds. */
  predicate Covers(s: Settings, entry: Review, p: TradeProposal, intent: Pipeline.OrderIntent) {
    && entry.proposalId == intent.proposalId && entry.action.ApproveReview?
    && entry.action.size == intent.size && entry.action.limit == intent.limit
    && entry.action.dataAgeSeconds <= STALE_AFTER_SECONDS
    && entry.at < p.expiresAt && intent.createdAt < p.expiresAt
    && intent.side == p.side
    && 0 <= intent.size <= p.maxAllowedSize
    && Dollars(intent.size) <= PositionCap(s)
    && (s.minEdgePct > 0.0 ==> intent.side == Yes)
  }

  /** In every run each intent carries the size, limit and side of an approval logged for its proposal before the
      proposal expired, on data at most two minutes old; its size is within the proposal's allowed maximum and the
      position cap, and with a positive minimum edge its side is yes. */
  lemma EveryIntentWasApproved(s: Settings, c: Intents.Config, ops: seq<Operation>, id: Pipeline.IntentId)
    requires Validated(s) && LegalRun(s, c, EMPTY_SYSTEM, ops)
    requires id in Run(s, c, EMPTY_SYSTEM, ops).pipeline.intents
    ensures var st := Run(s, c, EMPTY_SYSTEM, ops); var intent := st.pipeline.intents[id];
      && intent.proposalId in st.lifecycle.proposals
      && exists j :: 0 <= j < |st.lifecycle.reviews|
           && Covers(s, st.lifecycle.reviews[j], st.lifecycle.proposals[intent.proposalId], intent)
  {
    EmptyIsConsistent(s, c);
    RunKeepsInvariant(s, c, EMPTY_SYSTEM, ops);
    ConsistentIntentIsCovered(s, c, Run(s, c, EMPTY_SYSTEM, ops), id);
  }

  lemma ConsistentIntentIsCovered(s: Settings, c: Intents.Config, st: SystemState, id: Pipeline.IntentId)
    requires Invariant(s, c, st) && id in st.pipeline.intents
    ensures var intent := st.pipeline.intents[id];
      && intent.proposalId in st.lifecycle.proposals
      && exists j :: 0 <= j < |st.lifecycle.reviews|
           && Covers(s, st.lifecycle.reviews[j], st.lifecycle.proposals[intent.proposalId], intent)
  {
    var intent := st.pipeline.intents[id];
    var k :| 0 <= k < |st.lifecycle.saves| && MadeFrom(intent, st.lifecycle.saves[k]);
    var row := st.lifecycle.saves[k];
    var j :| 0 <= j < |st.lifecycle.reviews| && Proposals.Approves(s, st.lifecycle.reviews[j], row);
    assert Proposals.SameTerms(row, st.lifecycle.proposals[row.proposalId]);
    SavedRowIsSound(s, st.lifecycle, k);
    assert Covers(s, st.lifecycle.reviews[j], st.lifecycle.proposals[intent.proposalId], intent);
  }

  lemma SavedRowIsSound(s: Settings, st: LifecycleState, k: nat)
    requires Proposals.Invariant(s, st) && k < |st.saves|
    ensures Proposals.SoundRow(s, st.saves[k])
  {
  }

  const NO_OVERRIDES: Pipeline.Overrides := Pipeline.Overrides(None, None, None, None, None)

  /** End to end: with a positive minimum edge, paper-trading any reachable intent on default quotes is judged within
      the expected range up to 100 dollars and expired above, provided rounding left its size and limit tradable. */
  lemma ReachableIntentVerdict(s: Settings, c: Intents.Config, ops: seq<Operation>, id: Pipeline.IntentId, now: int,
                               start: int)
    requires Validated(s) && s.minEdgePct > 0.0 && LegalRun(s, c, EMPTY_SYSTEM, ops)
    requires id in Run(s, c, EMPTY_SYSTEM, ops).pipeline.intents
    requires PaperTrading.Acceptable(Pipeline.RequestFor(Run(s, c, EMPTY_SYSTEM, ops).pipeline.intents[id],
        NO_OVERRIDES))
    ensures var intent := Run(s, c, EMPTY_SYSTEM, ops).pipeline.intents[id];
      ExecutionEvaluation.SimulateThenEvaluate(Pipeline.RequestFor(intent, NO_OVERRIDES), now, start)
      == if intent.size > 10000 then ExecutionEvaluation.Verdict.Expired else ExecutionEvaluation.WithinExpectedRange
  {
    EveryIntentWasApproved(s, c, ops, id);
    var intent := Run(s, c, EMPTY_SYSTEM, ops).pipeline.intents[id];
    ExecutionEvaluation.DefaultVerdict(Pipeline.RequestFor(intent, NO_OVERRIDES), now, start);
  }
}
