/**
 A pipeline attempt as a whole: the executing graph and the attempt's log side by side. A stage
 handler stores its result under the name of its execution before its node commits, so a crash
 between the two leaves at most one result ahead of the graph, and the retry finds it.
 */
module CodingRuns {
  import opened Wrappers
  import opened CodingRounds
  import opened CodingStages
  import opened CodingProvenance
  import DirectedGraph
  import GraphExecution
  import SnapshotModel

  type NodeId = DirectedGraph.Node

  type Checkpoint = GraphExecution.Checkpoint

  type HandlerReply = GraphExecution.HandlerReply

  /** What stays fixed in one pipeline attempt; stages maps the stage nodes to their handlers. */
  datatype Plan = Plan(
    s: SnapshotModel.Snapshot, jobId: string, attempt: nat, stages: map<NodeId, StageKey>, coding: set<NodeId>)

  datatype Job = Job(cp: Checkpoint, log: Log)

  /** A decision, a stage handler with its commit or a crash before it, or any other node attempt. */
  datatype JobStep =
    | Decision(decision: CodingStages.Decision)
    | Stage(event: Event, committed: bool)
    | Attempted(reply: HandlerReply)

  /** What the graph keeps of a result: its handler, and whether the executor reported a denied area. */
  function ReferenceOf(event: Event): GraphExecution.Value
    requires event.RunStage?
  {
    GraphExecution.Reference(
      HandlerKey(event.key), Get(event.outcome.payload, "requiresDeniedArea") == Flag(true))
  }

  /** The reply that the graph sees of a stage handler. */
  function ReplyOf(job: Job, event: Event, committed: bool): HandlerReply
    requires event.RunStage? && job.cp.next.Some?
  {
    var ran := RunOn(job.log, event);
    if committed && ran.Ok? then StageReply(job.cp.values.context, job.cp.next.value, ran.value.1, ReferenceOf(event))
    else GraphExecution.Raised
  }

  /** A stage handler runs for its own node and stores under the name of the pending execution. */
  ghost predicate IsJobStep(plan: Plan, job: Job, step: JobStep) {
    match step
    case Decision(_) => true
    case Stage(event, _) =>
      && event.RunStage? && job.cp.next.Some? && job.cp.next.value in plan.stages
      && event.key == plan.stages[job.cp.next.value]
      && event.jobId == plan.jobId && event.pipelineAttempt == plan.attempt
      && PendingResultName(job.cp.values.context, plan.jobId, plan.attempt, job.cp.next.value,
                           HandlerKey(event.key)) == Some(event.resultId)
    case Attempted(reply) =>
      && IsCodingStep(plan.s, plan.coding, job.cp, reply)
      && (job.cp.next.Some? && job.cp.next.value in plan.stages ==> !reply.Returned?)
  }

  function Advance(plan: Plan, job: Job, step: JobStep): Job {
    match step
    case Decision(decision) => job.(log := Apply(job.log, Decide(decision)))
    case Stage(event, committed) =>
      if !event.RunStage? || job.cp.next == None then job
      else Job(GraphExecution.Step(plan.s, job.cp, ReplyOf(job, event, committed)), Apply(job.log, event))
    case Attempted(reply) => job.(cp := GraphExecution.Step(plan.s, job.cp, reply))
  }

  function After(plan: Plan, start: Checkpoint, steps: seq<JobStep>): Job {
    if steps == [] then Job(start, [])
    else Advance(plan, After(plan, start, steps[..|steps| - 1]), steps[|steps| - 1])
  }

  ghost predicate IsJobRun(plan: Plan, start: Checkpoint, steps: seq<JobStep>) {
    forall k | 0 <= k < |steps| :: IsJobStep(plan, After(plan, start, steps[..k]), steps[k])
  }

  // --- results and executions ---

  /** The round that a node executes next. */
  function RoundAt(cp: Checkpoint, id: NodeId): int
    requires StoredRounds(cp.values.context).Some?
  {
    RoundIn(StoredRounds(cp.values.context).value, id)
  }

  function NameAt(plan: Plan, id: NodeId, round: nat): string
    requires id in plan.stages
  {
    ResultName(plan.jobId, plan.attempt, id, HandlerKey(plan.stages[id]), round)
  }

  ghost predicate IsRecorded(log: Log, id: string) {
    exists n :: 0 <= n < |log| && log[n].Recorded? && log[n].result.id == id
  }

  /** The result belongs to an execution of this attempt: a completed one, or the pending one. */
  ghost predicate BelongsTo(plan: Plan, start: Checkpoint, cp: Checkpoint, r: StageResult)
    requires StoredRounds(start.values.context).Some? && StoredRounds(cp.values.context).Some?
  {
    exists id, round: nat :: id in plan.stages && RoundAt(start, id) <= round <= RoundAt(cp, id)
                             && r.id == NameAt(plan, id, round) && r.key == plan.stages[id]
  }

  /** Results and completed executions correspond, but for one pending execution of each node. */
  ghost predicate Corresponds(plan: Plan, start: Checkpoint, job: Job)
    requires StoredRounds(start.values.context).Some?
  {
    && StoredRounds(job.cp.values.context).Some?
    && OneResultPerId(job.log)
    && (forall id | id in plan.stages :: RoundAt(start, id) <= RoundAt(job.cp, id))
    && (forall n | 0 <= n < |job.log| && job.log[n].Recorded? :: BelongsTo(plan, start, job.cp, job.log[n].result))
    && (forall id, round: nat | id in plan.stages && RoundAt(start, id) <= round < RoundAt(job.cp, id) ::
          IsRecorded(job.log, NameAt(plan, id, round)))
  }

  /** Rounds only grow, and only the completing node's. */
  ghost predicate RoundsGrow(plan: Plan, before: Checkpoint, after: Checkpoint, completed: bool)
    requires StoredRounds(before.values.context).Some?
  {
    && StoredRounds(after.values.context).Some?
    && forall id | id in plan.stages ::
         RoundAt(after, id) == RoundAt(before, id) + (if completed && before.next == Some(id) then 1 else 0)
  }

  lemma StepGrowsRounds(plan: Plan, cp: Checkpoint, reply: HandlerReply)
    requires StoredRounds(cp.values.context).Some? && plan.stages.Keys <= plan.coding
    requires IsCodingStep(plan.s, plan.coding, cp, reply)
    ensures RoundsGrow(plan, cp, GraphExecution.Step(plan.s, cp, reply), GraphExecution.Attempt(plan.s, cp, reply).Ok?)
  {
    StepAdvancesRounds(plan.s, plan.coding, cp, reply);
  }

  lemma StillBelongs(
      plan: Plan, start: Checkpoint, before: Checkpoint, after: Checkpoint, completed: bool, r: StageResult)
    requires StoredRounds(start.values.context).Some? && StoredRounds(before.values.context).Some?
    requires RoundsGrow(plan, before, after, completed) && BelongsTo(plan, start, before, r)
    ensures BelongsTo(plan, start, after, r)
  {
    var id, round: nat :| id in plan.stages && RoundAt(start, id) <= round <= RoundAt(before, id)
                          && r.id == NameAt(plan, id, round) && r.key == plan.stages[id];
    assert RoundAt(after, id) >= RoundAt(before, id);
  }

  /** The log is as it was, or has one more result, of this stage and under this id. */
  ghost predicate StoresAtMost(log: Log, after: Log, id: string, key: StageKey) {
    || after == log
    || (&& |after| == |log| + 1 && after[..|log|] == log && after[|log|].Recorded?
        && after[|log|].result.id == id && after[|log|].result.key == key)
  }

  lemma PutOnce(log: Log, r: StageResult)
    requires OneResultPerId(log) && PutResult(log, r).Ok?
    ensures var after := PutResult(log, r).value;
      OneResultPerId(after) && StoresAtMost(log, after, r.id, r.key) && IsRecorded(after, r.id)
  {
    PutKeepsIdsUnique(log, r);
    var earlier := Latest(ResultsOf(log), (other: StageResult) => other.id == r.id);
    if earlier == None {
      assert PutResult(log, r).value[|log|] == Recorded(r);
    } else {
      var n := FindResult(log, earlier.value);
      assert log[n].Recorded? && log[n].result.id == r.id;
    }
  }

  lemma JudgedUnderId(e: Event, log: Log)
    requires e.RunStage?
    requires JudgeStage(e.key, e.configured, e.resultId, e.invoked, AttemptSeen(log, e), e.outcome).Ok?
    ensures var r := JudgeStage(e.key, e.configured, e.resultId, e.invoked, AttemptSeen(log, e), e.outcome).value.0;
      r.id == e.resultId && r.key == e.key
  {
  }

  /** What a stage handler does to the log: its result is there afterwards, once, and nothing else is new. */
  lemma StoredOnce(log: Log, e: Event)
    requires e.RunStage? && OneResultPerId(log)
    ensures var after := Apply(log, e);
      && OneResultPerId(after) && StoresAtMost(log, after, e.resultId, e.key)
      && (RunOn(log, e).Ok? ==> IsRecorded(after, e.resultId))
  {
    if RunOn(log, e).Ok? {
      JudgedUnderId(e, log);
      PutOnce(log, JudgeStage(e.key, e.configured, e.resultId, e.invoked, AttemptSeen(log, e), e.outcome).value.0);
    }
  }

  lemma StillRecorded(log: Log, after: Log, id: string)
    requires |log| <= |after| && after[..|log|] == log && IsRecorded(log, id)
    ensures IsRecorded(after, id)
  {
    var n :| 0 <= n < |log| && log[n].Recorded? && log[n].result.id == id;
    assert after[n] == log[n];
  }

  /** The graph moves on without a stage completing, or the log without storing: nothing changes between them. */
  lemma OtherStepsCorrespond(plan: Plan, start: Checkpoint, job: Job, after: Job, completed: bool)
    requires StoredRounds(start.values.context).Some? && Corresponds(plan, start, job)
    requires RoundsGrow(plan, job.cp, after.cp, completed)
    requires completed ==> job.cp.next.Some? && job.cp.next.value !in plan.stages
    requires |job.log| <= |after.log| && after.log[..|job.log|] == job.log
    requires forall n | |job.log| <= n < |after.log| :: after.log[n].Decided?
    ensures Corresponds(plan, start, after)
  {
    forall i, j | 0 <= i < j < |after.log| && after.log[i].Recorded? && after.log[j].Recorded?
      ensures after.log[i].result.id != after.log[j].result.id
    {
      assert after.log[i] == job.log[i] && after.log[j] == job.log[j];
    }
    forall n | 0 <= n < |after.log| && after.log[n].Recorded?
      ensures BelongsTo(plan, start, after.cp, after.log[n].result)
    {
      assert after.log[n] == job.log[n];
      StillBelongs(plan, start, job.cp, after.cp, completed, after.log[n].result);
    }
    forall id, round: nat | id in plan.stages && RoundAt(start, id) <= round < RoundAt(after.cp, id)
      ensures IsRecorded(after.log, NameAt(plan, id, round))
    {
      StillRecorded(job.log, after.log, NameAt(plan, id, round));
    }
  }

  /** A result stored for the pending execution belongs to it, and the others to theirs. */
  lemma StoredBelongs(plan: Plan, start: Checkpoint, job: Job, after: Log, n: nat)
    requires StoredRounds(start.values.context).Some? && Corresponds(plan, start, job)
    requires job.cp.next.Some? && job.cp.next.value in plan.stages && RoundAt(job.cp, job.cp.next.value) >= 0
    requires var id := job.cp.next.value;
      StoresAtMost(job.log, after, NameAt(plan, id, RoundAt(job.cp, id)), plan.stages[id])
    requires n < |after| && after[n].Recorded?
    ensures BelongsTo(plan, start, job.cp, after[n].result)
  {
    if n < |job.log| {
      assert after[n] == job.log[n];
    } else {
      var id := job.cp.next.value;
      var round: nat := RoundAt(job.cp, id);
      assert RoundAt(start, id) <= round && after[n].result.id == NameAt(plan, id, round);
    }
  }

  /** A stage's result is stored before its node completes. */
  lemma StoringCorresponds(plan: Plan, start: Checkpoint, job: Job, after: Job, completed: bool)
    requires StoredRounds(start.values.context).Some? && Corresponds(plan, start, job)
    requires RoundsGrow(plan, job.cp, after.cp, completed)
    requires job.cp.next.Some? && job.cp.next.value in plan.stages && RoundAt(job.cp, job.cp.next.value) >= 0
    requires var name := NameAt(plan, job.cp.next.value, RoundAt(job.cp, job.cp.next.value));
      && OneResultPerId(after.log) && StoresAtMost(job.log, after.log, name, plan.stages[job.cp.next.value])
      && (completed ==> IsRecorded(after.log, name))
    ensures Corresponds(plan, start, after)
  {
    forall n | 0 <= n < |after.log| && after.log[n].Recorded?
      ensures BelongsTo(plan, start, after.cp, after.log[n].result)
    {
      StoredBelongs(plan, start, job, after.log, n);
      StillBelongs(plan, start, job.cp, after.cp, completed, after.log[n].result);
    }
    forall other, round: nat | other in plan.stages && RoundAt(start, other) <= round < RoundAt(after.cp, other)
      ensures IsRecorded(after.log, NameAt(plan, other, round))
    {
      CompletedIsRecorded(plan, start, job, after, completed, other, round);
    }
  }

  lemma CompletedIsRecorded(plan: Plan, start: Checkpoint, job: Job, after: Job, completed: bool, id: NodeId, round: nat)
    requires StoredRounds(start.values.context).Some? && Corresponds(plan, start, job)
    requires RoundsGrow(plan, job.cp, after.cp, completed)
    requires job.cp.next.Some? && job.cp.next.value in plan.stages && RoundAt(job.cp, job.cp.next.value) >= 0
    requires |job.log| <= |after.log| && after.log[..|job.log|] == job.log
    requires completed ==> IsRecorded(after.log, NameAt(plan, job.cp.next.value, RoundAt(job.cp, job.cp.next.value)))
    requires id in plan.stages && RoundAt(start, id) <= round < RoundAt(after.cp, id)
    ensures IsRecorded(after.log, NameAt(plan, id, round))
  {
    if round < RoundAt(job.cp, id) {
      StillRecorded(job.log, after.log, NameAt(plan, id, round));
    }
  }

  lemma StageStepCorresponds(plan: Plan, start: Checkpoint, job: Job,
                             event: Event, committed: bool)
    requires StoredRounds(start.values.context).Some? && Corresponds(plan, start, job)
    requires plan.stages.Keys <= plan.coding && IsJobStep(plan, job, Stage(event, committed))
    ensures Corresponds(plan, start, Advance(plan, job, Stage(event, committed)))
  {
    var id, after := job.cp.next.value, Advance(plan, job, Stage(event, committed));
    var reply := ReplyOf(job, event, committed);
    var completed := GraphExecution.Attempt(plan.s, job.cp, reply).Ok?;
    StepGrowsRounds(plan, job.cp, reply);
    StoredOnce(job.log, event);
    OnlyReturnsComplete(plan, job.cp, reply);
    StoringCorresponds(plan, start, job, after, completed);
  }

  lemma OnlyReturnsComplete(plan: Plan, cp: Checkpoint, reply: HandlerReply)
    ensures GraphExecution.Attempt(plan.s, cp, reply).Ok? ==> reply.Returned?
  {
  }

  lemma StepCorresponds(plan: Plan, start: Checkpoint, job: Job, step: JobStep)
    requires StoredRounds(start.values.context).Some? && Corresponds(plan, start, job)
    requires plan.stages.Keys <= plan.coding && IsJobStep(plan, job, step)
    ensures Corresponds(plan, start, Advance(plan, job, step))
  {
    match step
    case Decision(decision) => OtherStepsCorrespond(plan, start, job, Advance(plan, job, step), false);
    case Stage(event, committed) => StageStepCorresponds(plan, start, job, event, committed);
    case Attempted(reply) =>
      StepGrowsRounds(plan, job.cp, reply);
      OtherStepsCorrespond(plan, start, job, Advance(plan, job, step), GraphExecution.Attempt(plan.s, job.cp, reply).Ok?);
  }

  // --- one result per execution ---

  /** The job and its nodes have names without colons, as decoding guarantees. */
  ghost predicate IsNamed(plan: Plan) {
    IsField(plan.jobId) && forall id | id in plan.stages :: IsField(id)
  }

  lemma HandlerKeyIsField(key: StageKey)
    ensures IsField(HandlerKey(key))
  {
  }

  lemma NamesDiffer(plan: Plan, id: NodeId, round: nat, id': NodeId, round': nat)
    requires IsNamed(plan) && id in plan.stages && id' in plan.stages
    ensures NameAt(plan, id, round) == NameAt(plan, id', round') <==> id == id' && round == round'
  {
    HandlerKeyIsField(plan.stages[id]);
    HandlerKeyIsField(plan.stages[id']);
    NameIsInjective("coding-result", plan.jobId, plan.attempt, id, HandlerKey(plan.stages[id]), round,
                    "coding-result", plan.jobId, plan.attempt, id', HandlerKey(plan.stages[id']), round');
  }

  /** The n-th entry of the log is the result of this execution. */
  ghost predicate IsResultOf(plan: Plan, log: Log, n: nat, id: NodeId, round: nat) {
    && n < |log| && log[n].Recorded? && id in plan.stages
    && log[n].result.id == NameAt(plan, id, round) && log[n].result.key == plan.stages[id]
  }

  ghost predicate HasResult(plan: Plan, log: Log, id: NodeId, round: nat) {
    exists n :: IsResultOf(plan, log, n, id, round)
  }

  /** Each completed execution has a result, and each result is that of a completed or the pending execution. */
  ghost predicate ResultsMatch(plan: Plan, start: Checkpoint, job: Job)
    requires StoredRounds(start.values.context).Some? && StoredRounds(job.cp.values.context).Some?
  {
    && (forall id, round: nat | id in plan.stages && RoundAt(start, id) <= round < RoundAt(job.cp, id) ::
          HasResult(plan, job.log, id, round))
    && (forall n: nat | n < |job.log| && job.log[n].Recorded? ::
          exists id, round: nat :: IsResultOf(plan, job.log, n, id, round)
                                   && RoundAt(start, id) <= round <= RoundAt(job.cp, id))
  }

  /** No execution has two results, and no result belongs to two executions. */
  ghost predicate ResultsAreOneToOne(plan: Plan, log: Log) {
    forall n, n', id, id', round: nat, round': nat |
      IsResultOf(plan, log, n, id, round) && IsResultOf(plan, log, n', id', round') ::
      n == n' <==> id == id' && round == round'
  }

  lemma CompletedHasResult(plan: Plan, start: Checkpoint, job: Job, id: NodeId, round: nat) returns (n: nat)
    requires StoredRounds(start.values.context).Some? && Corresponds(plan, start, job) && IsNamed(plan)
    requires id in plan.stages && RoundAt(start, id) <= round < RoundAt(job.cp, id)
    ensures IsResultOf(plan, job.log, n, id, round)
  {
    assert IsRecorded(job.log, NameAt(plan, id, round));
    n :| n < |job.log| && job.log[n].Recorded? && job.log[n].result.id == NameAt(plan, id, round);
    var other, round': nat :| other in plan.stages && RoundAt(start, other) <= round' <= RoundAt(job.cp, other)
      && job.log[n].result.id == NameAt(plan, other, round') && job.log[n].result.key == plan.stages[other];
    NamesDiffer(plan, id, round, other, round');
  }

  lemma CorrespondingMatch(plan: Plan, start: Checkpoint, job: Job)
    requires StoredRounds(start.values.context).Some? && Corresponds(plan, start, job) && IsNamed(plan)
    ensures ResultsMatch(plan, start, job)
  {
    forall id, round: nat | id in plan.stages && RoundAt(start, id) <= round < RoundAt(job.cp, id)
      ensures HasResult(plan, job.log, id, round)
    {
      var n := CompletedHasResult(plan, start, job, id, round);
    }
    forall n: nat | n < |job.log| && job.log[n].Recorded?
      ensures exists id, round: nat :: IsResultOf(plan, job.log, n, id, round)
                                       && RoundAt(start, id) <= round <= RoundAt(job.cp, id)
    {
      var r := job.log[n].result;
      assert BelongsTo(plan, start, job.cp, r);
      var id, round: nat :| id in plan.stages && RoundAt(start, id) <= round <= RoundAt(job.cp, id)
                            && r.id == NameAt(plan, id, round) && r.key == plan.stages[id];
      assert IsResultOf(plan, job.log, n, id, round);
    }
  }

  lemma UniqueIdsAreOneToOne(plan: Plan, log: Log)
    requires OneResultPerId(log) && IsNamed(plan)
    ensures ResultsAreOneToOne(plan, log)
  {
    forall n, n', id, id', round: nat, round': nat |
      IsResultOf(plan, log, n, id, round) && IsResultOf(plan, log, n', id', round')
      ensures n == n' <==> id == id' && round == round'
    {
      NamesDiffer(plan, id, round, id', round');
    }
  }

  lemma {:induction false} RunCorresponds(plan: Plan, start: Checkpoint, steps: seq<JobStep>)
    requires StoredRounds(start.values.context).Some? && plan.stages.Keys <= plan.coding
    requires IsJobRun(plan, start, steps)
    ensures Corresponds(plan, start, After(plan, start, steps))
    decreases |steps|
  {
    if steps != [] {
      var front := steps[..|steps| - 1];
      forall k | 0 <= k < |front| ensures IsJobStep(plan, After(plan, start, front[..k]), front[k]) {
        assert front[..k] == steps[..k];
      }
      RunCorresponds(plan, start, front);
      StepCorresponds(plan, start, After(plan, start, front), steps[|steps| - 1]);
    }
  }

  /**
   Idempotent results: in every run of a pipeline attempt, through crashes between storing and
   committing, failures, interrupts and retries, each completed execution of a stage node has exactly
   one result, of its own stage, and every result belongs to exactly one execution: a completed one,
   or the pending one.
   */
  lemma ResultsFollowExecutions(plan: Plan, start: Checkpoint, steps: seq<JobStep>)
    requires StoredRounds(start.values.context).Some? && plan.stages.Keys <= plan.coding && IsNamed(plan)
    requires IsJobRun(plan, start, steps)
    ensures StoredRounds(After(plan, start, steps).cp.values.context).Some?
    ensures ResultsMatch(plan, start, After(plan, start, steps))
    ensures ResultsAreOneToOne(plan, After(plan, start, steps).log)
  {
    RunCorresponds(plan, start, steps);
    CorrespondingMatch(plan, start, After(plan, start, steps));
    UniqueIdsAreOneToOne(plan, After(plan, start, steps).log);
  }

  /** A review that reported a denied area, once committed, makes the gate hand over; any other result does not. */
  lemma DeniedReviewHandsOver(plan: Plan, job: Job, event: Event, id: NodeId, maxReworkRounds: int)
    requires IsJobStep(plan, job, Stage(event, true)) && maxReworkRounds >= 1
    requires GraphExecution.Attempt(plan.s, job.cp, ReplyOf(job, event, true)).Ok?
    ensures var context := Advance(plan, job, Stage(event, true)).cp.values.context;
      var isDenied := event.key == Review && Get(event.outcome.payload, "requiresDeniedArea") == Flag(true);
      forall rounds :: Stores(context, rounds) ==>
        var reply := GateReply(maxReworkRounds, context, id);
        reply.Returned? && reply.port == Some(
          if isDenied || (if id in rounds then rounds[id] else 1) >= maxReworkRounds then "handover" else "retry")
  {
    var context := Advance(plan, job, Stage(event, true)).cp.values.context;
    CompletedContext(plan.s, job.cp, ReplyOf(job, event, true));
    OnlyReturnsComplete(plan, job.cp, ReplyOf(job, event, true));
    GateIsExact(maxReworkRounds, context, id);
    assert context[LAST_RESULT] == ReferenceOf(event);
    assert HandlerKey(event.key) == "coding.review" <==> event.key == Review;
  }
}
