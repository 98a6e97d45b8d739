/**
 The snapshot graph under the runner: a job's graph is begun once and then only continued or resumed,
 so the node actions of all its deliveries together stay within the bound of one execution, and once
 it has ended no delivery runs it again.
 */
module DeliveredSteps {
  import opened Wrappers
  import opened DeliveryModel
  import opened DeliveryRunner
  import opened DeliveryRuns
  import GraphBound
  import GraphExecution
  import GraphRuns
  import SnapshotModel

  /** A delivery and what handlers answer while its invocation, if there is one, runs the graph. */
  datatype GraphDelivery = GraphDelivery(
    delivery: Delivery, context: GraphExecution.Context, replies: seq<GraphExecution.HandlerReply>)

  function Deliveries(run: seq<GraphDelivery>): (deliveries: seq<Delivery>)
    ensures |deliveries| == |run|
  {
    seq(|run|, i requires 0 <= i < |run| => run[i].delivery)
  }

  lemma DeliveriesExtend(run: seq<GraphDelivery>)
    requires run != []
    ensures Deliveries(run)[..|run| - 1] == Deliveries(run[..|run| - 1])
    ensures Deliveries(run)[|run| - 1] == run[|run| - 1].delivery
  {
  }

  /** The thread's graph after a delivery: an invocation runs it only once its input is written. */
  function GraphStep(s: SnapshotModel.Snapshot, thread: Option<Checkpoint>,
                     graph: Option<GraphExecution.Checkpoint>, d: GraphDelivery): Option<GraphExecution.Checkpoint>
    requires SnapshotModel.HasOneStartAndEnd(s)
  {
    var input := EffectOf(thread, d.delivery).input;
    if input == None || !d.delivery.engine.isWritten then graph
    else if input == Some(Start) then
      Some(GraphExecution.Execute(s, GraphExecution.InitialCheckpoint(s, d.context), d.replies))
    else if graph == None then None
    else Some(GraphExecution.Execute(s, graph.value, d.replies))
  }

  function GraphAfter(s: SnapshotModel.Snapshot, run: seq<GraphDelivery>): Option<GraphExecution.Checkpoint>
    requires SnapshotModel.HasOneStartAndEnd(s)
  {
    if run == [] then None
    else
      var front := run[..|run| - 1];
      GraphStep(s, ThreadAfter(Deliveries(front)), GraphAfter(s, front), run[|run| - 1])
  }

  function CompletedIn(graph: Option<GraphExecution.Checkpoint>): int {
    if graph == None then 0 else GraphExecution.Completed(graph.value)
  }

  /** The node actions completed by a delivery; an invocation that starts a graph counts from zero. */
  function ActionsOf(s: SnapshotModel.Snapshot, thread: Option<Checkpoint>,
                     graph: Option<GraphExecution.Checkpoint>, d: GraphDelivery): int
    requires SnapshotModel.HasOneStartAndEnd(s)
  {
    var after := GraphStep(s, thread, graph, d);
    if EffectOf(thread, d.delivery).input == Some(Start) then CompletedIn(after)
    else CompletedIn(after) - CompletedIn(graph)
  }

  /** The node actions completed by all deliveries. */
  function TotalActions(s: SnapshotModel.Snapshot, run: seq<GraphDelivery>): int
    requires SnapshotModel.HasOneStartAndEnd(s)
  {
    if run == [] then 0
    else
      var front := run[..|run| - 1];
      TotalActions(s, front) + ActionsOf(s, ThreadAfter(Deliveries(front)), GraphAfter(s, front), run[|run| - 1])
  }

  /** The graph is one execution from its start, if it was begun. */
  ghost predicate IsOneExecution(s: SnapshotModel.Snapshot, graph: Option<GraphExecution.Checkpoint>)
    requires SnapshotModel.HasOneStartAndEnd(s)
  {
    graph.Some? ==> exists context, replies ::
      graph.value == GraphExecution.Execute(s, GraphExecution.InitialCheckpoint(s, context), replies)
  }

  lemma GraphStepContinues(s: SnapshotModel.Snapshot, thread: Option<Checkpoint>,
                           graph: Option<GraphExecution.Checkpoint>, d: GraphDelivery)
    requires SnapshotModel.HasOneStartAndEnd(s) && IsOneExecution(s, graph)
    ensures IsOneExecution(s, GraphStep(s, thread, graph, d))
  {
    var input := EffectOf(thread, d.delivery).input;
    if input.Some? && d.delivery.engine.isWritten && input != Some(Start) && graph.Some? {
      var context, replies :|
        graph.value == GraphExecution.Execute(s, GraphExecution.InitialCheckpoint(s, context), replies);
      GraphRuns.ExecuteConcatenates(s, GraphExecution.InitialCheckpoint(s, context), replies, d.replies);
    }
  }

  /** A graph is begun for a job without a thread only, and from then on there is one. */
  lemma BegunOnce(thread: Option<Checkpoint>, d: Delivery)
    ensures EffectOf(thread, d).input == Some(Start) ==> thread == None
    ensures thread.Some? || (EffectOf(thread, d).input.Some? && d.engine.isWritten) ==> EffectOf(thread, d).thread.Some?
  {
  }

  lemma {:induction false} GraphBelongsToThread(s: SnapshotModel.Snapshot, run: seq<GraphDelivery>)
    requires SnapshotModel.HasOneStartAndEnd(s)
    ensures GraphAfter(s, run).Some? ==> ThreadAfter(Deliveries(run)).Some?
    ensures IsOneExecution(s, GraphAfter(s, run))
    ensures TotalActions(s, run) == CompletedIn(GraphAfter(s, run))
    decreases |run|
  {
    if run != [] {
      var front, last := run[..|run| - 1], run[|run| - 1];
      GraphBelongsToThread(s, front);
      DeliveriesExtend(run);
      BegunOnce(ThreadAfter(Deliveries(front)), last.delivery);
      GraphStepContinues(s, ThreadAfter(Deliveries(front)), GraphAfter(s, front), last);
    }
  }

  /**
   The step bound holds of a job, not only of an invocation: however many deliveries, retries and
   approvals it takes, the node actions that complete in all of them are within the bound.
   */
  lemma DeliveriesStayBounded(s: SnapshotModel.Snapshot, run: seq<GraphDelivery>)
    requires GraphExecution.Accepted(s) && SnapshotModel.HasOneStartAndEnd(s)
    ensures TotalActions(s, run) <= GraphExecution.StepBound(s)
  {
    GraphBelongsToThread(s, run);
    if GraphAfter(s, run).Some? {
      var context, replies :| GraphAfter(s, run).value
        == GraphExecution.Execute(s, GraphExecution.InitialCheckpoint(s, context), replies);
      GraphBound.JobStepBound(s, context, replies);
    }
  }

  // --- finished graphs ---

  /** What the engine reports of a thread is where its graph stands; only a graph with a pending node can wait. */
  predicate Reports(progress: Progress, graph: GraphExecution.Checkpoint) {
    && (progress.isFinished <==> graph.next == None)
    && (progress.interrupts != [] ==> graph.next.Some?)
  }

  /** The engine reports the graph's position, before and after an invocation. */
  predicate IsReported(s: SnapshotModel.Snapshot, thread: Option<Checkpoint>,
                       graph: Option<GraphExecution.Checkpoint>, d: GraphDelivery)
    requires SnapshotModel.HasOneStartAndEnd(s)
  {
    var after := GraphStep(s, thread, graph, d);
    && (graph.Some? ==> Reports(d.delivery.engine.updated, graph.value))
    && (after.Some? ==> Reports(d.delivery.engine.reached, after.value))
  }

  predicate ReportedAt(s: SnapshotModel.Snapshot, run: seq<GraphDelivery>, k: nat)
    requires SnapshotModel.HasOneStartAndEnd(s)
  {
    k < |run| && IsReported(s, ThreadAfter(Deliveries(run[..k])), GraphAfter(s, run[..k]), run[k])
  }

  predicate AllReported(s: SnapshotModel.Snapshot, run: seq<GraphDelivery>)
    requires SnapshotModel.HasOneStartAndEnd(s)
  {
    forall k {:trigger ReportedAt(s, run, k)} | 0 <= k < |run| :: ReportedAt(s, run, k)
  }

  /** The thread's phase is that of the graph. */
  predicate PhaseAgrees(thread: Option<Checkpoint>, graph: Option<GraphExecution.Checkpoint>) {
    && (thread.Some? <==> graph.Some?)
    && (thread.Some? ==> (PhaseOf(thread.value.progress) == Completed <==> graph.value.next == None))
  }

  lemma DeliveryAgrees(s: SnapshotModel.Snapshot, thread: Option<Checkpoint>,
                       graph: Option<GraphExecution.Checkpoint>, d: GraphDelivery)
    requires SnapshotModel.HasOneStartAndEnd(s) && PhaseAgrees(thread, graph) && IsReported(s, thread, graph, d)
    ensures PhaseAgrees(EffectOf(thread, d.delivery).thread, GraphStep(s, thread, graph, d))
  {
  }

  lemma {:induction false} RunAgrees(s: SnapshotModel.Snapshot, run: seq<GraphDelivery>, n: nat)
    requires SnapshotModel.HasOneStartAndEnd(s) && AllReported(s, run) && n <= |run|
    ensures PhaseAgrees(ThreadAfter(Deliveries(run[..n])), GraphAfter(s, run[..n]))
    decreases n
  {
    if n > 0 {
      RunAgrees(s, run, n - 1);
      assert run[..n][..n - 1] == run[..n - 1];
      DeliveriesExtend(run[..n]);
      assert ReportedAt(s, run, n - 1);
      DeliveryAgrees(s, ThreadAfter(Deliveries(run[..n - 1])), GraphAfter(s, run[..n - 1]), run[n - 1]);
    }
  }

  predicate HasEnded(graph: Option<GraphExecution.Checkpoint>) {
    graph.Some? && graph.value.next == None
  }

  lemma EndedIsLeft(s: SnapshotModel.Snapshot, thread: Option<Checkpoint>,
                    graph: Option<GraphExecution.Checkpoint>, d: GraphDelivery)
    requires SnapshotModel.HasOneStartAndEnd(s) && PhaseAgrees(thread, graph) && HasEnded(graph)
    ensures EffectOf(thread, d.delivery).input == None && GraphStep(s, thread, graph, d) == graph
  {
    FinishedRunsNothing(thread, d.delivery);
  }

  lemma EndedStaysOnce(s: SnapshotModel.Snapshot, run: seq<GraphDelivery>, k: nat)
    requires SnapshotModel.HasOneStartAndEnd(s) && AllReported(s, run) && k < |run|
    requires HasEnded(GraphAfter(s, run[..k]))
    ensures GraphAfter(s, run[..k + 1]) == GraphAfter(s, run[..k])
  {
    RunAgrees(s, run, k);
    EndedIsLeft(s, ThreadAfter(Deliveries(run[..k])), GraphAfter(s, run[..k]), run[k]);
    assert run[..k + 1][..k] == run[..k];
  }

  lemma {:induction false} EndedStays(s: SnapshotModel.Snapshot, run: seq<GraphDelivery>, i: nat, k: nat)
    requires SnapshotModel.HasOneStartAndEnd(s) && AllReported(s, run) && i <= k <= |run|
    requires HasEnded(GraphAfter(s, run[..i]))
    ensures GraphAfter(s, run[..k]) == GraphAfter(s, run[..i])
    decreases k
  {
    if i < k {
      EndedStays(s, run, i, k - 1);
      EndedStaysOnce(s, run, k - 1);
    }
  }

  /**
   Once a job's graph has ended, no delivery starts, continues or resumes it, and it stays as it is,
   as long as the engine reports where the graph stands.
   */
  lemma FinishedForever(s: SnapshotModel.Snapshot, run: seq<GraphDelivery>, i: nat, k: nat)
    requires SnapshotModel.HasOneStartAndEnd(s) && AllReported(s, run) && i <= k < |run|
    requires HasEnded(GraphAfter(s, run[..i]))
    ensures EffectOf(ThreadAfter(Deliveries(run[..k])), run[k].delivery).input == None
    ensures GraphAfter(s, run[..k]) == GraphAfter(s, run[..i])
  {
    EndedStays(s, run, i, k);
    RunAgrees(s, run, k);
    EndedIsLeft(s, ThreadAfter(Deliveries(run[..k])), GraphAfter(s, run[..k]), run[k]);
  }
}
