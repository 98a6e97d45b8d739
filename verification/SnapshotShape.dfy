/**
 What acceptance means for a reader of the snapshot: every node lies on a way from the start to the
 end, every limited edge lies on a cycle, and accepted documents describe bounded executions.
 */
module SnapshotShape {
  import opened DirectedGraph
  import opened SnapshotModel
  import GraphExecution
  import GraphBound
  import FrozenJson
  import SnapshotDocument

  /** Every node of an admissible snapshot lies on a walk from the start to the end. */
  lemma NodeIsUseful(s: Snapshot, id: Node) returns (walk: seq<Node>)
    requires Admissible(s) && HasOneStartAndEnd(s) && id in Ids(s)
    ensures WalkFromTo(Graph(s), walk, StartId(s), EndId(s)) && id in walk
  {
    assert Obeys(s, ReachableFromStart) && Obeys(s, ReachesEnd);
    walk := WalkThrough(Graph(s), StartId(s), id, EndId(s));
  }

  lemma WalkThrough(graph: Adjacency, source: Node, middle: Node, target: Node) returns (walk: seq<Node>)
    requires Reaches(graph, source, middle) && Reaches(graph, middle, target)
    ensures WalkFromTo(graph, walk, source, target) && middle in walk
  {
    var before :| WalkFromTo(graph, before, source, middle);
    var after :| WalkFromTo(graph, after, middle, target);
    WalksConcatenate(graph, before, after);
    walk := before + after[1..];
    assert walk[|before| - 1] == middle;
  }

  lemma WalkInLargerGraph(s: Snapshot, excluded: set<Edge>, walk: seq<Node>)
    requires IsWalk(AdjacencyOf(s, excluded), walk)
    ensures IsWalk(Graph(s), walk)
  {
  }

  /** Every limited edge of an admissible snapshot lies on a cycle, so its limit can matter. */
  lemma LimitedEdgeIsOnCycle(s: Snapshot, limit: LoopLimit) returns (walk: seq<Node>)
    requires Admissible(s) && HasOneStartAndEnd(s) && limit in s.limits
    ensures IsClosedWalk(Graph(s), walk) && walk[0] == limit.route.source && walk[1] == limit.route.target
  {
    assert Obeys(s, LimitsNameEdges) && Obeys(s, LimitsRepeat) && Obeys(s, ConsistentEdges);
    var e := limit.route;
    EdgeIsDrawn(s, e);
    var back := [e.target];
    if e.source != e.target {
      assert LimitRepeats(s, e);
      back :| WalkFromTo(AdjacencyOf(s, {e}), back, e.target, e.source);
      WalkInLargerGraph(s, {e}, back);
    }
    PrependToWalk(Graph(s), e.source, back);
    walk := [e.source] + back;
  }

  lemma EdgeIsDrawn(s: Snapshot, e: Edge)
    requires HasOneStartAndEnd(s) && EdgesAreConsistent(s, StartId(s), EndId(s)) && e in s.edges
    ensures e.target in Targets(Graph(s), e.source)
  {
  }

  /** A document that decodes and validates bounds every execution of its graph. */
  lemma AcceptedDocumentIsBounded(
    value: FrozenJson.Value, context: GraphExecution.Context, replies: seq<GraphExecution.HandlerReply>)
    requires SnapshotDocument.FromDict(value).Some?
    requires Admissible(SnapshotDocument.GraphOf(SnapshotDocument.FromDict(value).value))
    ensures var s := SnapshotDocument.GraphOf(SnapshotDocument.FromDict(value).value);
      && HasOneStartAndEnd(s)
      && GraphExecution.Completed(GraphExecution.Execute(s, GraphExecution.InitialCheckpoint(s, context), replies))
         <= GraphExecution.StepBound(s)
  {
    var s := SnapshotDocument.GraphOf(SnapshotDocument.FromDict(value).value);
    SnapshotDocument.DecodedDocumentGraph(value);
    GraphBound.AcceptedIsBounded(s);
    GraphBound.JobStepBound(s, context, replies);
  }
}
