/**
 The step bound of a whole job: a walk whose limited edges are used within their limits, and
 whose remaining edges form an acyclic graph, cannot be longer than nodes x (1 + iterations).
 */
module GraphBound {
  import opened Wrappers
  import opened DirectedGraph
  import opened SnapshotModel
  import opened GraphExecution
  import Identity

  // --- the maps of the builder ---

  lemma RouteKeyIsInjective(e: Edge, f: Edge)
    requires ':' !in e.source && ':' !in e.port && ':' !in e.target
    requires ':' !in f.source && ':' !in f.port && ':' !in f.target
    ensures RouteKey(e) == RouteKey(f) <==> e == f
  {
    var a, b := [e.source, e.port, e.target], [f.source, f.port, f.target];
    if RouteKey(e) == RouteKey(f) {
      Identity.JoinedIsInjective(a, b);
      assert a[0] == b[0] && a[1] == b[1] && a[2] == b[2];
    }
  }

  lemma {:induction false} RouteMapFinds(edges: seq<Edge>, e: Edge)
    requires e in edges
    requires forall i, j | 0 <= i < j < |edges| :: (edges[i].source, edges[i].port) != (edges[j].source, edges[j].port)
    ensures (e.source, e.port) in RouteMap(edges) && RouteMap(edges)[(e.source, e.port)] == e.target
    decreases |edges|
  {
    var front, last := edges[..|edges| - 1], edges[|edges| - 1];
    assert edges == front + [last];
    if e != last {
      RouteMapFinds(front, e);
      var i :| 0 <= i < |front| && front[i] == e;
      assert (edges[i].source, edges[i].port) != (edges[|edges| - 1].source, edges[|edges| - 1].port);
    }
  }

  ghost predicate KeysAreDistinct(limits: seq<LoopLimit>) {
    forall i, j | 0 <= i < j < |limits| :: RouteKey(limits[i].route) != RouteKey(limits[j].route)
  }

  lemma {:induction false} LimitMapFinds(limits: seq<LoopLimit>)
    requires KeysAreDistinct(limits)
    ensures forall limit | limit in limits ::
      RouteKey(limit.route) in LimitMap(limits) && LimitMap(limits)[RouteKey(limit.route)] == limit.maxIterations
    decreases |limits|
  {
    if limits != [] {
      var front, last := limits[..|limits| - 1], limits[|limits| - 1];
      assert limits == front + [last];
      LimitMapFinds(front);
      forall limit | limit in front ensures RouteKey(limit.route) != RouteKey(last.route) {
        var i :| 0 <= i < |front| && front[i] == limit;
        assert limits[i] == limit;
      }
    }
  }

  lemma AcceptedLimits(s: Snapshot)
    requires Accepted(s)
    ensures forall limit | limit in s.limits ::
      RouteKey(limit.route) in LimitMap(s.limits) && LimitMap(s.limits)[RouteKey(limit.route)] == limit.maxIterations
  {
    forall i, j | 0 <= i < j < |s.limits| ensures RouteKey(s.limits[i].route) != RouteKey(s.limits[j].route) {
      RouteKeyIsInjective(s.limits[i].route, s.limits[j].route);
    }
    LimitMapFinds(s.limits);
  }

  lemma {:induction false} NodeNamedFinds(nodes: seq<SnapshotNode>, id: Node)
    ensures match NodeNamed(nodes, id)
      case Some(n) => n in nodes && n.id == id
      case None => forall n | n in nodes :: n.id != id
    decreases |nodes|
  {
    if nodes != [] && nodes[0].id != id {
      NodeNamedFinds(nodes[1..], id);
      assert nodes == [nodes[0]] + nodes[1..];
    }
  }

  // --- one step keeps the trail ---

  lemma {:induction false} UsesExtends(trail: seq<Edge>, e: Edge, route: Edge)
    ensures Uses(trail + [e], route) == Uses(trail, route) + (if e == route then 1 else 0)
  {
  }

  /** The limits of the builder's map are exactly the limits of the snapshot's routes. */
  ghost predicate LimitsResolve(s: Snapshot) {
    && (forall limit | limit in s.limits ::
          RouteKey(limit.route) in LimitMap(s.limits) && LimitMap(s.limits)[RouteKey(limit.route)] == limit.maxIterations)
    && (forall limit, e | limit in s.limits && e in s.edges :: RouteKey(limit.route) == RouteKey(e) <==> limit.route == e)
  }

  lemma AcceptedLimitsResolve(s: Snapshot)
    requires Accepted(s)
    ensures LimitsResolve(s)
  {
    AcceptedLimits(s);
    forall limit, e | limit in s.limits && e in s.edges
      ensures RouteKey(limit.route) == RouteKey(e) <==> limit.route == e
    {
      RouteKeyIsInjective(limit.route, e);
    }
  }

  lemma CountsStayMatched(s: Snapshot, counts: Counts, trail: seq<Edge>, e: Edge)
    requires LimitsResolve(s) && e in s.edges && CountsMatch(s, counts, trail)
    requires CountTraversal(counts, LimitMap(s.limits), RouteKey(e)).Ok?
    ensures CountsMatch(s, CountTraversal(counts, LimitMap(s.limits), RouteKey(e)).value, trail + [e])
  {
    var after := CountTraversal(counts, LimitMap(s.limits), RouteKey(e)).value;
    forall limit | limit in s.limits
      ensures CountOf(after, RouteKey(limit.route)) == Uses(trail + [e], limit.route) <= limit.maxIterations
    {
      UsesExtends(trail, e, limit.route);
    }
  }

  lemma TrailExtends(edges: seq<Edge>, start: Node, trail: seq<Edge>, e: Edge)
    requires IsTrail(edges, start, trail) && e in edges && e.source == Position(start, trail)
    ensures IsTrail(edges, start, trail + [e]) && Position(start, trail + [e]) == e.target
  {
    var longer := trail + [e];
    forall i | 0 <= i < |longer| ensures longer[i] in edges && longer[i].source == Stop(start, longer, i) {
      if i < |trail| {
        assert Stop(start, longer, i) == Stop(start, trail, i);
      }
    }
  }

  /** Each declared port of a node has its one edge in the builder's map. */
  ghost predicate PortsResolve(s: Snapshot) {
    forall n, port | n in s.nodes && port in n.ports ::
      (n.id, port) in RouteMap(s.edges) && Edge(n.id, port, RouteMap(s.edges)[(n.id, port)]) in s.edges
  }

  lemma AcceptedPortsResolve(s: Snapshot)
    requires Accepted(s)
    ensures PortsResolve(s)
  {
    assert Obeys(s, PortsRouted) && Obeys(s, UniqueRoutes);
    forall n, port | n in s.nodes && port in n.ports
      ensures (n.id, port) in RouteMap(s.edges) && Edge(n.id, port, RouteMap(s.edges)[(n.id, port)]) in s.edges
    {
      var e :| e in s.edges && e.source == n.id && e.port == port;
      RouteMapFinds(s.edges, e);
      assert e == Edge(n.id, port, e.target);
    }
  }

  /** A completed action of a node other than the end commits the traversal of its port's edge. */
  lemma ActionTraverses(s: Snapshot, node: SnapshotNode, reply: HandlerReply, st: GraphState) returns (e: Edge)
    requires PortsResolve(s) && node in s.nodes && node.kind != End && ActionOutcome(s, node, reply, st).Ok?
    ensures e in s.edges && e.source == node.id
    ensures var after := ActionOutcome(s, node, reply, st).value;
      && CountTraversal(StoredCounts(st), LimitMap(s.limits), RouteKey(e)) == Ok(StoredCounts(after))
      && after.loopCounts.Some? && after.sequence == NextSequence(st.sequence) && after.sequence.Some?
      && NextNode(s, node, after) == Ok(Some(e.target))
  {
    e := Edge(node.id, reply.port.value, RouteMap(s.edges)[(node.id, reply.port.value)]);
  }

  /** Every step keeps the checkpoint on a trail. */
  lemma StepTracks(s: Snapshot, start: Node, cp: Checkpoint, trail: seq<Edge>, reply: HandlerReply)
    returns (longer: seq<Edge>)
    requires PortsResolve(s) && LimitsResolve(s) && Tracks(s, start, cp, trail)
    ensures Tracks(s, start, Step(s, cp, reply), longer)
  {
    longer := trail;
    if cp.next.Some? && NodeNamed(s.nodes, cp.next.value).Some? {
      NodeNamedFinds(s.nodes, cp.next.value);
      var node := NodeNamed(s.nodes, cp.next.value).value;
      if ActionOutcome(s, node, reply, cp.values).Ok? && node.kind != End {
        var e := ActionTraverses(s, node, reply, cp.values);
        CountsStayMatched(s, StoredCounts(cp.values), trail, e);
        TrailExtends(s.edges, start, trail, e);
        longer := trail + [e];
      }
    }
  }

  lemma {:induction false} ExecuteTracks(s: Snapshot, context: Context, replies: seq<HandlerReply>)
    returns (trail: seq<Edge>)
    requires HasOneStartAndEnd(s) && PortsResolve(s) && LimitsResolve(s)
    ensures Tracks(s, StartId(s), Execute(s, InitialCheckpoint(s, context), replies), trail)
    decreases |replies|
  {
    if replies == [] {
      trail := [];
    } else {
      var before := ExecuteTracks(s, context, replies[..|replies| - 1]);
      trail := StepTracks(s, StartId(s), Execute(s, InitialCheckpoint(s, context), replies[..|replies| - 1]), before,
                          replies[|replies| - 1]);
    }
  }

  // --- the length of a trail ---

  /** What bounds a walk: edges between nodes, and no cycle without a limited edge. */
  ghost predicate Bounded(s: Snapshot, start: Node) {
    && start in Ids(s)
    && (forall e | e in s.edges :: e.source in Ids(s) && e.target in Ids(s))
    && !HasClosedWalk(BoundedGraph(s))
  }

  lemma AcceptedIsBounded(s: Snapshot)
    requires Accepted(s)
    ensures HasOneStartAndEnd(s) && Bounded(s, StartId(s))
  {
    assert Obeys(s, OneStart) && Obeys(s, OneEnd) && Obeys(s, ConsistentEdges) && Obeys(s, CyclesLimited);
    var start := OfType(s.nodes, Start)[0];
    assert start in OfType(s.nodes, Start);
    forall e | e in s.edges ensures e.source in Ids(s) && e.target in Ids(s) {
      assert EdgeIsConsistent(s, StartId(s), EndId(s), e);
    }
  }

  /** The nodes that a stretch of the trail passes. */
  ghost function NodesPassed(start: Node, trail: seq<Edge>, from: nat): seq<Node>
    requires from <= |trail|
  {
    seq(|trail| - from + 1, k requires 0 <= k < |trail| - from + 1 => Stop(start, trail, from + k))
  }

  lemma StopIsNode(s: Snapshot, start: Node, trail: seq<Edge>, k: nat)
    requires Bounded(s, start) && IsTrail(s.edges, start, trail) && k <= |trail|
    ensures Stop(start, trail, k) in Ids(s)
  {
    if k > 0 {
      assert trail[k - 1].source == Stop(start, trail, k - 1);
    }
  }

  lemma PrefixIsTrail(edges: seq<Edge>, start: Node, trail: seq<Edge>, k: nat)
    requires IsTrail(edges, start, trail) && k <= |trail|
    ensures IsTrail(edges, start, trail[..k])
  {
    var prefix := trail[..k];
    forall i | 0 <= i < k ensures prefix[i] in edges && prefix[i].source == Stop(start, prefix, i) {
      assert Stop(start, prefix, i) == Stop(start, trail, i);
    }
  }

  lemma UnlimitedHop(s: Snapshot, start: Node, trail: seq<Edge>, i: nat)
    requires Bounded(s, start) && IsTrail(s.edges, start, trail) && i < |trail| && trail[i] !in LimitedRoutes(s)
    ensures Stop(start, trail, i + 1) in Targets(BoundedGraph(s), Stop(start, trail, i))
  {
    StopIsNode(s, start, trail, i);
    assert trail[i] in EdgesWithout(s.edges, LimitedRoutes(s));
  }

  /** A stretch without limited edges is a walk of the bounded graph, hence at most one pass over the nodes. */
  lemma UnlimitedStretchIsShort(s: Snapshot, start: Node, trail: seq<Edge>, from: nat)
    requires Bounded(s, start) && IsTrail(s.edges, start, trail) && from <= |trail|
    requires forall i | from <= i < |trail| :: trail[i] !in LimitedRoutes(s)
    ensures |trail| - from + 1 <= |s.nodes|
  {
    var graph, walk := BoundedGraph(s), NodesPassed(start, trail, from);
    forall k | 0 <= k < |walk| ensures walk[k] in graph {
      StopIsNode(s, start, trail, from + k);
    }
    forall k | 0 < k < |walk| ensures walk[k] in Targets(graph, walk[k - 1]) {
      UnlimitedHop(s, start, trail, from + k - 1);
    }
    AcyclicWalkIsShort(graph, walk);
    assert graph.Keys == IdSet(s.nodes);
    IdsFitNodes(s.nodes);
  }

  function IdSet(nodes: seq<SnapshotNode>): set<Node> {
    set n | n in nodes :: n.id
  }

  lemma {:induction false} IdsFitNodes(nodes: seq<SnapshotNode>)
    ensures |IdSet(nodes)| <= |nodes|
    decreases |nodes|
  {
    if nodes != [] {
      IdsFitNodes(nodes[1..]);
      assert nodes == [nodes[0]] + nodes[1..];
      assert IdSet(nodes) == IdSet(nodes[1..]) + {nodes[0].id};
    }
  }

  /** The nodes that so many passes after a first one can visit, as repeated addition. */
  function Passes(nodes: nat, again: nat): nat {
    if again == 0 then nodes else nodes + Passes(nodes, again - 1)
  }

  lemma {:induction false} PassesMultiply(nodes: nat, again: nat, most: nat)
    requires again <= most
    ensures Passes(nodes, again) <= Passes(nodes, most) == nodes * (1 + most)
    decreases most
  {
    if most > 0 {
      PassesMultiply(nodes, if again == most then again - 1 else again, most - 1);
    }
  }

  /** Splitting at the limited edges: each of the stretches between them is short. */
  lemma {:induction false} TrailIsShort(s: Snapshot, start: Node, trail: seq<Edge>)
    requires Bounded(s, start) && IsTrail(s.edges, start, trail)
    ensures |trail| + 1 <= Passes(|s.nodes|, LimitedUses(trail, LimitedRoutes(s)))
    decreases |trail|
  {
    var cut := LastLimited(trail, LimitedRoutes(s));
    UnlimitedStretchIsShort(s, start, trail, cut);
    if cut > 0 {
      PrefixIsTrail(s.edges, start, trail, cut - 1);
      TrailIsShort(s, start, trail[..cut - 1]);
    }
  }

  /** Where the last stretch without limited edges begins. */
  lemma {:induction false} LastLimited(trail: seq<Edge>, limited: set<Edge>) returns (cut: nat)
    ensures cut <= |trail|
    ensures forall i | cut <= i < |trail| :: trail[i] !in limited
    ensures cut > 0 ==> LimitedUses(trail, limited) == LimitedUses(trail[..cut - 1], limited) + 1
    ensures cut == 0 ==> LimitedUses(trail, limited) == 0
    decreases |trail|
  {
    if trail == [] {
      cut := 0;
    } else if trail[|trail| - 1] in limited {
      cut := |trail|;
    } else {
      var front := trail[..|trail| - 1];
      cut := LastLimited(front, limited);
      if cut > 0 {
        assert trail[..cut - 1] == front[..cut - 1];
      }
      forall i | cut <= i < |trail| ensures trail[i] !in limited {
        if i < |front| {
          assert front[i] == trail[i];
        }
      }
    }
  }

  // --- the limits bound the limited edges ---

  lemma {:induction false} UsesOfAllExtends(trail: seq<Edge>, e: Edge, limits: seq<LoopLimit>)
    ensures UsesOfAll(trail + [e], limits) >= UsesOfAll(trail, limits)
    ensures (exists limit :: limit in limits && limit.route == e) ==>
      UsesOfAll(trail + [e], limits) >= UsesOfAll(trail, limits) + 1
    decreases |limits|
  {
    if limits != [] {
      var front, last := limits[..|limits| - 1], limits[|limits| - 1];
      assert limits == front + [last];
      UsesOfAllExtends(trail, e, front);
      UsesExtends(trail, e, last.route);
    }
  }

  lemma {:induction false} LimitedUsesAreCounted(trail: seq<Edge>, limits: seq<LoopLimit>, limited: set<Edge>)
    requires forall e | e in limited :: exists limit :: limit in limits && limit.route == e
    ensures LimitedUses(trail, limited) <= UsesOfAll(trail, limits)
    decreases |trail|
  {
    if trail != [] {
      var front, last := trail[..|trail| - 1], trail[|trail| - 1];
      assert trail == front + [last];
      LimitedUsesAreCounted(front, limits, limited);
      UsesOfAllExtends(front, last, limits);
    }
  }

  lemma {:induction false} UsesWithinLimits(trail: seq<Edge>, limits: seq<LoopLimit>)
    requires forall limit | limit in limits :: Uses(trail, limit.route) <= limit.maxIterations
    ensures UsesOfAll(trail, limits) <= TotalIterations(limits)
    decreases |limits|
  {
    if limits != [] {
      var front, last := limits[..|limits| - 1], limits[|limits| - 1];
      assert limits == front + [last];
      UsesWithinLimits(trail, front);
      assert last in limits;
    }
  }

  lemma TrackedTrailIsBounded(s: Snapshot, start: Node, cp: Checkpoint, trail: seq<Edge>)
    requires Bounded(s, start) && Tracks(s, start, cp, trail)
    ensures |trail| + 1 <= StepBound(s)
  {
    var limited := LimitedRoutes(s);
    TrailIsShort(s, start, trail);
    LimitedUsesAreCounted(trail, s.limits, limited);
    UsesWithinLimits(trail, s.limits);
    PassesMultiply(|s.nodes|, LimitedUses(trail, limited), TotalIterations(s.limits));
  }

  /**
   The step bound: whatever the handlers do, and however often a job fails, waits and resumes,
   at most nodes x (1 + iterations) node actions complete; while a node is pending there is
   room for it.
   */
  lemma JobStepBound(s: Snapshot, context: Context, replies: seq<HandlerReply>)
    requires Accepted(s)
    ensures HasOneStartAndEnd(s)
    ensures var cp := Execute(s, InitialCheckpoint(s, context), replies);
      Completed(cp) + (if cp.next.Some? then 1 else 0) <= StepBound(s)
  {
    AcceptedIsBounded(s);
    AcceptedPortsResolve(s);
    AcceptedLimitsResolve(s);
    var trail := ExecuteTracks(s, context, replies);
    TrackedTrailIsBounded(s, StartId(s), Execute(s, InitialCheckpoint(s, context), replies), trail);
  }
}
