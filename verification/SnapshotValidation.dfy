/**
 The snapshot validator: it raises on the first broken rule, and accepts exactly the
 admissible snapshots.
 */
module SnapshotValidation {
  import opened Wrappers
  import opened DirectedGraph
  import opened SnapshotModel
  import opened SnapshotSearch

  datatype EdgeFault = UnknownNode | IntoStart | OutOfEnd | UndeclaredPort

  /** Why a snapshot is refused; the edge loop has four messages of its own. */
  datatype Violation = Breaks(rule: Rule) | BadEdge(fault: EdgeFault)

  function RuleOf(v: Violation): Rule {
    match v
    case Breaks(rule) => rule
    case BadEdge(_) => ConsistentEdges
  }

  /** The fault the edge loop raises for one edge, in the order of its checks. */
  function FaultOf(s: Snapshot, start: Node, end: Node, e: Edge): Option<EdgeFault> {
    if e.source !in Ids(s) || e.target !in Ids(s) then Some(UnknownNode)
    else if e.target == start then Some(IntoStart)
    else if e.source == end then Some(OutOfEnd)
    else if forall n | n in s.nodes && n.id == e.source :: e.port !in n.ports then Some(UndeclaredPort)
    else None
  }

  ghost predicate FirstFault(s: Snapshot, start: Node, end: Node, fault: EdgeFault) {
    exists i :: 0 <= i < |s.edges| && FaultOf(s, start, end, s.edges[i]) == Some(fault)
                && forall j | 0 <= j < i :: FaultOf(s, start, end, s.edges[j]) == None
  }

  /** The violation names the first broken rule and, for an edge, the first broken edge. */
  ghost predicate FirstBroken(s: Snapshot, v: Violation) {
    && !Obeys(s, RuleOf(v))
    && (forall rule | Rank(rule) < Rank(RuleOf(v)) :: Obeys(s, rule))
    && (v.BadEdge? ==> HasOneStartAndEnd(s) && FirstFault(s, StartId(s), EndId(s), v.fault))
    && (v.Breaks? ==> v.rule != ConsistentEdges)
  }

  /** All rules of one rank range hold. */
  ghost predicate ObeysUpTo(s: Snapshot, bound: nat) {
    forall rule | Rank(rule) < bound :: Obeys(s, rule)
  }

  // --- sequences without repetition ---

  function Range<T>(items: seq<T>): set<T> {
    set item | item in items
  }

  lemma {:induction false} RangeCountsDistinct<T>(items: seq<T>)
    ensures |Range(items)| <= |items|
    ensures |Range(items)| == |items| <==> Distinct(items)
    decreases |items|
  {
    if items != [] {
      var front, last := items[..|items| - 1], items[|items| - 1];
      RangeCountsDistinct(front);
      assert items == front + [last];
      assert Range(items) == Range(front) + {last};
      if last in front {
        var i :| 0 <= i < |front| && front[i] == last;
        assert items[i] == items[|items| - 1];
      } else {
        assert forall i | 0 <= i < |front| :: items[i] == front[i];
        if Distinct(items) {
          assert forall i, j | 0 <= i < j < |front| :: front[i] == items[i] && front[j] == items[j];
        }
      }
    }
  }

  // --- the checks on nodes, routes and bindings ---

  function NodeIds(s: Snapshot): seq<Node> {
    seq(|s.nodes|, i requires 0 <= i < |s.nodes| => s.nodes[i].id)
  }

  function EdgeRoutes(s: Snapshot): seq<(Node, string)> {
    seq(|s.edges|, i requires 0 <= i < |s.edges| => (s.edges[i].source, s.edges[i].port))
  }

  lemma UniqueBySize(s: Snapshot)
    ensures |NodeIds(s)| == |Range(NodeIds(s))| <==> Obeys(s, UniqueIds)
    ensures |EdgeRoutes(s)| == |Range(EdgeRoutes(s))| <==> Obeys(s, UniqueRoutes)
  {
    var ids, routes := NodeIds(s), EdgeRoutes(s);
    RangeCountsDistinct(ids);
    RangeCountsDistinct(routes);
    assert Distinct(ids) <==> Obeys(s, UniqueIds) by {
      assert forall i | 0 <= i < |ids| :: ids[i] == s.nodes[i].id;
    }
    assert Distinct(routes) <==> Obeys(s, UniqueRoutes) by {
      assert forall i | 0 <= i < |routes| :: routes[i] == (s.edges[i].source, s.edges[i].port);
    }
  }

  lemma LockedBySearch(s: Snapshot)
    ensures var guardrails := OfType(s.nodes, Guardrail);
      Obeys(s, LockedGuardrails) <==> guardrails != [] && forall n | n in guardrails :: n.locked
  {
    var guardrails := OfType(s.nodes, Guardrail);
    if guardrails != [] {
      assert guardrails[0] in guardrails;
    }
  }

  /** One more rule holds after all those before it. */
  lemma Advance(s: Snapshot, rule: Rule)
    requires ObeysUpTo(s, Rank(rule)) && Obeys(s, rule)
    ensures ObeysUpTo(s, Rank(rule) + 1)
  {
  }

  lemma BreaksFirst(s: Snapshot, rule: Rule)
    requires ObeysUpTo(s, Rank(rule)) && !Obeys(s, rule) && rule != ConsistentEdges
    ensures FirstBroken(s, Breaks(rule))
  {
  }

  /** Settles one rule: refuses with it, or goes on. */
  method Settle(s: Snapshot, rule: Rule, holds: bool) returns (broken: Option<Violation>)
    requires ObeysUpTo(s, Rank(rule)) && (holds <==> Obeys(s, rule)) && rule != ConsistentEdges
    ensures holds ==> broken == None && ObeysUpTo(s, Rank(rule) + 1)
    ensures !holds ==> broken == Some(Breaks(rule)) && FirstBroken(s, Breaks(rule))
  {
    if holds {
      Advance(s, rule);
      return None;
    }
    BreaksFirst(s, rule);
    broken := Some(Breaks(rule));
  }

  /** Identities, routes and the node budget. */
  method CheckIdentities(s: Snapshot) returns (broken: Option<Violation>)
    ensures broken == None ==> ObeysUpTo(s, 3)
    ensures broken.Some? ==> FirstBroken(s, broken.value)
  {
    UniqueBySize(s);
    broken := Settle(s, UniqueIds, |NodeIds(s)| == |Range(NodeIds(s))|);
    if broken == None {
      broken := Settle(s, UniqueRoutes, |EdgeRoutes(s)| == |Range(EdgeRoutes(s))|);
      if broken == None {
        broken := Settle(s, NodeBudget, |s.nodes| <= s.maxNodes);
      }
    }
  }

  /** The start node and the end node. */
  method CheckBoundaries(s: Snapshot) returns (broken: Option<Violation>)
    requires ObeysUpTo(s, 3)
    ensures broken == None ==> ObeysUpTo(s, 6)
    ensures broken.Some? ==> FirstBroken(s, broken.value)
  {
    broken := Settle(s, OneStart, |OfType(s.nodes, Start)| == 1);
    if broken == None {
      var ends := OfType(s.nodes, End);
      broken := Settle(s, OneEnd, |ends| == 1);
      if broken == None {
        EndPortsByLookup(s);
        broken := Settle(s, EndHasNoPorts, ends[0].ports == []);
      }
    }
  }

  /** The guardrails and the model bindings. */
  method CheckPolicies(s: Snapshot) returns (broken: Option<Violation>)
    requires ObeysUpTo(s, 6)
    ensures broken == None ==> ObeysUpTo(s, 8)
    ensures broken.Some? ==> FirstBroken(s, broken.value)
  {
    LockedBySearch(s);
    var guardrails := OfType(s.nodes, Guardrail);
    broken := Settle(s, LockedGuardrails, guardrails != [] && forall n | n in guardrails :: n.locked);
    if broken == None {
      broken := Settle(s, AgentBindings, s.modelBindings == IdsOfType(s, Agent));
    }
  }

  lemma EndPortsByLookup(s: Snapshot)
    requires |OfType(s.nodes, End)| == 1
    ensures Obeys(s, EndHasNoPorts) <==> OfType(s.nodes, End)[0].ports == []
  {
  }

  // --- the edge loop ---

  lemma FaultlessIsConsistent(s: Snapshot, start: Node, end: Node, e: Edge)
    ensures FaultOf(s, start, end, e) == None <==> EdgeIsConsistent(s, start, end, e)
  {
  }

  function Flip(e: Edge): Edge {
    Edge(e.target, e.port, e.source)
  }

  /** The reversed graph. */
  ghost function ReverseGraph(s: Snapshot, k: nat): Adjacency
    requires k <= |s.edges|
  {
    EdgesGraph(Ids(s), Flipped(s.edges[..k]))
  }

  ghost function PrefixGraph(s: Snapshot, k: nat, excluded: set<Edge>): Adjacency
    requires k <= |s.edges|
  {
    EdgesGraph(Ids(s), EdgesWithout(s.edges[..k], excluded))
  }

  /** Adding one edge adds one target. */
  lemma DrawEdge(ids: set<Node>, edges: set<Edge>, e: Edge)
    requires e.source in ids
    ensures var graph := EdgesGraph(ids, edges);
      EdgesGraph(ids, edges + {e}) == graph[e.source := graph[e.source] + {e.target}]
  {
    var before, after := EdgesGraph(ids, edges), EdgesGraph(ids, edges + {e});
    var expected := before[e.source := before[e.source] + {e.target}];
    assert e in edges + {e};
    forall id | id in ids ensures after[id] == expected[id] {
      forall target ensures target in after[id] <==> target in expected[id] {
        if target in before[id] {
          var f :| f in edges && f.source == id && f.target == target;
          assert f in edges + {e};
        }
      }
    }
    assert after == expected;
  }

  lemma DrawNothing(s: Snapshot, excluded: set<Edge>)
    ensures var empty: Adjacency := map id | id in Ids(s) :: {};
      empty == PrefixGraph(s, 0, excluded) && empty == ReverseGraph(s, 0)
  {
    var empty: Adjacency := map id | id in Ids(s) :: {};
    assert EdgesWithout(s.edges[..0], excluded) == {} && Flipped(s.edges[..0]) == {};
    assert forall id | id in Ids(s) :: EdgesGraph(Ids(s), {})[id] == empty[id];
  }

  lemma DrawEverything(s: Snapshot, excluded: set<Edge>)
    ensures PrefixGraph(s, |s.edges|, excluded) == AdjacencyOf(s, excluded)
  {
    assert s.edges[..|s.edges|] == s.edges;
  }

  lemma DrawNext(s: Snapshot, k: nat, excluded: set<Edge>)
    requires k < |s.edges| && s.edges[k].source in Ids(s)
    ensures var e, graph := s.edges[k], PrefixGraph(s, k, excluded);
      PrefixGraph(s, k + 1, excluded)
      == if e in excluded then graph else graph[e.source := graph[e.source] + {e.target}]
  {
    var e := s.edges[k];
    assert s.edges[..k + 1] == s.edges[..k] + [e];
    if e in excluded {
      assert EdgesWithout(s.edges[..k + 1], excluded) == EdgesWithout(s.edges[..k], excluded);
    } else {
      assert EdgesWithout(s.edges[..k + 1], excluded) == EdgesWithout(s.edges[..k], excluded) + {e};
      DrawEdge(Ids(s), EdgesWithout(s.edges[..k], excluded), e);
    }
  }

  lemma DrawNextReversed(s: Snapshot, k: nat)
    requires k < |s.edges| && s.edges[k].target in Ids(s)
    ensures var e, graph := s.edges[k], ReverseGraph(s, k);
      ReverseGraph(s, k + 1) == graph[e.target := graph[e.target] + {e.source}]
  {
    var e := s.edges[k];
    FlipNext(s.edges, k);
    DrawEdge(Ids(s), Flipped(s.edges[..k]), Flip(e));
  }

  ghost function Flipped(edges: seq<Edge>): set<Edge> {
    set e | e in edges :: Flip(e)
  }

  lemma FlipNext(edges: seq<Edge>, k: nat)
    requires k < |edges|
    ensures Flipped(edges[..k + 1]) == Flipped(edges[..k]) + {Flip(edges[k])}
  {
  }

  method DrawBothWays(s: Snapshot, i: nat, adjacency: Adjacency, reverse: Adjacency)
    returns (adjacency': Adjacency, reverse': Adjacency)
    requires i < |s.edges| && s.edges[i].source in Ids(s) && s.edges[i].target in Ids(s)
    requires adjacency == PrefixGraph(s, i, {}) && reverse == ReverseGraph(s, i)
    ensures adjacency' == PrefixGraph(s, i + 1, {}) && reverse' == ReverseGraph(s, i + 1)
  {
    var e := s.edges[i];
    DrawNext(s, i, {});
    DrawNextReversed(s, i);
    adjacency' := adjacency[e.source := adjacency[e.source] + {e.target}];
    reverse' := reverse[e.target := reverse[e.target] + {e.source}];
  }

  /** Walks the edges once, raising the first fault and building both adjacency maps. */
  method CollectEdges(s: Snapshot, start: Node, end: Node)
    returns (fault: Option<EdgeFault>, adjacency: Adjacency, reverse: Adjacency)
    ensures fault.Some? ==> FirstFault(s, start, end, fault.value)
    ensures fault == None <==> EdgesAreConsistent(s, start, end)
    ensures fault == None ==> adjacency == Graph(s) && reverse == ReverseGraph(s, |s.edges|)
  {
    adjacency := map id | id in Ids(s) :: {};
    reverse := map id | id in Ids(s) :: {};
    DrawNothing(s, {});
    for i := 0 to |s.edges|
      invariant adjacency == PrefixGraph(s, i, {}) && reverse == ReverseGraph(s, i)
      invariant forall j | 0 <= j < i :: FaultOf(s, start, end, s.edges[j]) == None
      invariant forall j | 0 <= j < i :: EdgeIsConsistent(s, start, end, s.edges[j])
    {
      var e := s.edges[i];
      fault := FaultOf(s, start, end, e);
      FaultlessIsConsistent(s, start, end, e);
      if fault.Some? {
        return;
      }
      adjacency, reverse := DrawBothWays(s, i, adjacency, reverse);
    }
    fault := None;
    DrawEverything(s, {});
  }

  /** The adjacency map of the edges whose routes are not excluded. */
  method AdjacencyWithout(s: Snapshot, excluded: set<Edge>) returns (adjacency: Adjacency)
    requires forall e | e in s.edges :: e.source in Ids(s)
    ensures adjacency == AdjacencyOf(s, excluded)
  {
    adjacency := map id | id in Ids(s) :: {};
    DrawNothing(s, excluded);
    for i := 0 to |s.edges|
      invariant adjacency == PrefixGraph(s, i, excluded)
    {
      var e := s.edges[i];
      DrawNext(s, i, excluded);
      if e !in excluded {
        adjacency := adjacency[e.source := adjacency[e.source] + {e.target}];
      }
    }
    DrawEverything(s, excluded);
  }

  // --- the path rules ---

  /** Consistent edges stay inside the node set. */
  ghost predicate StaysInside(s: Snapshot) {
    forall e | e in s.edges :: e.source in Ids(s) && e.target in Ids(s)
  }

  function Routes(s: Snapshot): set<(Node, string)> {
    set e | e in s.edges :: (e.source, e.port)
  }

  function DeclaredRoutes(s: Snapshot): set<(Node, string)> {
    set n, port | n in s.nodes && port in n.ports :: (n.id, port)
  }

  lemma RoutesCoverPorts(s: Snapshot, start: Node, end: Node)
    requires EdgesAreConsistent(s, start, end)
    ensures EveryPortIsRouted(s) <==> Routes(s) == DeclaredRoutes(s)
  {
    var routes, declared := Routes(s), DeclaredRoutes(s);
    forall e | e in s.edges ensures (e.source, e.port) in declared {
      assert EdgeIsConsistent(s, start, end, e);
      var n :| n in s.nodes && n.id == e.source && e.port in n.ports;
      assert (n.id, e.port) in declared;
    }
    assert routes <= declared;
    if EveryPortIsRouted(s) {
      forall n, port | n in s.nodes && port in n.ports ensures (n.id, port) in routes {
        var e :| e in s.edges && e.source == n.id && e.port == port;
        assert (e.source, e.port) in routes;
      }
    } else {
      var n, port :| n in s.nodes && port in n.ports && forall e | e in s.edges :: !(e.source == n.id && e.port == port);
      assert (n.id, port) in declared && (n.id, port) !in routes;
    }
  }

  lemma ReachedIsInside(s: Snapshot, source: Node, excluded: set<Edge>)
    requires StaysInside(s) && source in Ids(s)
    ensures forall n | Reaches(AdjacencyOf(s, excluded), source, n) :: n in Ids(s)
    ensures TargetsAreKeys(AdjacencyOf(s, excluded))
  {
    var graph := AdjacencyOf(s, excluded);
    forall n | Reaches(graph, source, n) ensures n in Ids(s) {
      var walk :| WalkFromTo(graph, walk, source, n);
      ClosedSetContainsReachable(graph, Ids(s), walk);
    }
  }

  ghost predicate IsReverse(graph: Adjacency, reverse: Adjacency) {
    forall a, b :: b in Targets(graph, a) <==> a in Targets(reverse, b)
  }

  lemma FlippedIsReverse(s: Snapshot)
    requires StaysInside(s)
    ensures IsReverse(Graph(s), ReverseGraph(s, |s.edges|))
  {
    var graph, reverse := Graph(s), ReverseGraph(s, |s.edges|);
    assert s.edges[..|s.edges|] == s.edges;
    forall a, b ensures b in Targets(graph, a) <==> a in Targets(reverse, b) {
      if b in Targets(graph, a) {
        var e :| e in EdgesWithout(s.edges, {}) && e.source == a && e.target == b;
        assert Flip(e) in Flipped(s.edges);
      }
      if a in Targets(reverse, b) {
        var f :| f in Flipped(s.edges) && f.source == b && f.target == a;
        assert Flip(f) in EdgesWithout(s.edges, {});
      }
    }
  }

  lemma ReverseWalk(graph: Adjacency, reverse: Adjacency, walk: seq<Node>)
    requires IsWalk(graph, walk) && IsReverse(graph, reverse)
    ensures Reaches(reverse, walk[|walk| - 1], walk[0])
  {
    var backward := seq(|walk|, i requires 0 <= i < |walk| => walk[|walk| - 1 - i]);
    forall i | 0 < i < |backward| ensures backward[i] in Targets(reverse, backward[i - 1]) {
      assert walk[|walk| - i] in Targets(graph, walk[|walk| - i - 1]);
    }
    assert WalkFromTo(reverse, backward, walk[|walk| - 1], walk[0]);
  }

  lemma ReverseReaches(graph: Adjacency, reverse: Adjacency, a: Node, b: Node)
    requires IsReverse(graph, reverse)
    ensures Reaches(graph, a, b) <==> Reaches(reverse, b, a)
  {
    if Reaches(graph, a, b) {
      var walk :| WalkFromTo(graph, walk, a, b);
      ReverseWalk(graph, reverse, walk);
    }
    if Reaches(reverse, b, a) {
      var walk :| WalkFromTo(reverse, walk, b, a);
      ReverseWalk(reverse, graph, walk);
    }
  }

  /** The graph with some nodes cut out. */
  function WithoutNodes(graph: Adjacency, cut: set<Node>): Adjacency {
    map id | id in graph && id !in cut :: set target | target in graph[id] && target !in cut
  }

  /** A node is reachable around the cut exactly along a walk that avoids it. */
  lemma ReachesAroundCut(graph: Adjacency, cut: set<Node>, source: Node, target: Node)
    requires source !in cut
    ensures Reaches(WithoutNodes(graph, cut), source, target) <==>
      exists walk :: WalkFromTo(graph, walk, source, target) && forall i | 0 <= i < |walk| :: walk[i] !in cut
  {
    var left := WithoutNodes(graph, cut);
    if Reaches(left, source, target) {
      var walk :| WalkFromTo(left, walk, source, target);
      forall i | 0 <= i < |walk| ensures walk[i] !in cut {
        if i > 0 {
          assert walk[i] in Targets(left, walk[i - 1]);
        }
      }
      forall i | 0 < i < |walk| ensures walk[i] in Targets(graph, walk[i - 1]) {
        assert walk[i] in Targets(left, walk[i - 1]);
      }
      assert WalkFromTo(graph, walk, source, target);
    }
    if walk :| WalkFromTo(graph, walk, source, target) && forall i | 0 <= i < |walk| :: walk[i] !in cut {
      forall i | 0 < i < |walk| ensures walk[i] in Targets(left, walk[i - 1]) {
        assert walk[i] in Targets(graph, walk[i - 1]) && walk[i] !in cut && walk[i - 1] !in cut;
      }
      assert WalkFromTo(left, walk, source, target);
    }
  }

  /** What the path rules may rely on: a start and an end node of their own, and edges that stay inside. */
  ghost predicate Framed(s: Snapshot, start: Node, end: Node) {
    && HasOneStartAndEnd(s) && start == StartId(s) && end == EndId(s)
    && start in Ids(s) && end in Ids(s) && start !in IdsOfType(s, Guardrail)
    && EdgesAreConsistent(s, start, end) && StaysInside(s)
  }

  lemma EstablishFrame(s: Snapshot)
    requires ObeysUpTo(s, 9)
    ensures HasOneStartAndEnd(s) && Framed(s, StartId(s), EndId(s))
  {
    assert Rank(UniqueIds) < 9 && Rank(OneStart) < 9 && Rank(OneEnd) < 9 && Rank(ConsistentEdges) < 9;
    var start, end := OfType(s.nodes, Start)[0], OfType(s.nodes, End)[0];
    assert start in OfType(s.nodes, Start) && end in OfType(s.nodes, End);
    assert start in s.nodes && end in s.nodes;
    forall n | n in s.nodes && n.kind == Guardrail ensures n.id != start.id {
      var i :| 0 <= i < |s.nodes| && s.nodes[i] == n;
      var j :| 0 <= j < |s.nodes| && s.nodes[j] == start;
    }
  }

  lemma GuardrailRule(s: Snapshot, start: Node, end: Node)
    requires start !in IdsOfType(s, Guardrail)
    ensures GuardedBetween(s, start, end) <==> !Reaches(WithoutNodes(Graph(s), IdsOfType(s, Guardrail)), start, end)
  {
    ReachesAroundCut(Graph(s), IdsOfType(s, Guardrail), start, end);
  }

  lemma ReachableRule(s: Snapshot, start: Node, reachable: set<Node>)
    requires StaysInside(s) && start in Ids(s)
    requires forall n :: n in reachable <==> Reaches(Graph(s), start, n)
    ensures reachable == Ids(s) <==> AllReachableFrom(s, start)
  {
    ReachedIsInside(s, start, {});
  }

  lemma ReturningRule(s: Snapshot, end: Node, returning: set<Node>)
    requires StaysInside(s) && end in Ids(s)
    requires forall n :: n in returning <==> Reaches(ReverseGraph(s, |s.edges|), end, n)
    ensures returning == Ids(s) <==> AllReach(s, end)
  {
    FlippedIsReverse(s);
    var reverse := ReverseGraph(s, |s.edges|);
    forall n ensures n in returning <==> Reaches(Graph(s), n, end) {
      ReverseReaches(Graph(s), reverse, n, end);
    }
    forall n | n in returning ensures n in Ids(s) {
      var walk :| WalkFromTo(reverse, walk, end, n);
      assert s.edges[..|s.edges|] == s.edges;
      ClosedSetContainsReachable(reverse, Ids(s), walk);
    }
  }

  method CheckPorts(s: Snapshot, start: Node, end: Node) returns (broken: Option<Violation>)
    requires ObeysUpTo(s, 9) && Framed(s, start, end)
    ensures broken == None ==> ObeysUpTo(s, 10)
    ensures broken.Some? ==> FirstBroken(s, broken.value)
  {
    RoutesCoverPorts(s, start, end);
    broken := Settle(s, PortsRouted, Routes(s) == DeclaredRoutes(s));
  }

  method CheckReachable(s: Snapshot, start: Node, end: Node, adjacency: Adjacency) returns (broken: Option<Violation>)
    requires ObeysUpTo(s, 10) && Framed(s, start, end) && adjacency == Graph(s)
    ensures broken == None ==> ObeysUpTo(s, 11)
    ensures broken.Some? ==> FirstBroken(s, broken.value)
  {
    var reachable := ReachableNodes(start, adjacency);
    ReachableRule(s, start, reachable);
    broken := Settle(s, ReachableFromStart, reachable == Ids(s));
  }

  method CheckReturning(s: Snapshot, start: Node, end: Node, reverse: Adjacency) returns (broken: Option<Violation>)
    requires ObeysUpTo(s, 11) && Framed(s, start, end) && reverse == ReverseGraph(s, |s.edges|)
    ensures broken == None ==> ObeysUpTo(s, 12)
    ensures broken.Some? ==> FirstBroken(s, broken.value)
  {
    var returning := ReachableNodes(end, reverse);
    ReturningRule(s, end, returning);
    broken := Settle(s, ReachesEnd, returning == Ids(s));
  }

  method CheckGuardrails(s: Snapshot, start: Node, end: Node, adjacency: Adjacency) returns (broken: Option<Violation>)
    requires ObeysUpTo(s, 12) && Framed(s, start, end) && adjacency == Graph(s)
    ensures broken == None ==> ObeysUpTo(s, 13)
    ensures broken.Some? ==> FirstBroken(s, broken.value)
  {
    GuardrailRule(s, start, end);
    var unguarded := ReachableNodes(start, WithoutNodes(adjacency, IdsOfType(s, Guardrail)));
    broken := Settle(s, GuardrailOnEveryPath, end !in unguarded);
  }

  // --- the loop rules ---

  /** Every limit must sit on an edge that repeats. */
  method LimitsRepeatEverywhere(s: Snapshot) returns (holds: bool)
    requires StaysInside(s)
    ensures holds <==> Obeys(s, LimitsRepeat)
  {
    for i := 0 to |s.limits|
      invariant forall j | 0 <= j < i :: LimitRepeats(s, s.limits[j].route)
    {
      var route := s.limits[i].route;
      var without := AdjacencyWithout(s, {route});
      if route.source != route.target {
        var reachable := ReachableNodes(route.target, without);
        if route.source !in reachable {
          assert !LimitRepeats(s, route) && s.limits[i] in s.limits;
          return false;
        }
      }
    }
    holds := true;
  }

  method CheckLimits(s: Snapshot) returns (broken: Option<Violation>)
    requires ObeysUpTo(s, 13) && StaysInside(s)
    ensures broken == None ==> ObeysUpTo(s, 15)
    ensures broken.Some? ==> FirstBroken(s, broken.value)
  {
    LimitsByInclusion(s);
    broken := Settle(s, LimitsNameEdges, LimitedRoutes(s) <= Range(s.edges));
    if broken == None {
      var repeating := LimitsRepeatEverywhere(s);
      broken := Settle(s, LimitsRepeat, repeating);
    }
  }

  lemma LimitsByInclusion(s: Snapshot)
    ensures LimitedRoutes(s) <= Range(s.edges) <==> Obeys(s, LimitsNameEdges)
  {
    if LimitedRoutes(s) <= Range(s.edges) {
      forall limit | limit in s.limits ensures limit.route in s.edges {
        assert limit.route in LimitedRoutes(s);
      }
    }
  }

  method CheckCycles(s: Snapshot, start: Node) returns (broken: Option<Violation>)
    requires ObeysUpTo(s, 15) && StaysInside(s) && start in Ids(s)
    ensures broken == None ==> ObeysUpTo(s, 16)
    ensures broken.Some? ==> FirstBroken(s, broken.value)
  {
    ReachedIsInside(s, start, LimitedRoutes(s));
    var bounded := AdjacencyWithout(s, LimitedRoutes(s));
    var cyclic := ContainsCycle(bounded);
    broken := Settle(s, CyclesLimited, !cyclic);
  }

  /** The validator accepts exactly the admissible snapshots and names the first broken rule. */
  method ValidateSnapshot(s: Snapshot) returns (broken: Option<Violation>)
    ensures broken == None <==> Admissible(s)
    ensures broken.Some? ==> FirstBroken(s, broken.value)
  {
    broken := CheckIdentities(s);
    if broken == None {
      broken := CheckBoundaries(s);
      if broken == None {
        broken := CheckPolicies(s);
        if broken == None {
          broken := CheckGraph(s);
        }
      }
    }
    assert forall rule :: Rank(rule) < 16;
  }

  /** Everything after the node checks: the edges, then the paths and the loops. */
  method CheckGraph(s: Snapshot) returns (broken: Option<Violation>)
    requires ObeysUpTo(s, 8)
    ensures broken == None ==> ObeysUpTo(s, 16)
    ensures broken.Some? ==> FirstBroken(s, broken.value)
  {
    HasBoundaries(s);
    var start, end := StartId(s), EndId(s);
    var fault, adjacency, reverse := CollectEdges(s, start, end);
    if fault.Some? {
      FaultRefuses(s, start, end, fault.value);
      return Some(BadEdge(fault.value));
    }
    EdgesSettled(s, start, end);
    broken := CheckPathsAndLoops(s, start, end, adjacency, reverse);
  }

  lemma HasBoundaries(s: Snapshot)
    requires ObeysUpTo(s, 8)
    ensures HasOneStartAndEnd(s)
  {
    assert Rank(OneStart) < 8 && Rank(OneEnd) < 8;
  }

  lemma FaultRefuses(s: Snapshot, start: Node, end: Node, fault: EdgeFault)
    requires ObeysUpTo(s, 8) && HasOneStartAndEnd(s) && start == StartId(s) && end == EndId(s)
    requires FirstFault(s, start, end, fault) && !EdgesAreConsistent(s, start, end)
    ensures FirstBroken(s, BadEdge(fault))
  {
  }

  lemma EdgesSettled(s: Snapshot, start: Node, end: Node)
    requires ObeysUpTo(s, 8) && HasOneStartAndEnd(s) && start == StartId(s) && end == EndId(s)
    requires EdgesAreConsistent(s, start, end)
    ensures ObeysUpTo(s, 9) && Framed(s, start, end)
  {
    Advance(s, ConsistentEdges);
    EstablishFrame(s);
  }

  method CheckPathsAndLoops(s: Snapshot, start: Node, end: Node, adjacency: Adjacency, reverse: Adjacency)
    returns (broken: Option<Violation>)
    requires ObeysUpTo(s, 9) && Framed(s, start, end)
    requires adjacency == Graph(s) && reverse == ReverseGraph(s, |s.edges|)
    ensures broken == None ==> ObeysUpTo(s, 16)
    ensures broken.Some? ==> FirstBroken(s, broken.value)
  {
    broken := CheckPorts(s, start, end);
    if broken.Some? { return; }
    broken := CheckReachable(s, start, end, adjacency);
    if broken.Some? { return; }
    broken := CheckReturning(s, start, end, reverse);
    if broken.Some? { return; }
    broken := CheckGuardrails(s, start, end, adjacency);
    if broken.Some? { return; }
    broken := CheckLimits(s);
    if broken.Some? { return; }
    broken := CheckCycles(s, start);
  }
}
