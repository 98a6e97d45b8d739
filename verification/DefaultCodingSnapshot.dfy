/**
 The default coding snapshot: it is accepted, so its executions are bounded, and the budget of its
 rework gate is the largest that its retry edge allows.
 */
module DefaultCodingSnapshot {
  import opened Wrappers
  import opened DirectedGraph
  import opened SnapshotModel
  import GraphBound
  import GraphExecution
  import GraphRuns
  import opened CodingRounds
  import ReworkBudget
  import GraphSteps

  const NODES := 17
  const EDGES := 24
  const GATE := 6
  const RETRY := 9
  const MAX_REWORK_ROUNDS := 3

  // --- the document ---

  function Name(k: nat): Node {
    if k == 0 then "start" else if k == 1 then "guardrail" else if k == 2 then "analyze"
    else if k == 3 then "scope_approval" else if k == 4 then "code" else if k == 5 then "review"
    else if k == 6 then "rework_gate" else if k == 7 then "preview" else if k == 8 then "preview_approval"
    else if k == 9 then "pr_request" else if k == 10 then "github_approval" else if k == 11 then "pr_complete"
    else if k == 12 then "deploy_request" else if k == 13 then "deploy_approval"
    else if k == 14 then "dev_merge_check" else if k == 15 then "deploy" else "end"
  }

  function Kind(k: nat): NodeType {
    if k == 0 then Start else if k == 1 then Guardrail else if k in {2, 4, 5} then Agent
    else if k in {3, 8, 10, 13} then Approval else if k in {6, 14} then Check
    else if k == 16 then End else Tool
  }

  function Ports(k: nat): seq<string> {
    if k == 0 then ["next"] else if k == 1 then ["passed", "failed"] else if k == 2 then ["feasible", "infeasible"]
    else if k == 3 then ["approved"] else if k == 4 then ["completed"] else if k == 5 then ["passed", "changes_requested"]
    else if k == 6 then ["retry", "handover"] else if k == 7 then ["ready"] else if k == 8 then ["approved", "rejected"]
    else if k == 9 then ["requested"] else if k == 10 then ["approved"] else if k == 11 then ["completed"]
    else if k == 12 then ["recorded"] else if k == 13 then ["approved"]
    else if k == 14 then ["merged", "not_merged", "blocked"] else if k == 15 then ["completed", "blocked"] else []
  }

  function Source(m: nat): nat {
    if m == 0 then 0 else if m <= 2 then 1 else if m <= 4 then 2 else if m == 5 then 3 else if m == 6 then 4
    else if m <= 8 then 5 else if m <= 10 then 6 else if m == 11 then 7 else if m <= 13 then 8
    else if m <= 18 then m - 5 else if m <= 21 then 14 else 15
  }

  function Target(m: nat): nat {
    if m == 0 then 1 else if m == 1 then 2 else if m == 2 then 16 else if m == 3 then 3 else if m == 4 then 16
    else if m == 5 then 4 else if m == 6 then 5 else if m == 7 then 7 else if m == 8 then 6 else if m == 9 then 4
    else if m == 10 then 16 else if m == 11 then 8 else if m == 12 then 9 else if m == 13 then 2
    else if m <= 18 then m - 4 else if m == 19 then 12 else if m == 20 then 15 else 16
  }

  /** Which of its source's ports an edge leaves by. */
  function PortIndex(m: nat): nat {
    if m in {2, 4, 8, 10, 13, 19, 23} then 1 else if m == 21 then 2 else 0
  }

  function NodeAt(k: nat): SnapshotNode {
    SnapshotNode(Name(k), Kind(k), Ports(k), k == 1)
  }

  function EdgeAt(m: nat): Edge
    requires m < EDGES
  {
    Edge(Name(Source(m)), Ports(Source(m))[PortIndex(m)], Name(Target(m)))
  }

  function LimitAt(i: nat): LoopLimit {
    LoopLimit(EdgeAt(if i == 0 then RETRY else if i == 1 then 13 else 19), 2)
  }

  const SNAPSHOT := Snapshot(
    seq(NODES, k requires 0 <= k < NODES => NodeAt(k)),
    seq(EDGES, m requires 0 <= m < EDGES => EdgeAt(m)),
    17,
    seq(3, i requires 0 <= i < 3 => LimitAt(i)),
    {"analyze", "code", "review"})

  predicate IsLimited(m: nat) {
    m in {9, 13, 19}
  }

  // --- names and ports are distinct ---

  /** The place of a name, told from its length and a letter. */
  function Place(id: Node): int {
    if |id| == 5 then 0 else if |id| == 9 then 1
    else if |id| == 7 then (if id[0] == 'a' then 2 else 7)
    else if |id| == 14 then (if id[0] == 's' then 3 else 12)
    else if |id| == 4 then 4
    else if |id| == 6 then (if id[0] == 'r' then 5 else 15)
    else if |id| == 11 then (if id[0] == 'r' then 6 else 11)
    else if |id| == 16 then 8 else if |id| == 10 then 9
    else if |id| == 15 then (if id[0] == 'g' then 10 else if id[2] == 'p' then 13 else 14)
    else 16
  }

  lemma NamesAreDistinct(k: nat)
    requires k < NODES
    ensures Place(Name(k)) == k
  {
  }

  lemma NamesHaveNoColon(k: nat)
    requires k < NODES
    ensures ':' !in Name(k)
  {
  }

  lemma PortsAreDistinct(k: nat)
    requires k < NODES
    ensures Distinct(Ports(k))
  {
  }

  lemma PortsHaveNoColon(k: nat, p: nat)
    requires k < NODES && p < |Ports(k)|
    ensures ':' !in Ports(k)[p]
  {
  }

  lemma EdgesUsePorts(m: nat)
    requires m < EDGES
    ensures Source(m) < 16 && 0 < Target(m) < NODES && PortIndex(m) < |Ports(Source(m))|
    ensures !IsLimited(m) ==> Source(m) < Target(m)
  {
  }

  lemma EqualNamesMeanEqualPlaces(i: nat, j: nat)
    requires i < NODES && j < NODES && Name(i) == Name(j)
    ensures i == j
  {
    NamesAreDistinct(i);
    NamesAreDistinct(j);
  }

  lemma PortsOfOneNodeDiffer(m: nat, n: nat)
    requires m < n < EDGES && Source(m) == Source(n)
    ensures PortIndex(m) != PortIndex(n)
  {
  }

  lemma NodeOf(n: SnapshotNode) returns (k: nat)
    requires n in SNAPSHOT.nodes
    ensures k < NODES && n == NodeAt(k)
  {
    k :| 0 <= k < NODES && SNAPSHOT.nodes[k] == n;
  }

  lemma EdgeOf(e: Edge) returns (m: nat)
    requires e in SNAPSHOT.edges
    ensures m < EDGES && e == EdgeAt(m)
  {
    m :| 0 <= m < EDGES && SNAPSHOT.edges[m] == e;
  }

  lemma NodeIsThere(k: nat)
    requires k < NODES
    ensures NodeAt(k) in SNAPSHOT.nodes && Name(k) in Ids(SNAPSHOT)
  {
    assert SNAPSHOT.nodes[k] == NodeAt(k);
  }

  lemma EdgeIsThere(m: nat)
    requires m < EDGES
    ensures EdgeAt(m) in SNAPSHOT.edges
  {
    assert SNAPSHOT.edges[m] == EdgeAt(m);
  }

  // --- what decoding guarantees ---

  lemma LimitOf(limit: LoopLimit) returns (i: nat)
    requires limit in SNAPSHOT.limits
    ensures i < 3 && limit == LimitAt(i)
  {
    i :| 0 <= i < 3 && SNAPSHOT.limits[i] == limit;
  }

  lemma EdgeHasNoColon(m: nat)
    requires m < EDGES
    ensures ':' !in EdgeAt(m).source && ':' !in EdgeAt(m).port && ':' !in EdgeAt(m).target
  {
    EdgesUsePorts(m);
    NamesHaveNoColon(Source(m));
    NamesHaveNoColon(Target(m));
    PortsHaveNoColon(Source(m), PortIndex(m));
  }

  lemma LimitsDiffer(i: nat, j: nat)
    requires i < j < 3
    ensures LimitAt(i).route != LimitAt(j).route
  {
    NamesAreDistinct(6);
    NamesAreDistinct(8);
    NamesAreDistinct(14);
  }

  lemma IsDecoded()
    ensures Decoded(SNAPSHOT)
  {
    forall n | n in SNAPSHOT.nodes
      ensures ':' !in n.id && Distinct(n.ports) && forall port | port in n.ports :: ':' !in port
    {
      var k := NodeOf(n);
      NamesHaveNoColon(k);
      PortsAreDistinct(k);
      forall port | port in n.ports ensures ':' !in port {
        var p :| 0 <= p < |Ports(k)| && Ports(k)[p] == port;
        PortsHaveNoColon(k, p);
      }
    }
    forall e | e in SNAPSHOT.edges ensures ':' !in e.source && ':' !in e.port && ':' !in e.target {
      var m := EdgeOf(e);
      EdgeHasNoColon(m);
    }
    forall i, j | 0 <= i < j < |SNAPSHOT.limits| ensures SNAPSHOT.limits[i].route != SNAPSHOT.limits[j].route {
      LimitsDiffer(i, j);
    }
    forall limit | limit in SNAPSHOT.limits
      ensures limit.maxIterations >= 1
        && ':' !in limit.route.source && ':' !in limit.route.port && ':' !in limit.route.target
    {
      var i := LimitOf(limit);
      EdgeHasNoColon(if i == 0 then RETRY else if i == 1 then 13 else 19);
    }
  }

  // --- identities and boundaries ---

  lemma {:induction false} OnlyOne(nodes: seq<SnapshotNode>, kind: NodeType, k: nat)
    requires k < |nodes| && nodes[k].kind == kind
    requires forall i | 0 <= i < |nodes| && i != k :: nodes[i].kind != kind
    ensures OfType(nodes, kind) == [nodes[k]]
    decreases |nodes|
  {
    if k == 0 {
      NoneOfType(nodes[1..], kind);
    } else {
      OnlyOne(nodes[1..], kind, k - 1);
    }
  }

  lemma {:induction false} NoneOfType(nodes: seq<SnapshotNode>, kind: NodeType)
    requires forall i | 0 <= i < |nodes| :: nodes[i].kind != kind
    ensures OfType(nodes, kind) == []
    decreases |nodes|
  {
    if nodes != [] {
      NoneOfType(nodes[1..], kind);
    }
  }

  lemma Boundaries()
    ensures HasOneStartAndEnd(SNAPSHOT) && StartId(SNAPSHOT) == Name(0) && EndId(SNAPSHOT) == Name(16)
  {
    OnlyOne(SNAPSHOT.nodes, Start, 0);
    OnlyOne(SNAPSHOT.nodes, End, 16);
  }

  lemma IdentitiesAreUnique()
    ensures Obeys(SNAPSHOT, UniqueIds) && Obeys(SNAPSHOT, UniqueRoutes)
  {
    forall i, j | 0 <= i < j < NODES ensures SNAPSHOT.nodes[i].id != SNAPSHOT.nodes[j].id {
      if Name(i) == Name(j) {
        EqualNamesMeanEqualPlaces(i, j);
      }
    }
    forall m, n | 0 <= m < n < EDGES
      ensures (SNAPSHOT.edges[m].source, SNAPSHOT.edges[m].port) != (SNAPSHOT.edges[n].source, SNAPSHOT.edges[n].port)
    {
      RoutesDiffer(m, n);
    }
  }

  lemma RoutesDiffer(m: nat, n: nat)
    requires m < n < EDGES
    ensures (EdgeAt(m).source, EdgeAt(m).port) != (EdgeAt(n).source, EdgeAt(n).port)
  {
    EdgesUsePorts(m);
    EdgesUsePorts(n);
    if Name(Source(m)) == Name(Source(n)) {
      EqualNamesMeanEqualPlaces(Source(m), Source(n));
      PortsOfOneNodeDiffer(m, n);
      PortsAreDistinct(Source(m));
    }
  }

  lemma PoliciesHold()
    ensures Obeys(SNAPSHOT, EndHasNoPorts) && Obeys(SNAPSHOT, LockedGuardrails) && Obeys(SNAPSHOT, AgentBindings)
  {
    forall n | n in SNAPSHOT.nodes
      ensures (n.kind == End ==> n.ports == []) && (n.kind == Guardrail ==> n.locked)
        && (n.kind == Agent ==> n.id in SNAPSHOT.modelBindings)
    {
      var k := NodeOf(n);
    }
    NodeIsThere(1);
    AgentIsThere(2);
    AgentIsThere(4);
    AgentIsThere(5);
  }

  lemma AgentIsThere(k: nat)
    requires k in {2, 4, 5}
    ensures Name(k) in IdsOfType(SNAPSHOT, Agent)
  {
    NodeIsThere(k);
    assert NodeAt(k).kind == Agent;
  }

  // --- edges and reachability ---

  lemma EdgesAreInPlace()
    ensures Obeys(SNAPSHOT, ConsistentEdges)
  {
    Boundaries();
    forall e | e in SNAPSHOT.edges ensures EdgeIsConsistent(SNAPSHOT, Name(0), Name(16), e) {
      var m := EdgeOf(e);
      EdgeIsInPlace(m);
    }
  }

  lemma EdgeIsInPlace(m: nat)
    requires m < EDGES
    ensures EdgeIsConsistent(SNAPSHOT, Name(0), Name(16), EdgeAt(m))
  {
    EdgesUsePorts(m);
    NodeIsThere(Source(m));
    NodeIsThere(Target(m));
    if Name(Target(m)) == Name(0) {
      EqualNamesMeanEqualPlaces(Target(m), 0);
    }
    if Name(Source(m)) == Name(16) {
      EqualNamesMeanEqualPlaces(Source(m), 16);
    }
    assert NodeAt(Source(m)).id == EdgeAt(m).source && EdgeAt(m).port in NodeAt(Source(m)).ports;
  }

  /** The edge of a node's port. */
  function EdgeOfPort(k: nat, p: nat): nat {
    if k == 0 then 0 else if k == 1 then 1 + p else if k == 2 then 3 + p else if k == 3 then 5 else if k == 4 then 6
    else if k == 5 then 7 + p else if k == 6 then 9 + p else if k == 7 then 11 else if k == 8 then 12 + p
    else if k <= 13 then k + 5
    else if k == 14 then (if p == 0 then 20 else if p == 1 then 19 else 21) else 22 + p
  }

  lemma PortHasEdge(k: nat, p: nat)
    requires k < NODES && p < |Ports(k)|
    ensures EdgeOfPort(k, p) < EDGES
    ensures Source(EdgeOfPort(k, p)) == k && PortIndex(EdgeOfPort(k, p)) == p
  {
  }

  lemma PortsAreRouted()
    ensures Obeys(SNAPSHOT, PortsRouted)
  {
    forall n, port | n in SNAPSHOT.nodes && port in n.ports
      ensures exists e :: e in SNAPSHOT.edges && e.source == n.id && e.port == port
    {
      var k := NodeOf(n);
      var p :| 0 <= p < |Ports(k)| && Ports(k)[p] == port;
      PortHasEdge(k, p);
      EdgeIsThere(EdgeOfPort(k, p));
    }
  }

  lemma EdgeIsDrawn(m: nat, excluded: set<Edge>)
    requires m < EDGES && EdgeAt(m) !in excluded
    ensures Name(Target(m)) in Targets(AdjacencyOf(SNAPSHOT, excluded), Name(Source(m)))
  {
    EdgesUsePorts(m);
    EdgeIsThere(m);
    NodeIsThere(Source(m));
    assert EdgeAt(m) in EdgesWithout(SNAPSHOT.edges, excluded);
  }

  /** An edge into a node from an earlier one, and one out of a node to a later one. */
  function EdgeInto(k: nat): nat {
    if k <= 2 then (if k == 0 then 0 else k - 1) else if k == 3 then 3 else if k <= 5 then k + 1
    else if k == 6 then 8 else if k == 7 then 7 else if k == 8 then 11 else if k == 9 then 12
    else if k <= 14 then k + 4 else if k == 15 then 20 else 22
  }

  function EdgeOutOf(k: nat): nat {
    if k <= 1 then k else if k == 2 then 3 else if k <= 5 then k + 2 else if k == 6 then 10 else if k == 7 then 11
    else if k == 8 then 12 else if k <= 13 then k + 5 else if k == 14 then 20 else 22
  }

  lemma NeighboursAreInOrder(k: nat)
    requires k < NODES
    ensures EdgeInto(k) < EDGES && (k > 0 ==> Target(EdgeInto(k)) == k && !IsLimited(EdgeInto(k)))
    ensures EdgeOutOf(k) < EDGES && (k < 16 ==> Source(EdgeOutOf(k)) == k && !IsLimited(EdgeOutOf(k)))
  {
  }

  lemma LimitedRoutesArePlaces(m: nat)
    requires m < EDGES
    ensures EdgeAt(m) in LimitedRoutes(SNAPSHOT) <==> IsLimited(m)
  {
    if IsLimited(m) {
      var i := if m == RETRY then 0 else if m == 13 then 1 else 2;
      assert SNAPSHOT.limits[i] == LimitAt(i);
      assert LimitAt(i) in SNAPSHOT.limits;
    }
    if EdgeAt(m) in LimitedRoutes(SNAPSHOT) {
      var limit :| limit in SNAPSHOT.limits && limit.route == EdgeAt(m);
      var i := LimitOf(limit);
      var n := if i == 0 then RETRY else if i == 1 then 13 else 19;
      if m < n {
        RoutesDiffer(m, n);
      } else if n < m {
        RoutesDiffer(n, m);
      }
    }
  }

  lemma {:induction false} ReachedFromStart(k: nat)
    requires k < NODES
    ensures Reaches(BoundedGraph(SNAPSHOT), Name(0), Name(k))
    decreases k
  {
    if k == 0 {
      ReachesItself(BoundedGraph(SNAPSHOT), Name(0));
    } else {
      var m := EdgeInto(k);
      NeighboursAreInOrder(k);
      EdgesUsePorts(m);
      LimitedRoutesArePlaces(m);
      EdgeIsDrawn(m, LimitedRoutes(SNAPSHOT));
      ReachedFromStart(Source(m));
      ReachesExtends(BoundedGraph(SNAPSHOT), Name(0), Name(Source(m)), Name(k));
    }
  }

  lemma {:induction false} ReachesTheEnd(k: nat)
    requires k < NODES
    ensures Reaches(BoundedGraph(SNAPSHOT), Name(k), Name(16))
    decreases NODES - k
  {
    if k == 16 {
      ReachesItself(BoundedGraph(SNAPSHOT), Name(16));
    } else {
      var m := EdgeOutOf(k);
      NeighboursAreInOrder(k);
      EdgesUsePorts(m);
      LimitedRoutesArePlaces(m);
      EdgeIsDrawn(m, LimitedRoutes(SNAPSHOT));
      ReachesTheEnd(Target(m));
      ReachesByEdge(BoundedGraph(SNAPSHOT), Name(k), Name(Target(m)), Name(16));
    }
  }

  lemma ReachesByEdge(graph: Adjacency, source: Node, middle: Node, target: Node)
    requires middle in Targets(graph, source) && Reaches(graph, middle, target)
    ensures Reaches(graph, source, target)
  {
    var walk :| WalkFromTo(graph, walk, middle, target);
    PrependToWalk(graph, source, walk);
    assert WalkFromTo(graph, [source] + walk, source, target);
  }

  /** A larger graph reaches at least as much. */
  lemma ReachesInLarger(few: set<Edge>, many: set<Edge>, source: Node, target: Node)
    requires few <= many && Reaches(AdjacencyOf(SNAPSHOT, many), source, target)
    ensures Reaches(AdjacencyOf(SNAPSHOT, few), source, target)
  {
    var walk :| WalkFromTo(AdjacencyOf(SNAPSHOT, many), walk, source, target);
    forall i | 0 < i < |walk| ensures walk[i] in Targets(AdjacencyOf(SNAPSHOT, few), walk[i - 1]) {
      assert walk[i] in Targets(AdjacencyOf(SNAPSHOT, many), walk[i - 1]);
      var e :| e in EdgesWithout(SNAPSHOT.edges, many) && e.source == walk[i - 1] && e.target == walk[i];
      assert e in EdgesWithout(SNAPSHOT.edges, few);
    }
    assert WalkFromTo(AdjacencyOf(SNAPSHOT, few), walk, source, target);
  }

  lemma EverythingIsOnAWay()
    ensures Obeys(SNAPSHOT, ReachableFromStart) && Obeys(SNAPSHOT, ReachesEnd)
  {
    Boundaries();
    forall id | id in Ids(SNAPSHOT)
      ensures Reaches(Graph(SNAPSHOT), Name(0), id) && Reaches(Graph(SNAPSHOT), id, Name(16))
    {
      var n :| n in SNAPSHOT.nodes && n.id == id;
      var k := NodeOf(n);
      ReachedFromStart(k);
      ReachesTheEnd(k);
      ReachesInLarger({}, LimitedRoutes(SNAPSHOT), Name(0), id);
      ReachesInLarger({}, LimitedRoutes(SNAPSHOT), id, Name(16));
    }
  }

  /** The start leads to the guardrail only. */
  lemma GuardrailFollowsStart(b: Node)
    requires b in Targets(Graph(SNAPSHOT), Name(0))
    ensures b == Name(1)
  {
    var e :| e in EdgesWithout(SNAPSHOT.edges, {}) && e.source == Name(0) && e.target == b;
    var m := EdgeOf(e);
    EdgesUsePorts(m);
    EqualNamesMeanEqualPlaces(Source(m), 0);
  }

  lemma StartIsGuarded()
    ensures Obeys(SNAPSHOT, GuardrailOnEveryPath)
  {
    Boundaries();
    NamesAreDistinct(0);
    NamesAreDistinct(16);
    NodeIsThere(1);
    assert NodeAt(1).kind == Guardrail && Name(1) in IdsOfType(SNAPSHOT, Guardrail);
    forall walk | WalkFromTo(Graph(SNAPSHOT), walk, Name(0), Name(16)) ensures VisitsGuardrail(SNAPSHOT, walk) {
      assert |walk| >= 2;
      GuardrailFollowsStart(walk[1]);
    }
  }

  // --- loops ---

  /** Unlimited edges lead on: nodes that pass are reached from each other in order. */
  lemma LoopReturns(i: nat)
    requires i < 3
    ensures LimitRepeats(SNAPSHOT, LimitAt(i).route)
  {
    var route := LimitAt(i).route;
    var limited := if i == 0 then RETRY else if i == 1 then 13 else 19;
    var from, to := Target(limited), Source(limited);
    ReachesForward(from, to);
    assert SNAPSHOT.limits[i] == LimitAt(i);
    assert {route} <= LimitedRoutes(SNAPSHOT);
    ReachesInLarger({route}, LimitedRoutes(SNAPSHOT), Name(from), Name(to));
  }

  lemma ReachesForward(from: nat, to: nat)
    requires (from, to) in {(4, 6), (2, 8), (12, 14)}
    ensures Reaches(BoundedGraph(SNAPSHOT), Name(from), Name(to))
  {
    var graph := BoundedGraph(SNAPSHOT);
    ReachesItself(graph, Name(to));
    if to == 6 {
      Back(8, 6);
      Back(6, 6);
    } else if to == 8 {
      Back(11, 8);
      Back(7, 8);
      Back(6, 8);
      Back(5, 8);
      Back(3, 8);
    } else {
      Back(18, 14);
      Back(17, 14);
    }
  }

  /** An unlimited edge extends a way backwards. */
  lemma Back(m: nat, to: nat)
    requires m < EDGES && !IsLimited(m) && Reaches(BoundedGraph(SNAPSHOT), Name(Target(m)), Name(to))
    ensures Reaches(BoundedGraph(SNAPSHOT), Name(Source(m)), Name(to))
  {
    LimitedRoutesArePlaces(m);
    EdgeIsDrawn(m, LimitedRoutes(SNAPSHOT));
    ReachesByEdge(BoundedGraph(SNAPSHOT), Name(Source(m)), Name(Target(m)), Name(to));
  }

  lemma LimitsAreLoops()
    ensures Obeys(SNAPSHOT, LimitsNameEdges) && Obeys(SNAPSHOT, LimitsRepeat)
  {
    forall limit | limit in SNAPSHOT.limits
      ensures limit.route in SNAPSHOT.edges && LimitRepeats(SNAPSHOT, limit.route)
    {
      var i := LimitOf(limit);
      EdgeIsThere(if i == 0 then RETRY else if i == 1 then 13 else 19);
      LoopReturns(i);
    }
  }

  /** Unlimited edges only lead on to later nodes. */
  lemma CyclesAreLimited()
    ensures Obeys(SNAPSHOT, CyclesLimited)
  {
    var graph := BoundedGraph(SNAPSHOT);
    var rank: map<Node, nat> := map id | id in Ids(SNAPSHOT) && Place(id) >= 0 :: Place(id);
    forall a, b | a in graph && b in graph[a] ensures a in rank && b in rank && rank[a] < rank[b] {
      var e :| e in EdgesWithout(SNAPSHOT.edges, LimitedRoutes(SNAPSHOT)) && e.source == a && e.target == b;
      var m := EdgeOf(e);
      EdgesUsePorts(m);
      LimitedRoutesArePlaces(m);
      NamesAreDistinct(Source(m));
      NamesAreDistinct(Target(m));
      NodeIsThere(Source(m));
      NodeIsThere(Target(m));
    }
    forall walk ensures !IsClosedWalk(graph, walk) {
      if IsClosedWalk(graph, walk) {
        RankGrows(graph, rank, walk);
      }
    }
  }

  // --- acceptance and what follows ---

  lemma CountsFit()
    ensures Obeys(SNAPSHOT, NodeBudget) && Obeys(SNAPSHOT, OneStart) && Obeys(SNAPSHOT, OneEnd)
  {
    Boundaries();
  }

  lemma RuleHolds(rule: Rule)
    ensures Obeys(SNAPSHOT, rule)
  {
    match rule
    case UniqueIds => IdentitiesAreUnique();
    case UniqueRoutes => IdentitiesAreUnique();
    case NodeBudget => CountsFit();
    case OneStart => CountsFit();
    case OneEnd => CountsFit();
    case EndHasNoPorts => PoliciesHold();
    case LockedGuardrails => PoliciesHold();
    case AgentBindings => PoliciesHold();
    case ConsistentEdges => EdgesAreInPlace();
    case PortsRouted => PortsAreRouted();
    case ReachableFromStart => EverythingIsOnAWay();
    case ReachesEnd => EverythingIsOnAWay();
    case GuardrailOnEveryPath => StartIsGuarded();
    case LimitsNameEdges => LimitsAreLoops();
    case LimitsRepeat => LimitsAreLoops();
    case CyclesLimited => CyclesAreLimited();
  }

  /** The default coding snapshot is accepted. */
  lemma IsAccepted()
    ensures GraphExecution.Accepted(SNAPSHOT)
  {
    IsDecoded();
    forall rule ensures Obeys(SNAPSHOT, rule) {
      RuleHolds(rule);
    }
  }

  /** The gate can be reached and its retry repeated along unlimited edges. */
  lemma GateRepeats()
    ensures ReworkBudget.CanRepeat(SNAPSHOT, NodeAt(GATE), LimitAt(0))
    ensures Reaches(BoundedGraph(SNAPSHOT), Name(0), Name(GATE))
  {
    NodeIsThere(GATE);
    EdgeIsThere(RETRY);
    assert SNAPSHOT.limits[0] == LimitAt(0);
    ReachedFromStart(GATE);
    ReachesForward(4, 6);
  }

  lemma OnlyRetryIsLimited(other: LoopLimit)
    requires other in SNAPSHOT.limits && other.route.source == Name(GATE)
    ensures other == LimitAt(0)
  {
    var i := LimitOf(other);
    NamesAreDistinct(6);
    NamesAreDistinct(8);
    NamesAreDistinct(14);
  }

  // --- its handlers and the rework budget ---

  /** The registered handlers of the coding nodes, with the gate's number of rounds left open. */
  function Handlers(maxReworkRounds: int): CodingRounds.Handlers {
    map["analyze" := StageHandler("coding.analyze"), "scope_approval" := ApprovalHandler,
        "code" := StageHandler("coding.code"), "review" := StageHandler("coding.review"),
        "rework_gate" := GateHandler(maxReworkRounds), "preview" := StageHandler("coding.preview"),
        "preview_approval" := ApprovalHandler, "pr_request" := StageHandler("coding.pr_request"),
        "github_approval" := ApprovalHandler, "pr_complete" := StageHandler("coding.pr_complete"),
        "deploy_request" := StageHandler("coding.deploy_request"), "deploy_approval" := ApprovalHandler,
        "dev_merge_check" := StageHandler("coding.dev_merge_check"), "deploy" := StageHandler("coding.deploy")]
  }

  lemma HandlersHaveOneGate(maxReworkRounds: int)
    ensures ReworkBudget.IsOnlyGate(Handlers(maxReworkRounds), Name(GATE))
    ensures ReworkBudget.BudgetOf(Handlers(maxReworkRounds), Name(GATE)) == maxReworkRounds
  {
  }

  /**
   The budget of the default rework gate is exact: with any number of rework rounds its gate always
   leaves by a declared port if and only if there are at most three, the number it is configured with.
   */
  lemma ReworkBudgetIsExact(rounds: int)
    requires rounds >= 1
    ensures HasOneStartAndEnd(SNAPSHOT) && ReworkBudget.IsOnlyGate(Handlers(rounds), Name(GATE))
    ensures ReworkBudget.AlwaysCompletes(SNAPSHOT, Handlers(rounds), Name(GATE)) <==> rounds <= MAX_REWORK_ROUNDS
  {
    IsAccepted();
    Boundaries();
    GateRepeats();
    HandlersHaveOneGate(rounds);
    forall other | other in SNAPSHOT.limits && other.route.source == Name(GATE) ensures other == LimitAt(0) {
      OnlyRetryIsLimited(other);
    }
    ReworkBudget.BudgetIsExact(SNAPSHOT, Handlers(rounds), NodeAt(GATE), LimitAt(0));
  }

  /** With a fourth round, a run of this snapshot's own handlers fails its gate by the loop bound. */
  lemma FourthRoundTrips() returns (replies: seq<GraphExecution.HandlerReply>)
    ensures HasOneStartAndEnd(SNAPSHOT) && ReworkBudget.IsOnlyGate(Handlers(MAX_REWORK_ROUNDS + 1), Name(GATE))
    ensures ReworkBudget.FailsByBound(SNAPSHOT, Handlers(MAX_REWORK_ROUNDS + 1), Name(GATE), replies)
  {
    IsAccepted();
    Boundaries();
    GateRepeats();
    HandlersHaveOneGate(MAX_REWORK_ROUNDS + 1);
    GraphSteps.AcceptedIsRouted(SNAPSHOT);
    replies := ReworkBudget.LargerBudgetTrips(SNAPSHOT, Handlers(MAX_REWORK_ROUNDS + 1), NodeAt(GATE), LimitAt(0));
  }
}
