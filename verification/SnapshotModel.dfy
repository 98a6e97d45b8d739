/**
 The versioned profile snapshot: a directed multigraph whose edges carry result ports, with
 iteration limits on some edges, and what it means for a snapshot to be admissible.
 */
module SnapshotModel {
  import opened DirectedGraph

  datatype NodeType = Start | Agent | Tool | Approval | Check | Guardrail | End

  /** `locked` tells whether the node's configuration locks it. */
  datatype SnapshotNode = SnapshotNode(id: Node, kind: NodeType, ports: seq<string>, locked: bool)

  /** An edge is also the route it offers: leaving `source` by `port` leads to `target`. */
  datatype Edge = Edge(source: Node, port: string, target: Node)

  datatype LoopLimit = LoopLimit(route: Edge, maxIterations: nat)

  datatype Snapshot = Snapshot(
    nodes: seq<SnapshotNode>, edges: seq<Edge>, maxNodes: nat, limits: seq<LoopLimit>, modelBindings: set<Node>)

  /** The rules a snapshot is checked against, in the order they are checked. */
  datatype Rule =
    | UniqueIds | UniqueRoutes | NodeBudget | OneStart | OneEnd | EndHasNoPorts | LockedGuardrails | AgentBindings
    | ConsistentEdges | PortsRouted | ReachableFromStart | ReachesEnd | GuardrailOnEveryPath
    | LimitsNameEdges | LimitsRepeat | CyclesLimited

  function Rank(rule: Rule): nat {
    match rule
    case UniqueIds => 0
    case UniqueRoutes => 1
    case NodeBudget => 2
    case OneStart => 3
    case OneEnd => 4
    case EndHasNoPorts => 5
    case LockedGuardrails => 6
    case AgentBindings => 7
    case ConsistentEdges => 8
    case PortsRouted => 9
    case ReachableFromStart => 10
    case ReachesEnd => 11
    case GuardrailOnEveryPath => 12
    case LimitsNameEdges => 13
    case LimitsRepeat => 14
    case CyclesLimited => 15
  }

  /** The nodes of one type, in order. */
  function OfType(nodes: seq<SnapshotNode>, kind: NodeType): (found: seq<SnapshotNode>)
    ensures forall n :: n in found <==> n in nodes && n.kind == kind
  {
    if nodes == [] then []
    else
      assert nodes == [nodes[0]] + nodes[1..];
      (if nodes[0].kind == kind then [nodes[0]] else []) + OfType(nodes[1..], kind)
  }

  function Ids(s: Snapshot): set<Node> {
    set n | n in s.nodes :: n.id
  }

  function IdsOfType(s: Snapshot, kind: NodeType): set<Node> {
    set n | n in s.nodes && n.kind == kind :: n.id
  }

  function StartId(s: Snapshot): Node
    requires |OfType(s.nodes, Start)| == 1
  {
    OfType(s.nodes, Start)[0].id
  }

  function EndId(s: Snapshot): Node
    requires |OfType(s.nodes, End)| == 1
  {
    OfType(s.nodes, End)[0].id
  }

  ghost predicate Declares(s: Snapshot, id: Node, port: string) {
    exists n :: n in s.nodes && n.id == id && port in n.ports
  }

  /** The graph that a set of edges draws on a set of nodes. */
  ghost function EdgesGraph(ids: set<Node>, edges: set<Edge>): Adjacency {
    map id | id in ids :: set e | e in edges && e.source == id :: e.target
  }

  ghost function EdgesWithout(edges: seq<Edge>, excluded: set<Edge>): set<Edge> {
    set e | e in edges && e !in excluded
  }

  /** The graph that is left when some routes are taken out. */
  ghost function AdjacencyOf(s: Snapshot, excluded: set<Edge>): Adjacency {
    EdgesGraph(Ids(s), EdgesWithout(s.edges, excluded))
  }

  ghost function Graph(s: Snapshot): Adjacency {
    AdjacencyOf(s, {})
  }

  function LimitedRoutes(s: Snapshot): set<Edge> {
    set limit | limit in s.limits :: limit.route
  }

  /** The graph of the unlimited edges. */
  ghost function BoundedGraph(s: Snapshot): Adjacency {
    AdjacencyOf(s, LimitedRoutes(s))
  }

  ghost predicate EdgeIsConsistent(s: Snapshot, start: Node, end: Node, e: Edge) {
    e.source in Ids(s) && e.target in Ids(s) && e.target != start && e.source != end && Declares(s, e.source, e.port)
  }

  ghost predicate HasOneStartAndEnd(s: Snapshot) {
    |OfType(s.nodes, Start)| == 1 && |OfType(s.nodes, End)| == 1
  }

  ghost predicate EdgesAreConsistent(s: Snapshot, start: Node, end: Node) {
    forall e | e in s.edges :: EdgeIsConsistent(s, start, end, e)
  }

  ghost predicate EveryPortIsRouted(s: Snapshot) {
    forall n, port | n in s.nodes && port in n.ports :: exists e :: e in s.edges && e.source == n.id && e.port == port
  }

  ghost predicate AllReachableFrom(s: Snapshot, start: Node) {
    forall id | id in Ids(s) :: Reaches(Graph(s), start, id)
  }

  ghost predicate AllReach(s: Snapshot, end: Node) {
    forall id | id in Ids(s) :: Reaches(Graph(s), id, end)
  }

  ghost predicate GuardedBetween(s: Snapshot, start: Node, end: Node) {
    forall walk | WalkFromTo(Graph(s), walk, start, end) :: VisitsGuardrail(s, walk)
  }

  /** What each rule demands, stated on the graph itself. */
  ghost predicate Obeys(s: Snapshot, rule: Rule) {
    match rule
    case UniqueIds => forall i, j | 0 <= i < j < |s.nodes| :: s.nodes[i].id != s.nodes[j].id
    case UniqueRoutes =>
      forall i, j | 0 <= i < j < |s.edges| :: (s.edges[i].source, s.edges[i].port) != (s.edges[j].source, s.edges[j].port)
    case NodeBudget => |s.nodes| <= s.maxNodes
    case OneStart => |OfType(s.nodes, Start)| == 1
    case OneEnd => |OfType(s.nodes, End)| == 1
    case EndHasNoPorts => forall n | n in s.nodes && n.kind == End :: n.ports == []
    case LockedGuardrails =>
      (exists n :: n in s.nodes && n.kind == Guardrail) && forall n | n in s.nodes && n.kind == Guardrail :: n.locked
    case AgentBindings => s.modelBindings == IdsOfType(s, Agent)
    case ConsistentEdges => HasOneStartAndEnd(s) && EdgesAreConsistent(s, StartId(s), EndId(s))
    case PortsRouted => EveryPortIsRouted(s)
    case ReachableFromStart => HasOneStartAndEnd(s) && AllReachableFrom(s, StartId(s))
    case ReachesEnd => HasOneStartAndEnd(s) && AllReach(s, EndId(s))
    case GuardrailOnEveryPath => HasOneStartAndEnd(s) && GuardedBetween(s, StartId(s), EndId(s))
    case LimitsNameEdges => forall limit | limit in s.limits :: limit.route in s.edges
    case LimitsRepeat => forall limit | limit in s.limits :: LimitRepeats(s, limit.route)
    case CyclesLimited => !HasClosedWalk(BoundedGraph(s))
  }

  ghost predicate VisitsGuardrail(s: Snapshot, walk: seq<Node>) {
    exists i :: 0 <= i < |walk| && walk[i] in IdsOfType(s, Guardrail)
  }

  /** The route's target leads back to its source without using the route. */
  ghost predicate LimitRepeats(s: Snapshot, route: Edge) {
    route.source == route.target || Reaches(AdjacencyOf(s, {route}), route.target, route.source)
  }

  ghost predicate Admissible(s: Snapshot) {
    forall rule :: Obeys(s, rule)
  }

  /** What decoding a snapshot already guarantees before it is validated. */
  ghost predicate Decoded(s: Snapshot) {
    && s.nodes != []
    && (forall n | n in s.nodes :: ':' !in n.id && Distinct(n.ports) && forall port | port in n.ports :: ':' !in port)
    && (forall e | e in s.edges :: ':' !in e.source && ':' !in e.port && ':' !in e.target)
    && (forall i, j | 0 <= i < j < |s.limits| :: s.limits[i].route != s.limits[j].route)
    && (forall limit | limit in s.limits ::
          limit.maxIterations >= 1 && ':' !in limit.route.source && ':' !in limit.route.port && ':' !in limit.route.target)
  }
}
