/**
 Execution of a compiled snapshot graph: one node action with its loop counters, the routing
 between nodes, and the checkpoint that survives failures and interrupts.

 The engine is a small-step interface: a node's updates become visible atomically when its
 action completes; a failure or an interrupt leaves the last committed checkpoint, whose
 pending node runs again.
 */
module GraphExecution {
  import opened Wrappers
  import opened DirectedGraph
  import opened SnapshotModel
  import Identity

  type Counts = map<string, int>

  /** A context value: an object of integers, an object of texts and flags, or anything else. */
  datatype Value = Table(entries: map<string, int>) | Reference(handlerKey: string, deniedArea: bool) | Other(token: int)

  type Context = map<string, Value>

  /** The channels of the graph state that the builder itself reads and writes. */
  datatype GraphState = GraphState(
    context: Context, loopCounts: Option<Counts>, lastNode: Option<Node>, lastPort: Option<string>, sequence: Option<int>)

  /** What a handler does when its node runs. */
  datatype HandlerReply = Returned(port: Option<string>, updates: Context) | Raised | Interrupted

  datatype Failure =
    InvalidSequence | HandlerRaised | WaitingApproval | EndReturnedPort | UndeclaredPort | InvalidLoopState
    | MissingRoute | LoopExceeded | InvalidRouting

  function RouteKey(e: Edge): string {
    Identity.Joined([e.source, e.port, e.target])
  }

  /** The routes of the graph: a later edge with the same source and port wins. */
  function RouteMap(edges: seq<Edge>): map<(Node, string), Node> {
    if edges == [] then map[]
    else var last := edges[|edges| - 1];
      RouteMap(edges[..|edges| - 1])[(last.source, last.port) := last.target]
  }

  function LimitMap(limits: seq<LoopLimit>): Counts {
    if limits == [] then map[]
    else var last := limits[|limits| - 1];
      LimitMap(limits[..|limits| - 1])[RouteKey(last.route) := last.maxIterations]
  }

  function CountOf(counts: Counts, key: string): int {
    if key in counts then counts[key] else 0
  }

  function NextSequence(sequence: Option<int>): Option<int> {
    match sequence
    case None => Some(1)
    case Some(n) => if n < 1 then None else Some(n + 1)
  }

  /** Stored counters are usable when each names a limit and stays within it. */
  predicate CountsAreValid(counts: Counts, limits: Counts) {
    forall key | key in counts :: key in limits && 0 <= counts[key] <= limits[key]
  }

  /** Reads the stored counters back, refusing any that the limits do not allow. */
  method LoadCounts(stored: Option<Counts>, limits: Counts) returns (counts: Option<Counts>)
    ensures counts == LoadedCounts(stored, limits)
  {
    if stored == None {
      return Some(map[]);
    }
    var loaded: Counts := map[];
    var todo := stored.value.Keys;
    while todo != {}
      invariant todo <= stored.value.Keys && loaded.Keys == stored.value.Keys - todo
      invariant forall key | key in loaded :: loaded[key] == stored.value[key]
      invariant CountsAreValid(loaded, limits)
    {
      var key :| key in todo;
      var count := stored.value[key];
      if key !in limits || count < 0 || count > limits[key] {
        return None;
      }
      loaded, todo := loaded[key := count], todo - {key};
    }
    assert loaded == stored.value;
    counts := Some(loaded);
  }

  function LoadedCounts(stored: Option<Counts>, limits: Counts): Option<Counts> {
    match stored
    case None => Some(map[])
    case Some(counts) => if CountsAreValid(counts, limits) then Some(counts) else None
  }

  /** The counters after traversing a route, unless that exceeds its bound. */
  function CountTraversal(counts: Counts, limits: Counts, key: string): Result<Counts, Failure> {
    if key !in limits then Ok(counts)
    else if CountOf(counts, key) + 1 > limits[key] then Err(LoopExceeded)
    else Ok(counts[key := CountOf(counts, key) + 1])
  }

  /** What one action of a node makes of the state. */
  function ActionOutcome(s: Snapshot, node: SnapshotNode, reply: HandlerReply, st: GraphState)
    : Result<GraphState, Failure>
  {
    var sequence := NextSequence(st.sequence);
    if sequence == None then Err(InvalidSequence)
    else if reply.Raised? then Err(HandlerRaised)
    else if reply.Interrupted? then Err(WaitingApproval)
    else if node.kind == End && reply.port != None then Err(EndReturnedPort)
    else if node.kind != End && (reply.port == None || reply.port.value !in node.ports) then Err(UndeclaredPort)
    else
      var loaded := LoadedCounts(st.loopCounts, LimitMap(s.limits));
      if loaded == None then Err(InvalidLoopState)
      else
        match CountsAfter(s, node, reply.port, loaded.value)
        case Err(failure) => Err(failure)
        case Ok(counts) => Ok(GraphState(st.context + reply.updates, Some(counts), Some(node.id), reply.port, sequence))
  }

  function CountsAfter(s: Snapshot, node: SnapshotNode, port: Option<string>, counts: Counts): Result<Counts, Failure> {
    var routes := RouteMap(s.edges);
    if port == None then Ok(counts)
    else if (node.id, port.value) !in routes then Err(MissingRoute)
    else CountTraversal(counts, LimitMap(s.limits), RouteKey(Edge(node.id, port.value, routes[(node.id, port.value)])))
  }

  /** Runs one node action the way the builder wires it. */
  method RunNode(s: Snapshot, node: SnapshotNode, reply: HandlerReply, st: GraphState)
    returns (outcome: Result<GraphState, Failure>)
    ensures outcome == ActionOutcome(s, node, reply, st)
  {
    var sequence := NextSequence(st.sequence);
    if sequence == None {
      return Err(InvalidSequence);
    }
    if reply.Raised? {
      return Err(HandlerRaised);
    }
    if reply.Interrupted? {
      return Err(WaitingApproval);
    }
    if node.kind == End {
      if reply.port != None {
        return Err(EndReturnedPort);
      }
    } else if reply.port == None || reply.port.value !in node.ports {
      return Err(UndeclaredPort);
    }
    var limits := LimitMap(s.limits);
    var loaded := LoadCounts(st.loopCounts, limits);
    if loaded == None {
      return Err(InvalidLoopState);
    }
    var counts := loaded.value;
    if reply.port != None {
      var routes := RouteMap(s.edges);
      if (node.id, reply.port.value) !in routes {
        return Err(MissingRoute);
      }
      var key := RouteKey(Edge(node.id, reply.port.value, routes[(node.id, reply.port.value)]));
      if key in limits {
        var count := CountOf(counts, key) + 1;
        if count > limits[key] {
          return Err(LoopExceeded);
        }
        counts := counts[key := count];
      }
    }
    var context := st.context + reply.updates;
    outcome := Ok(GraphState(context, Some(counts), Some(node.id), reply.port, sequence));
  }

  // --- routing and checkpoints ---

  function PortTargets(s: Snapshot, node: SnapshotNode): map<string, Node> {
    map port | port in node.ports && (node.id, port) in RouteMap(s.edges) :: RouteMap(s.edges)[(node.id, port)]
  }

  /** Where the engine goes after a node: the end stops, one port is a plain edge, more ports ask the router. */
  function NextNode(s: Snapshot, node: SnapshotNode, st: GraphState): Result<Option<Node>, Failure> {
    if node.kind == End then Ok(None)
    else
      var targets := PortTargets(s, node);
      if |node.ports| == 1 && node.ports[0] in targets then Ok(Some(targets[node.ports[0]]))
      else if st.lastNode == Some(node.id) && st.lastPort.Some? && st.lastPort.value in targets
      then Ok(Some(targets[st.lastPort.value]))
      else Err(InvalidRouting)
  }

  /** The persisted graph position: the committed state and the node that runs next, if any. */
  datatype Checkpoint = Checkpoint(values: GraphState, next: Option<Node>)

  function InitialCheckpoint(s: Snapshot, context: Context): Checkpoint
    requires HasOneStartAndEnd(s)
  {
    Checkpoint(GraphState(context, None, None, None, None), Some(StartId(s)))
  }

  function NodeNamed(nodes: seq<SnapshotNode>, id: Node): Option<SnapshotNode> {
    if nodes == [] then None else if nodes[0].id == id then Some(nodes[0]) else NodeNamed(nodes[1..], id)
  }

  function Attempt(s: Snapshot, cp: Checkpoint, reply: HandlerReply): Result<Checkpoint, Failure> {
    if cp.next == None || NodeNamed(s.nodes, cp.next.value) == None then Err(InvalidRouting)
    else
      var node := NodeNamed(s.nodes, cp.next.value).value;
      match ActionOutcome(s, node, reply, cp.values)
      case Err(failure) => Err(failure)
      case Ok(values) =>
        match NextNode(s, node, values)
        case Err(failure) => Err(failure)
        case Ok(next) => Ok(Checkpoint(values, next))
  }

  /** One node action: commits when it completes, and otherwise leaves the checkpoint as it was. */
  function Step(s: Snapshot, cp: Checkpoint, reply: HandlerReply): Checkpoint {
    match Attempt(s, cp, reply)
    case Ok(after) => after
    case Err(_) => cp
  }

  /** A whole job: any replies of any handlers, through any failures, interrupts and redeliveries. */
  function Execute(s: Snapshot, cp: Checkpoint, replies: seq<HandlerReply>): Checkpoint {
    if replies == [] then cp
    else Step(s, Execute(s, cp, replies[..|replies| - 1]), replies[|replies| - 1])
  }

  /** The number of node actions completed so far: the monitoring sequence number. */
  function Completed(cp: Checkpoint): int {
    match cp.values.sequence
    case None => 0
    case Some(n) => n
  }

  function TotalIterations(limits: seq<LoopLimit>): nat {
    if limits == [] then 0
    else TotalIterations(limits[..|limits| - 1]) + limits[|limits| - 1].maxIterations
  }

  function StepBound(s: Snapshot): nat {
    |s.nodes| * (1 + TotalIterations(s.limits))
  }

  function RecursionLimit(s: Snapshot): nat {
    |s.nodes| * (1 + TotalIterations(s.limits)) + 1
  }

  // --- the trail of traversed edges ---

  /** Where a trail stands after so many of its edges. */
  ghost function Stop(start: Node, trail: seq<Edge>, k: nat): Node
    requires k <= |trail|
  {
    if k == 0 then start else trail[k - 1].target
  }

  ghost function Position(start: Node, trail: seq<Edge>): Node {
    Stop(start, trail, |trail|)
  }

  ghost predicate IsTrail(edges: seq<Edge>, start: Node, trail: seq<Edge>) {
    forall i {:trigger Stop(start, trail, i)} | 0 <= i < |trail| ::
      trail[i] in edges && trail[i].source == Stop(start, trail, i)
  }

  function Uses(trail: seq<Edge>, route: Edge): nat {
    if trail == [] then 0
    else Uses(trail[..|trail| - 1], route) + (if trail[|trail| - 1] == route then 1 else 0)
  }

  /** How often the trail traverses limited edges. */
  function LimitedUses(trail: seq<Edge>, limited: set<Edge>): nat {
    if trail == [] then 0
    else LimitedUses(trail[..|trail| - 1], limited) + (if trail[|trail| - 1] in limited then 1 else 0)
  }

  function UsesOfAll(trail: seq<Edge>, limits: seq<LoopLimit>): nat {
    if limits == [] then 0
    else UsesOfAll(trail, limits[..|limits| - 1]) + Uses(trail, limits[|limits| - 1].route)
  }

  /** The counters agree with the trail and respect every limit. */
  ghost predicate CountsMatch(s: Snapshot, counts: Counts, trail: seq<Edge>) {
    && CountsAreValid(counts, LimitMap(s.limits))
    && forall limit | limit in s.limits ::
         CountOf(counts, RouteKey(limit.route)) == Uses(trail, limit.route) <= limit.maxIterations
  }

  /** The checkpoint is what the trail of completed edges leads to. */
  ghost predicate Tracks(s: Snapshot, start: Node, cp: Checkpoint, trail: seq<Edge>) {
    && IsTrail(s.edges, start, trail)
    && (cp.values.sequence.Some? ==> cp.values.sequence.value >= 1)
    && ((cp.next == Some(Position(start, trail)) && Completed(cp) == |trail|)
        || (cp.next == None && Completed(cp) == |trail| + 1))
    && (cp.values.loopCounts == None ==> trail == [])
    && CountsMatch(s, StoredCounts(cp.values), trail)
  }

  function StoredCounts(st: GraphState): Counts {
    match st.loopCounts
    case None => map[]
    case Some(counts) => counts
  }

  /** A snapshot that came out of the decoder and passed validation. */
  ghost predicate Accepted(s: Snapshot) {
    Decoded(s) && Admissible(s)
  }
}
