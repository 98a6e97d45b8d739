/**
 What one node action does, told from the edges of an accepted snapshot and the reply of the node's
 handler alone: the run is that of a plain token on the graph, which leaves a node by the edge of the
 returned port while the edge's limit lasts, and ends at the end node.
 */
module GraphSteps {
  import opened Wrappers
  import opened DirectedGraph
  import opened SnapshotModel
  import opened GraphExecution
  import opened GraphBound
  import opened GraphRuns

  // --- the builder's maps ---

  lemma {:induction false} LimitMapOrigin(limits: seq<LoopLimit>, key: string) returns (limit: LoopLimit)
    requires key in LimitMap(limits)
    ensures limit in limits && RouteKey(limit.route) == key
    decreases |limits|
  {
    var front := limits[..|limits| - 1];
    limit := limits[|limits| - 1];
    if RouteKey(limit.route) != key {
      limit := LimitMapOrigin(front, key);
    }
  }

  lemma NodeIsNamed(s: Snapshot, node: SnapshotNode)
    requires Obeys(s, UniqueIds) && node in s.nodes
    ensures NodeNamed(s.nodes, node.id) == Some(node)
  {
    NodeNamedFinds(s.nodes, node.id);
    OneKindPerId(s, NodeNamed(s.nodes, node.id).value, node);
  }

  // --- taking one edge ---

  /** The edge's source declares its port, and the builder routes that port along the edge. */
  ghost predicate EdgeResolves(s: Snapshot, e: Edge) {
    var named := NodeNamed(s.nodes, e.source);
    && named.Some? && named.value.id == e.source && named.value.kind != End && e.port in named.value.ports
    && (e.source, e.port) in RouteMap(s.edges) && RouteMap(s.edges)[(e.source, e.port)] == e.target
  }

  ghost predicate Routed(s: Snapshot) {
    && LimitsResolve(s)
    && forall e {:trigger EdgeResolves(s, e)} | e in s.edges :: EdgeResolves(s, e)
  }

  lemma AcceptedEdgeResolves(s: Snapshot, e: Edge)
    requires Obeys(s, UniqueIds) && Obeys(s, UniqueRoutes) && Obeys(s, EndHasNoPorts) && Obeys(s, ConsistentEdges)
    requires e in s.edges
    ensures EdgeResolves(s, e)
  {
    assert EdgeIsConsistent(s, StartId(s), EndId(s), e);
    var n :| n in s.nodes && n.id == e.source && e.port in n.ports;
    NodeIsNamed(s, n);
    RouteMapFinds(s.edges, e);
  }

  lemma AcceptedIsRouted(s: Snapshot)
    requires Accepted(s)
    ensures Routed(s)
  {
    AcceptedLimitsResolve(s);
    assert Obeys(s, UniqueIds) && Obeys(s, UniqueRoutes) && Obeys(s, EndHasNoPorts) && Obeys(s, ConsistentEdges);
    forall e | e in s.edges ensures EdgeResolves(s, e) {
      AcceptedEdgeResolves(s, e);
    }
  }

  /** The checkpoint's own channels are in order. */
  ghost predicate Healthy(s: Snapshot, cp: Checkpoint) {
    NextSequence(cp.values.sequence).Some? && CountsAreValid(StoredCounts(cp.values), LimitMap(s.limits))
  }

  lemma CountingStaysValid(counts: Counts, limits: Counts, key: string)
    requires CountsAreValid(counts, limits) && CountTraversal(counts, limits, key).Ok?
    ensures CountsAreValid(CountTraversal(counts, limits, key).value, limits)
  {
  }

  lemma ActionTakesEdge(s: Snapshot, node: SnapshotNode, e: Edge, st: GraphState, updates: Context)
    requires EdgeResolves(s, e) && NodeNamed(s.nodes, e.source) == Some(node)
    requires NextSequence(st.sequence).Some? && CountsAreValid(StoredCounts(st), LimitMap(s.limits))
    ensures var counted := CountTraversal(StoredCounts(st), LimitMap(s.limits), RouteKey(e));
      ActionOutcome(s, node, Returned(Some(e.port), updates), st) ==
      match counted
      case Err(failure) => Err(failure)
      case Ok(counts) =>
        Ok(GraphState(
          st.context + updates, Some(counts), Some(node.id), Some(e.port), NextSequence(st.sequence)))
  {
    assert Edge(node.id, e.port, RouteMap(s.edges)[(node.id, e.port)]) == e;
  }

  lemma RoutingFollowsEdge(s: Snapshot, node: SnapshotNode, e: Edge, st: GraphState)
    requires EdgeResolves(s, e) && NodeNamed(s.nodes, e.source) == Some(node)
    requires st.lastNode == Some(node.id) && st.lastPort == Some(e.port)
    ensures NextNode(s, node, st) == Ok(Some(e.target))
  {
    assert e.port in PortTargets(s, node) && PortTargets(s, node)[e.port] == e.target;
    if |node.ports| == 1 {
      assert node.ports[0] == e.port;
    }
  }

  /** A node that returns the port of one of its edges takes that edge, unless its limit is used up. */
  lemma EdgeTaken(s: Snapshot, e: Edge, cp: Checkpoint, updates: Context)
    requires EdgeResolves(s, e) && cp.next == Some(e.source) && Healthy(s, cp)
    ensures var attempt := Attempt(s, cp, Returned(Some(e.port), updates));
      var counted := CountTraversal(StoredCounts(cp.values), LimitMap(s.limits), RouteKey(e));
      && (counted.Err? ==> attempt == Err(LoopExceeded))
      && (counted.Ok? ==>
            && attempt.Ok? && attempt.value.next == Some(e.target) && Healthy(s, attempt.value)
            && attempt.value.values.context == cp.values.context + updates
            && StoredCounts(attempt.value.values) == counted.value)
  {
    var node := NodeNamed(s.nodes, e.source).value;
    var counted := CountTraversal(StoredCounts(cp.values), LimitMap(s.limits), RouteKey(e));
    ActionTakesEdge(s, node, e, cp.values, updates);
    if counted.Ok? {
      CountingStaysValid(StoredCounts(cp.values), LimitMap(s.limits), RouteKey(e));
      RoutingFollowsEdge(s, node, e, ActionOutcome(s, node, Returned(Some(e.port), updates), cp.values).value);
    }
  }

  lemma UnlimitedIsUncounted(s: Snapshot, e: Edge, counts: Counts)
    requires LimitsResolve(s) && e in s.edges && e !in LimitedRoutes(s)
    ensures CountTraversal(counts, LimitMap(s.limits), RouteKey(e)) == Ok(counts)
  {
    if RouteKey(e) in LimitMap(s.limits) {
      var _ := LimitMapOrigin(s.limits, RouteKey(e));
    }
  }

  // --- a token on the graph ---

  /** The edges it went along, what it carries, and whether it has ended. */
  datatype Token = Token(trail: seq<Edge>, context: Context, hasEnded: bool)

  ghost function Place(s: Snapshot, token: Token): Node
    requires HasOneStartAndEnd(s)
  {
    Position(StartId(s), token.trail)
  }

  /** The edge was used less often than any limit on it allows. */
  ghost predicate IsOpen(s: Snapshot, trail: seq<Edge>, e: Edge) {
    forall limit | limit in s.limits && limit.route == e :: Uses(trail, e) < limit.maxIterations
  }

  /** The edge by which a returned port leaves the token's node. */
  ghost predicate LeadsOn(s: Snapshot, token: Token, port: Option<string>, e: Edge)
    requires HasOneStartAndEnd(s)
  {
    e in s.edges && e.source == Place(s, token) && port == Some(e.port)
  }

  /** The node's handler returned something that the token can follow. */
  ghost predicate CanMove(s: Snapshot, token: Token, reply: HandlerReply)
    requires HasOneStartAndEnd(s)
  {
    && !token.hasEnded && reply.Returned?
    && if Place(s, token) == EndId(s) then reply.port == None
       else exists e :: LeadsOn(s, token, reply.port, e) && IsOpen(s, token.trail, e)
  }

  ghost function Moved(s: Snapshot, token: Token, reply: HandlerReply): Token
    requires HasOneStartAndEnd(s)
  {
    if !CanMove(s, token, reply) then token
    else if Place(s, token) == EndId(s) then Token(token.trail, token.context + reply.updates, true)
    else
      var e :| LeadsOn(s, token, reply.port, e) && IsOpen(s, token.trail, e);
      Token(token.trail + [e], token.context + reply.updates, false)
  }

  ghost function TokenAfter(s: Snapshot, context: Context, replies: seq<HandlerReply>): Token
    requires HasOneStartAndEnd(s)
  {
    if replies == [] then Token([], context, false)
    else Moved(s, TokenAfter(s, context, replies[..|replies| - 1]), replies[|replies| - 1])
  }

  /** The checkpoint says where the token is and what it carries. */
  ghost predicate Shows(s: Snapshot, cp: Checkpoint, token: Token)
    requires HasOneStartAndEnd(s)
  {
    && cp.next == (if token.hasEnded then None else Some(Place(s, token)))
    && cp.values.context == token.context
    && Completed(cp) == |token.trail| + (if token.hasEnded then 1 else 0)
    && forall limit | limit in s.limits ::
         CountOf(StoredCounts(cp.values), RouteKey(limit.route)) == Uses(token.trail, limit.route)
  }

  /** What the checkpoint holds is in order. */
  ghost predicate Follows(s: Snapshot, cp: Checkpoint, token: Token)
    requires HasOneStartAndEnd(s)
  {
    && Shows(s, cp, token) && Tracks(s, StartId(s), cp, token.trail)
  }

  lemma TrackedIsHealthy(s: Snapshot, start: Node, cp: Checkpoint, trail: seq<Edge>)
    requires Tracks(s, start, cp, trail)
    ensures Healthy(s, cp)
  {
  }

  /** Counting an edge fails exactly when the edge is used up. */
  lemma CountingIsExact(s: Snapshot, counts: Counts, trail: seq<Edge>, e: Edge)
    requires LimitsResolve(s) && CountsMatch(s, counts, trail) && e in s.edges
    ensures CountTraversal(counts, LimitMap(s.limits), RouteKey(e)).Ok? <==> IsOpen(s, trail, e)
  {
    if RouteKey(e) in LimitMap(s.limits) {
      var limit := LimitMapOrigin(s.limits, RouteKey(e));
      assert limit.route == e;
    }
  }

  // --- one action ---

  lemma PlaceIsNode(s: Snapshot, trail: seq<Edge>) returns (node: SnapshotNode)
    requires Accepted(s) && HasOneStartAndEnd(s) && IsTrail(s.edges, StartId(s), trail)
    ensures node in s.nodes && NodeNamed(s.nodes, Position(StartId(s), trail)) == Some(node)
    ensures node.id == Position(StartId(s), trail) && (node.kind == End <==> node.id == EndId(s))
  {
    AcceptedIsBounded(s);
    StopIsNode(s, StartId(s), trail, |trail|);
    NodeNamedFinds(s.nodes, Position(StartId(s), trail));
    node := NodeNamed(s.nodes, Position(StartId(s), trail)).value;
    EndIsAlone(s, node);
  }

  lemma EndIsAlone(s: Snapshot, node: SnapshotNode)
    requires Admissible(s) && HasOneStartAndEnd(s) && node in s.nodes
    ensures node.kind == End <==> node.id == EndId(s)
  {
    var end := OfType(s.nodes, End)[0];
    assert end in OfType(s.nodes, End);
    assert Obeys(s, UniqueIds);
    if node.kind == End {
      assert node in OfType(s.nodes, End);
    } else if node.id == end.id {
      OneKindPerId(s, node, end);
    }
  }

  /** The declared ports are those that edges leave by. */
  lemma PortHasEdge(s: Snapshot, node: SnapshotNode, port: string)
    requires Admissible(s) && node in s.nodes
    ensures port in node.ports <==> exists e :: e in s.edges && e.source == node.id && e.port == port
  {
    assert Obeys(s, PortsRouted) && Obeys(s, ConsistentEdges) && Obeys(s, UniqueIds);
    if e :| e in s.edges && e.source == node.id && e.port == port {
      assert EdgeIsConsistent(s, StartId(s), EndId(s), e);
      var n :| n in s.nodes && n.id == e.source && e.port in n.ports;
      OneKindPerId(s, n, node);
    }
  }

  function EndCause(reply: HandlerReply): Failure {
    if reply.Raised? then HandlerRaised
    else if reply.Interrupted? then GraphExecution.WaitingApproval
    else EndReturnedPort
  }

  /** The end node's action: it ends the run when its handler returns no port. */
  lemma EndAction(s: Snapshot, cp: Checkpoint, token: Token, reply: HandlerReply)
    requires Accepted(s) && HasOneStartAndEnd(s) && Follows(s, cp, token) && !token.hasEnded
    requires Place(s, token) == EndId(s)
    ensures var attempt := Attempt(s, cp, reply);
      && (attempt.Ok? <==> reply.Returned? && reply.port == None)
      && (attempt.Ok? ==> Follows(s, attempt.value, Token(token.trail, token.context + reply.updates, true)))
      && (attempt.Err? ==> attempt.error == EndCause(reply))
  {
    var node := PlaceIsNode(s, token.trail);
    TrackedIsHealthy(s, StartId(s), cp, token.trail);
  }

  /** A node that returns the port of an edge: the token goes along it as long as the edge is open. */
  lemma EdgeAction(s: Snapshot, cp: Checkpoint, token: Token, reply: HandlerReply, e: Edge)
    requires Accepted(s) && HasOneStartAndEnd(s) && Follows(s, cp, token) && !token.hasEnded
    requires reply.Returned? && LeadsOn(s, token, reply.port, e)
    ensures var attempt := Attempt(s, cp, reply);
      && (attempt.Ok? <==> IsOpen(s, token.trail, e))
      && (attempt.Ok? ==> Follows(s, attempt.value, Token(token.trail + [e], token.context + reply.updates, false)))
      && (attempt.Err? ==> attempt.error == LoopExceeded)
  {
    AcceptedIsRouted(s);
    TrackedIsHealthy(s, StartId(s), cp, token.trail);
    assert EdgeResolves(s, e);
    EdgeTaken(s, e, cp, reply.updates);
    CountingIsExact(s, StoredCounts(cp.values), token.trail, e);
    if Attempt(s, cp, reply).Ok? {
      EdgeIsFollowed(s, cp, token, reply, e);
    }
  }

  lemma EdgeIsFollowed(s: Snapshot, cp: Checkpoint, token: Token, reply: HandlerReply, e: Edge)
    requires Accepted(s) && HasOneStartAndEnd(s) && Follows(s, cp, token) && !token.hasEnded
    requires reply.Returned? && LeadsOn(s, token, reply.port, e) && Attempt(s, cp, reply).Ok?
    requires var after := Attempt(s, cp, reply).value;
      && after.next == Some(e.target) && after.values.context == cp.values.context + reply.updates
      && CountTraversal(StoredCounts(cp.values), LimitMap(s.limits), RouteKey(e)) == Ok(StoredCounts(after.values))
    ensures Follows(s, Attempt(s, cp, reply).value, Token(token.trail + [e], token.context + reply.updates, false))
  {
    var after := Attempt(s, cp, reply).value;
    AcceptedLimitsResolve(s);
    CountsStayMatched(s, StoredCounts(cp.values), token.trail, e);
    TrailExtends(s.edges, StartId(s), token.trail, e);
    CompletionCounts(s, cp, reply);
    assert after.values.loopCounts.Some?;
  }

  /** Any other reply fails, and says why. */
  lemma OtherAction(s: Snapshot, cp: Checkpoint, token: Token, reply: HandlerReply)
    requires Accepted(s) && HasOneStartAndEnd(s) && Follows(s, cp, token) && !token.hasEnded
    requires Place(s, token) != EndId(s)
    requires !(reply.Returned? && exists e :: LeadsOn(s, token, reply.port, e))
    ensures Attempt(s, cp, reply) == Err(
      if reply.Raised? then HandlerRaised else if reply.Interrupted? then GraphExecution.WaitingApproval
      else UndeclaredPort)
  {
    var node := PlaceIsNode(s, token.trail);
    TrackedIsHealthy(s, StartId(s), cp, token.trail);
    if reply.Returned? && reply.port.Some? && reply.port.value in node.ports {
      PortHasEdge(s, node, reply.port.value);
      var e :| e in s.edges && e.source == node.id && e.port == reply.port.value;
      assert LeadsOn(s, token, reply.port, e);
    }
  }

  // --- the whole run ---

  /** Why the node's action fails, when the token cannot move. */
  ghost function Cause(s: Snapshot, token: Token, reply: HandlerReply): Failure
    requires HasOneStartAndEnd(s)
  {
    if reply.Raised? then HandlerRaised
    else if reply.Interrupted? then GraphExecution.WaitingApproval
    else if Place(s, token) == EndId(s) then EndReturnedPort
    else if exists e :: LeadsOn(s, token, reply.port, e) then LoopExceeded
    else UndeclaredPort
  }

  lemma OneEdgePerPort(s: Snapshot, token: Token, port: Option<string>, e: Edge, f: Edge)
    requires Admissible(s) && HasOneStartAndEnd(s) && LeadsOn(s, token, port, e) && LeadsOn(s, token, port, f)
    ensures e == f
  {
    assert Obeys(s, UniqueRoutes);
    var i :| 0 <= i < |s.edges| && s.edges[i] == e;
    var j :| 0 <= j < |s.edges| && s.edges[j] == f;
    assert (s.edges[i].source, s.edges[i].port) == (s.edges[j].source, s.edges[j].port);
  }

  lemma TokenMoves(s: Snapshot, cp: Checkpoint, token: Token, reply: HandlerReply)
    requires Accepted(s) && HasOneStartAndEnd(s) && Follows(s, cp, token) && !token.hasEnded
    ensures var attempt := Attempt(s, cp, reply);
      && (attempt.Ok? <==> CanMove(s, token, reply))
      && (attempt.Ok? ==> Follows(s, attempt.value, Moved(s, token, reply)))
      && (attempt.Err? ==> attempt.error == Cause(s, token, reply))
  {
    if Place(s, token) == EndId(s) {
      EndAction(s, cp, token, reply);
    } else if reply.Returned? && exists e :: LeadsOn(s, token, reply.port, e) {
      var e :| LeadsOn(s, token, reply.port, e);
      forall f | LeadsOn(s, token, reply.port, f) ensures f == e {
        OneEdgePerPort(s, token, reply.port, e, f);
      }
      EdgeAction(s, cp, token, reply, e);
    } else {
      OtherAction(s, cp, token, reply);
    }
  }

  lemma {:induction false} RunFollows(s: Snapshot, context: Context, replies: seq<HandlerReply>)
    requires Accepted(s) && HasOneStartAndEnd(s)
    ensures Follows(s, Execute(s, InitialCheckpoint(s, context), replies), TokenAfter(s, context, replies))
    decreases |replies|
  {
    if replies != [] {
      var front, reply := replies[..|replies| - 1], replies[|replies| - 1];
      var cp, token := Execute(s, InitialCheckpoint(s, context), front), TokenAfter(s, context, front);
      RunFollows(s, context, front);
      if !token.hasEnded {
        TokenMoves(s, cp, token, reply);
      }
    }
  }

  /** Every run of an accepted snapshot is that of a token on its graph. */
  lemma RunIsToken(s: Snapshot, context: Context, replies: seq<HandlerReply>)
    requires Accepted(s) && HasOneStartAndEnd(s)
    ensures Shows(s, Execute(s, InitialCheckpoint(s, context), replies), TokenAfter(s, context, replies))
  {
    RunFollows(s, context, replies);
  }

  /**
   A pending action completes exactly when its handler returned something that the token can follow,
   and otherwise fails for what the reply, the node and the limits say.
   */
  lemma ActionIsExact(s: Snapshot, context: Context, replies: seq<HandlerReply>, reply: HandlerReply)
    requires Accepted(s) && HasOneStartAndEnd(s)
    requires Execute(s, InitialCheckpoint(s, context), replies).next.Some?
    ensures var token := TokenAfter(s, context, replies);
      var attempt := Attempt(s, Execute(s, InitialCheckpoint(s, context), replies), reply);
      && (attempt.Ok? <==> CanMove(s, token, reply))
      && (attempt.Ok? ==> Shows(s, attempt.value, Moved(s, token, reply)))
      && (attempt.Err? ==> attempt.error == Cause(s, token, reply))
  {
    RunFollows(s, context, replies);
    TokenMoves(s, Execute(s, InitialCheckpoint(s, context), replies), TokenAfter(s, context, replies), reply);
  }
}
