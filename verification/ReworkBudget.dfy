/**
 The exact budget of a rework gate: when its retry edge can be taken again and again, the gate always
 leaves by a declared port if and only if its round budget fits the limit of that edge. For a larger
 budget the run that fails the gate is built from the walks to it.
 */
module ReworkBudget {
  import opened Wrappers
  import opened DirectedGraph
  import opened SnapshotModel
  import opened GraphExecution
  import opened GraphBound
  import opened GraphRuns
  import opened GraphSteps
  import opened CodingRounds
  import opened ReworkGate

  // --- putting runs together ---

  /** What was handled in the first of two runs is handled in both together. */
  lemma HandledInFirst(s: Snapshot, handlers: Handlers,
                       cp: Checkpoint, a: seq<HandlerReply>, b: seq<HandlerReply>, k: nat)
    requires k < |a| && IsHandledAt(s, handlers, cp, a, k)
    ensures IsHandledAt(s, handlers, cp, a + b, k)
  {
    var all := a + b;
    assert all[..k] == a[..k] && all[k] == a[k];
    if WasAsked(s, cp, a, k) {
      var j :| 0 <= j < k && a[j] == Interrupted && Execute(s, cp, a[..j]) == Execute(s, cp, a[..k]);
      assert all[..j] == a[..j] && all[j] == a[j];
    }
  }

  lemma HandledInSecond(s: Snapshot, handlers: Handlers,
                        cp: Checkpoint, a: seq<HandlerReply>, b: seq<HandlerReply>, i: nat)
    requires i < |b| && IsHandledAt(s, handlers, Execute(s, cp, a), b, i)
    ensures IsHandledAt(s, handlers, cp, a + b, |a| + i)
  {
    var all, between := a + b, Execute(s, cp, a);
    assert all[..|a| + i] == a + b[..i] && all[|a| + i] == b[i];
    ExecuteConcatenates(s, cp, a, b[..i]);
    if WasAsked(s, between, b, i) {
      var j :| 0 <= j < i && b[j] == Interrupted && Execute(s, between, b[..j]) == Execute(s, between, b[..i]);
      ExecuteConcatenates(s, cp, a, b[..j]);
      assert all[..|a| + j] == a + b[..j] && all[|a| + j] == b[j];
      assert WasAsked(s, cp, all, |a| + i);
    }
  }

  lemma HandledRunsConcatenate(s: Snapshot, handlers: Handlers,
                               cp: Checkpoint, a: seq<HandlerReply>, b: seq<HandlerReply>)
    requires IsHandledRun(s, handlers, cp, a) && IsHandledRun(s, handlers, Execute(s, cp, a), b)
    ensures IsHandledRun(s, handlers, cp, a + b)
    ensures Execute(s, cp, a + b) == Execute(s, Execute(s, cp, a), b)
  {
    ExecuteConcatenates(s, cp, a, b);
    forall k | 0 <= k < |a + b| ensures IsHandledAt(s, handlers, cp, a + b, k) {
      if k < |a| {
        HandledInFirst(s, handlers, cp, a, b, k);
      } else {
        HandledInSecond(s, handlers, cp, a, b, k - |a|);
      }
    }
  }

  predicate IsApproval(handlers: Handlers, id: Node) {
    id in handlers && handlers[id].ApprovalHandler?
  }

  lemma OneReply(s: Snapshot, handlers: Handlers, cp: Checkpoint, reply: HandlerReply)
    requires cp.next.Some? && MayReturn(handlers, cp.next.value, cp.values.context, reply)
    requires !IsApproval(handlers, cp.next.value)
    ensures IsHandledRun(s, handlers, cp, [reply])
    ensures Execute(s, cp, [reply]) == Step(s, cp, reply)
  {
    assert [reply][..0] == [];
    assert Execute(s, cp, []) == cp;
  }

  /** An approval interrupts, and returns when it is resumed. */
  lemma AskedReply(s: Snapshot, handlers: Handlers, cp: Checkpoint, reply: HandlerReply)
    requires cp.next.Some? && MayReturn(handlers, cp.next.value, cp.values.context, reply)
    ensures IsHandledRun(s, handlers, cp, [Interrupted, reply])
    ensures Execute(s, cp, [Interrupted, reply]) == Step(s, cp, reply)
  {
    var both := [Interrupted, reply];
    assert both[..0] == [] && both[..1] == [Interrupted] && [Interrupted][..0] == [];
    assert Execute(s, cp, []) == cp;
    assert Execute(s, cp, [Interrupted]) == cp;
    assert WasAsked(s, cp, both, 1);
    forall k | 0 <= k < |both| ensures IsHandledAt(s, handlers, cp, both, k) {
    }
  }

  // --- walking to the gate ---

  /** A walk along unlimited edges that arrives at the gate with its last node only. */
  ghost predicate Approaches(s: Snapshot, walk: seq<Node>, gate: Node) {
    && IsWalk(BoundedGraph(s), walk) && walk[|walk| - 1] == gate
    && forall i | 0 <= i < |walk| - 1 :: walk[i] != gate
  }

  lemma {:induction false} FirstArrival(s: Snapshot, walk: seq<Node>, gate: Node) returns (approach: seq<Node>)
    requires IsWalk(BoundedGraph(s), walk) && walk[|walk| - 1] == gate
    ensures Approaches(s, approach, gate) && approach[0] == walk[0]
    decreases |walk|
  {
    if i :| 0 <= i < |walk| - 1 && walk[i] == gate {
      SliceIsWalk(BoundedGraph(s), walk, 0, i + 1);
      approach := FirstArrival(s, walk[0..i + 1], gate);
    } else {
      approach := walk;
    }
  }

  /** The rounds are in order, and no stage reported a denied area. */
  ghost predicate Calm(context: Context) {
    StoredRounds(context).Some? && !RequiresDeniedArea(context)
  }

  function RoundOf(context: Context, id: Node): int
    requires StoredRounds(context).Some?
  {
    RoundIn(StoredRounds(context).value, id)
  }

  /** Nothing was counted in between, and the gate's round is the same. */
  ghost predicate LeavesGate(s: Snapshot, gate: Node, before: Checkpoint, after: Checkpoint) {
    && Healthy(s, after) && Calm(before.values.context) && Calm(after.values.context)
    && RoundOf(after.values.context, gate) == RoundOf(before.values.context, gate)
    && StoredCounts(after.values) == StoredCounts(before.values)
  }

  lemma HopEdge(s: Snapshot, a: Node, b: Node) returns (e: Edge)
    requires b in Targets(BoundedGraph(s), a)
    ensures e in s.edges && e !in LimitedRoutes(s) && e.source == a && e.target == b
  {
    e :| e in EdgesWithout(s.edges, LimitedRoutes(s)) && e.source == a && e.target == b;
  }

  /** No other node is handled by a gate, which chooses its port itself. */
  ghost predicate IsOnlyGate(handlers: Handlers, gate: Node) {
    && gate in handlers && handlers[gate].GateHandler?
    && forall id | id in handlers && id != gate :: !handlers[id].GateHandler?
  }

  /** What a node's handler returns to leave by a port. */
  function LeaveBy(handlers: Handlers, id: Node, context: Context, port: string): HandlerReply {
    if id !in handlers then Returned(Some(port), map[])
    else
      match handlers[id]
      case StageHandler(key) => StageReply(context, id, port, Reference(key, false))
      case _ => ApprovalReply(context, id, port)
  }

  lemma LeavingIsCalm(handlers: Handlers, gate: Node, id: Node, context: Context, port: string)
    requires IsOnlyGate(handlers, gate) && id != gate && Calm(context)
    ensures var reply := LeaveBy(handlers, id, context, port);
      && reply.Returned? && reply.port == Some(port) && MayReturn(handlers, id, context, reply)
      && Calm(context + reply.updates)
      && RoundOf(context + reply.updates, gate) == RoundOf(context, gate)
  {
  }

  /** One unlimited edge on the way to the gate. */
  lemma HopTaken(s: Snapshot, handlers: Handlers, a: Node, b: Node, gate: Node, cp: Checkpoint)
    returns (replies: seq<HandlerReply>)
    requires Routed(s) && b in Targets(BoundedGraph(s), a) && a != gate && IsOnlyGate(handlers, gate)
    requires cp.next == Some(a) && Healthy(s, cp) && Calm(cp.values.context)
    ensures IsHandledRun(s, handlers, cp, replies)
    ensures Execute(s, cp, replies).next == Some(b) && LeavesGate(s, gate, cp, Execute(s, cp, replies))
  {
    var e := HopEdge(s, a, b);
    var reply := LeaveBy(handlers, a, cp.values.context, e.port);
    LeavingIsCalm(handlers, gate, a, cp.values.context, e.port);
    UnlimitedIsUncounted(s, e, StoredCounts(cp.values));
    assert EdgeResolves(s, e);
    EdgeTaken(s, e, cp, reply.updates);
    if IsApproval(handlers, a) {
      AskedReply(s, handlers, cp, reply);
      replies := [Interrupted, reply];
    } else {
      OneReply(s, handlers, cp, reply);
      replies := [reply];
    }
  }

  lemma {:induction false} WalkToGate(s: Snapshot, handlers: Handlers, walk: seq<Node>, gate: Node, cp: Checkpoint)
    returns (replies: seq<HandlerReply>)
    requires Routed(s) && Approaches(s, walk, gate) && IsOnlyGate(handlers, gate)
    requires cp.next == Some(walk[0]) && Healthy(s, cp) && Calm(cp.values.context)
    ensures IsHandledRun(s, handlers, cp, replies)
    ensures Execute(s, cp, replies).next == Some(gate) && LeavesGate(s, gate, cp, Execute(s, cp, replies))
    decreases |walk|
  {
    if |walk| == 1 {
      replies := [];
    } else {
      var hop := HopTaken(s, handlers, walk[0], walk[1], gate, cp);
      var rest := walk[1..];
      SliceIsWalk(BoundedGraph(s), walk, 1, |walk|);
      assert walk[1..|walk|] == rest;
      var more := WalkToGate(s, handlers, rest, gate, Execute(s, cp, hop));
      HandledRunsConcatenate(s, handlers, cp, hop, more);
      replies := hop + more;
    }
  }

  // --- spending the limit ---

  /** The gate's retry edge and its limit: the edge is limited, and both walks to the gate avoid limits. */
  ghost predicate CanRepeat(s: Snapshot, gate: SnapshotNode, limit: LoopLimit) {
    && gate in s.nodes && limit in s.limits && limit.route in s.edges
    && limit.route.source == gate.id && limit.route.port == "retry"
    && Reaches(BoundedGraph(s), limit.route.target, gate.id)
  }

  /** The gate is pending after n executions, all of them retries. */
  ghost predicate Spent(s: Snapshot, gate: Node, limit: LoopLimit, n: nat, cp: Checkpoint) {
    && cp.next == Some(gate) && Healthy(s, cp) && Calm(cp.values.context)
    && CountOf(StoredCounts(cp.values), RouteKey(limit.route)) == n
    && RoundOf(cp.values.context, gate) == n + 1
  }

  /** Storing the advanced rounds moves the gate's round on and leaves the last result alone. */
  lemma RoundsAdvance(context: Context, gate: Node)
    requires Calm(context)
    ensures var after := context + RoundsUpdate(NextRounds(context, gate).value.1);
      Calm(after) && RoundOf(after, gate) == RoundOf(context, gate) + 1
  {
  }

  /** The gate's next retry fails exactly when its limit is used up. */
  lemma RetryCounted(s: Snapshot, gate: SnapshotNode, limit: LoopLimit, maxReworkRounds: int, n: nat, cp: Checkpoint)
    requires Routed(s) && CanRepeat(s, gate, limit) && Spent(s, gate.id, limit, n, cp) && n + 1 < maxReworkRounds
    requires n <= limit.maxIterations
    ensures var reply := GateReply(maxReworkRounds, cp.values.context, gate.id);
      var after := Step(s, cp, reply);
      && (n == limit.maxIterations ==> Attempt(s, cp, reply) == Err(LoopExceeded))
      && (n < limit.maxIterations ==>
            && after.next == Some(limit.route.target) && Healthy(s, after) && Calm(after.values.context)
            && CountOf(StoredCounts(after.values), RouteKey(limit.route)) == n + 1
            && RoundOf(after.values.context, gate.id) == n + 2)
  {
    assert EdgeResolves(s, limit.route);
    EdgeTaken(s, limit.route, cp, RoundsUpdate(NextRounds(cp.values.context, gate.id).value.1));
    RoundsAdvance(cp.values.context, gate.id);
  }

  /** The budget that the gate's handler is configured with. */
  function BudgetOf(handlers: Handlers, gate: Node): int
    requires gate in handlers && handlers[gate].GateHandler?
  {
    handlers[gate].maxReworkRounds
  }

  lemma {:induction false} SpendRetries(s: Snapshot, handlers: Handlers, gate: SnapshotNode, limit: LoopLimit,
                                        n: nat, start: Checkpoint, first: seq<HandlerReply>)
    returns (replies: seq<HandlerReply>)
    requires Routed(s) && CanRepeat(s, gate, limit) && IsOnlyGate(handlers, gate.id)
    requires n <= limit.maxIterations && n + 1 <= BudgetOf(handlers, gate.id)
    requires IsHandledRun(s, handlers, start, first) && Spent(s, gate.id, limit, 0, Execute(s, start, first))
    ensures IsHandledRun(s, handlers, start, replies) && Spent(s, gate.id, limit, n, Execute(s, start, replies))
    decreases n
  {
    if n == 0 {
      replies := first;
    } else {
      var before := SpendRetries(s, handlers, gate, limit, n - 1, start, first);
      var more := RetryRound(s, handlers, gate, limit, n - 1, Execute(s, start, before));
      HandledRunsConcatenate(s, handlers, start, before, more);
      replies := before + more;
    }
  }

  /** One retry and the walk back to the gate. */
  lemma RetryRound(s: Snapshot, handlers: Handlers, gate: SnapshotNode, limit: LoopLimit, n: nat, cp: Checkpoint)
    returns (replies: seq<HandlerReply>)
    requires Routed(s) && CanRepeat(s, gate, limit) && IsOnlyGate(handlers, gate.id)
    requires Spent(s, gate.id, limit, n, cp) && n < limit.maxIterations && n + 1 < BudgetOf(handlers, gate.id)
    ensures IsHandledRun(s, handlers, cp, replies) && Spent(s, gate.id, limit, n + 1, Execute(s, cp, replies))
  {
    var reply := GateReply(BudgetOf(handlers, gate.id), cp.values.context, gate.id);
    RetryCounted(s, gate, limit, BudgetOf(handlers, gate.id), n, cp);
    OneReply(s, handlers, cp, reply);
    var walk :| WalkFromTo(BoundedGraph(s), walk, limit.route.target, gate.id);
    var approach := FirstArrival(s, walk, gate.id);
    var more := WalkToGate(s, handlers, approach, gate.id, Step(s, cp, reply));
    HandledRunsConcatenate(s, handlers, cp, [reply], more);
    replies := [reply] + more;
  }

  /** A run of the registered handlers from the start ends with the loop bound failing the gate. */
  ghost predicate FailsByBound(s: Snapshot, handlers: Handlers, gate: Node, replies: seq<HandlerReply>)
    requires HasOneStartAndEnd(s) && gate in handlers && handlers[gate].GateHandler?
  {
    var start := InitialCheckpoint(s, map[]);
    var cp := Execute(s, start, replies);
    && IsHandledRun(s, handlers, start, replies)
    && cp.next == Some(gate)
    && Attempt(s, cp, GateReply(BudgetOf(handlers, gate), cp.values.context, gate)) == Err(LoopExceeded)
  }

  /** With a larger budget there is such a run. */
  lemma LargerBudgetTrips(s: Snapshot, handlers: Handlers, gate: SnapshotNode, limit: LoopLimit)
    returns (replies: seq<HandlerReply>)
    requires HasOneStartAndEnd(s) && Routed(s) && CanRepeat(s, gate, limit) && IsOnlyGate(handlers, gate.id)
    requires Reaches(BoundedGraph(s), StartId(s), gate.id)
    requires BudgetOf(handlers, gate.id) - 1 > limit.maxIterations
    ensures FailsByBound(s, handlers, gate.id, replies)
  {
    var start := InitialCheckpoint(s, map[]);
    var walk :| WalkFromTo(BoundedGraph(s), walk, StartId(s), gate.id);
    var approach := FirstArrival(s, walk, gate.id);
    var first := WalkToGate(s, handlers, approach, gate.id, start);
    replies := SpendRetries(s, handlers, gate, limit, limit.maxIterations, start, first);
    RetryCounted(s, gate, limit, BudgetOf(handlers, gate.id), limit.maxIterations, Execute(s, start, replies));
  }

  // --- the exact condition ---

  /** A run of the registered handlers in which the gate is about to decide. */
  ghost predicate IsGateTurn(s: Snapshot, handlers: Handlers, gate: Node, context: Context, replies: seq<HandlerReply>)
    requires HasOneStartAndEnd(s)
  {
    && STAGE_ROUNDS !in context
    && IsHandledRun(s, handlers, InitialCheckpoint(s, context), replies)
    && Execute(s, InitialCheckpoint(s, context), replies).next == Some(gate)
  }

  /** In every run of the registered handlers the gate's action completes. */
  ghost predicate AlwaysCompletes(s: Snapshot, handlers: Handlers, gate: Node)
    requires HasOneStartAndEnd(s) && gate in handlers && handlers[gate].GateHandler?
  {
    forall context, replies | IsGateTurn(s, handlers, gate, context, replies) ::
      var cp := Execute(s, InitialCheckpoint(s, context), replies);
      Attempt(s, cp, GateReply(BudgetOf(handlers, gate), cp.values.context, gate)).Ok?
  }

  lemma FittingBudgetCompletes(s: Snapshot, handlers: Handlers, gate: SnapshotNode)
    requires Accepted(s) && HasOneStartAndEnd(s) && gate.id in handlers && handlers[gate.id].GateHandler?
    requires BudgetFits(s, gate, BudgetOf(handlers, gate.id))
    ensures AlwaysCompletes(s, handlers, gate.id)
  {
    forall context, replies | IsGateTurn(s, handlers, gate.id, context, replies)
      ensures var cp := Execute(s, InitialCheckpoint(s, context), replies);
        Attempt(s, cp, GateReply(BudgetOf(handlers, gate.id), cp.values.context, gate.id)).Ok?
    {
      HandledRunIsCodingRun(s, handlers, InitialCheckpoint(s, context), replies);
      GateAlwaysCompletes(s, context, handlers.Keys, replies, gate, BudgetOf(handlers, gate.id));
    }
  }

  lemma LargerBudgetFails(s: Snapshot, handlers: Handlers, gate: SnapshotNode, limit: LoopLimit)
    requires HasOneStartAndEnd(s) && Routed(s) && CanRepeat(s, gate, limit) && IsOnlyGate(handlers, gate.id)
    requires Reaches(BoundedGraph(s), StartId(s), gate.id) && BudgetOf(handlers, gate.id) - 1 > limit.maxIterations
    ensures !AlwaysCompletes(s, handlers, gate.id)
  {
    var replies := LargerBudgetTrips(s, handlers, gate, limit);
    assert IsGateTurn(s, handlers, gate.id, map[], replies);
  }

  /**
   The budget is exact: in an accepted snapshot whose one gate has one limited edge, its retry, and can
   be reached from the start and from the retry's target along unlimited edges, the gate completes in
   every run of the registered handlers if and only if its budget of retries fits the limit.
   */
  lemma BudgetIsExact(s: Snapshot, handlers: Handlers, gate: SnapshotNode, limit: LoopLimit)
    requires Accepted(s) && HasOneStartAndEnd(s) && CanRepeat(s, gate, limit)
    requires IsOnlyGate(handlers, gate.id) && BudgetOf(handlers, gate.id) >= 1
    requires gate.kind != End && "retry" in gate.ports && "handover" in gate.ports
    requires forall other | other in s.limits && other.route.source == gate.id :: other == limit
    requires Reaches(BoundedGraph(s), StartId(s), gate.id)
    ensures AlwaysCompletes(s, handlers, gate.id) <==> BudgetOf(handlers, gate.id) - 1 <= limit.maxIterations
  {
    if BudgetOf(handlers, gate.id) - 1 <= limit.maxIterations {
      FittingBudgetCompletes(s, handlers, gate);
    } else {
      AcceptedIsRouted(s);
      LargerBudgetFails(s, handlers, gate, limit);
    }
  }
}
