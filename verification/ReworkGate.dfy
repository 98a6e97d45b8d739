/**
 The rework gate against the bounded loop: when the gate's round budget fits the limit of its retry
 edge, the gate always leaves by a declared port and the loop bound never fails it.
 */
module ReworkGate {
  import opened Wrappers
  import opened DirectedGraph
  import opened SnapshotModel
  import opened GraphExecution
  import opened GraphBound
  import opened GraphRuns
  import opened GraphSteps
  import opened CodingRounds

  /** A limited edge was traversed at most once per completed execution of its source. */
  lemma {:induction false} TraversalsFitExecutions(s: Snapshot, cp: Checkpoint,
                                                   replies: seq<HandlerReply>, limit: LoopLimit)
    requires PortsResolve(s) && LimitsResolve(s) && limit in s.limits && cp.values.loopCounts == None
    ensures CountOf(StoredCounts(Execute(s, cp, replies).values), RouteKey(limit.route))
      <= Executions(s, cp, replies, limit.route.source)
    decreases |replies|
  {
    if replies != [] {
      var front, reply := replies[..|replies| - 1], replies[|replies| - 1];
      var before := Execute(s, cp, front);
      TraversalsFitExecutions(s, cp, front, limit);
      if Attempt(s, before, reply).Ok? {
        CountsStepFits(s, before, reply, limit);
      }
    }
  }

  lemma CountsStepFits(s: Snapshot, cp: Checkpoint, reply: HandlerReply, limit: LoopLimit)
    requires PortsResolve(s) && LimitsResolve(s) && limit in s.limits && Attempt(s, cp, reply).Ok?
    ensures cp.next.Some?
    ensures CountOf(StoredCounts(Step(s, cp, reply).values), RouteKey(limit.route))
      <= CountOf(StoredCounts(cp.values), RouteKey(limit.route)) + (if cp.next.value == limit.route.source then 1 else 0)
  {
    NodeNamedFinds(s.nodes, cp.next.value);
    var node := NodeNamed(s.nodes, cp.next.value).value;
    if node.kind != End {
      var e := ActionTraverses(s, node, reply, cp.values);
    }
  }

  /** The gate's edges: only its retry is limited, and no tighter than the budget needs. */
  ghost predicate BudgetFits(s: Snapshot, gate: SnapshotNode, maxReworkRounds: int) {
    && gate in s.nodes && gate.kind != End && "retry" in gate.ports && "handover" in gate.ports
    && maxReworkRounds >= 1
    && forall limit | limit in s.limits && limit.route.source == gate.id ::
         limit.route.port == "retry" && maxReworkRounds - 1 <= limit.maxIterations
  }

  /** The edge that a completing gate takes, and when its limit refuses it. */
  lemma GateTraversal(s: Snapshot, gate: SnapshotNode, reply: HandlerReply, st: GraphState) returns (e: Edge)
    requires PortsResolve(s) && gate in s.nodes && gate.kind != End
    requires reply.Returned? && reply.port.Some? && reply.port.value in gate.ports
    requires NextSequence(st.sequence).Some? && CountsAreValid(StoredCounts(st), LimitMap(s.limits))
    ensures e in s.edges && e.source == gate.id && e.port == reply.port.value
    ensures ActionOutcome(s, gate, reply, st).Err? ==> ActionOutcome(s, gate, reply, st).error == LoopExceeded
    ensures ActionOutcome(s, gate, reply, st).Err? <==>
      RouteKey(e) in LimitMap(s.limits) && CountOf(StoredCounts(st), RouteKey(e)) + 1 > LimitMap(s.limits)[RouteKey(e)]
  {
    e := Edge(gate.id, reply.port.value, RouteMap(s.edges)[(gate.id, reply.port.value)]);
  }

  /** A declared port fails a pending node, if at all, for its loop bound. */
  lemma DeclaredPortCompletes(s: Snapshot, cp: Checkpoint, node: SnapshotNode, reply: HandlerReply)
    requires cp.next == Some(node.id) && NodeNamed(s.nodes, node.id) == Some(node) && node.kind != End
    requires reply.Returned? && reply.port.Some? && reply.port.value in node.ports
    requires Attempt(s, cp, reply).Err? ==> CausedByHandler(Attempt(s, cp, reply).error)
    requires ActionOutcome(s, node, reply, cp.values) != Err(LoopExceeded)
    ensures Attempt(s, cp, reply).Ok?
  {
  }

  /**
   In every run of an accepted snapshot whose coding nodes keep the rounds, through candidate
   rejections, failures and resumes, the gate's action completes.
   */
  lemma GateAlwaysCompletes(s: Snapshot, context: Context, coding: set<Node>, replies: seq<HandlerReply>,
                            gate: SnapshotNode, maxReworkRounds: int)
    requires Accepted(s) && HasOneStartAndEnd(s) && BudgetFits(s, gate, maxReworkRounds)
    requires STAGE_ROUNDS !in context && gate.id in coding
    requires IsCodingRun(s, coding, InitialCheckpoint(s, context), replies)
    requires Execute(s, InitialCheckpoint(s, context), replies).next == Some(gate.id)
    ensures var cp := Execute(s, InitialCheckpoint(s, context), replies);
      Attempt(s, cp, GateReply(maxReworkRounds, cp.values.context, gate.id)).Ok?
  {
    var start := InitialCheckpoint(s, context);
    var cp := Execute(s, start, replies);
    var reply := GateReply(maxReworkRounds, cp.values.context, gate.id);
    PendingActionResolves(s, context, replies, reply);
    NextRoundCounts(s, coding, start, replies, gate.id);
    GateStaysInBudget(s, start, replies, gate, reply, maxReworkRounds);
    DeclaredPortCompletes(s, cp, gate, reply);
  }

  /**
   The gate spends its budget exactly: in every run it asks for a retry in its first
   maxReworkRounds - 1 executions and never after, unless a denied area ends it earlier.
   */
  lemma GateSpendsItsBudget(s: Snapshot, coding: set<Node>, cp: Checkpoint, replies: seq<HandlerReply>,
                            gate: Node, maxReworkRounds: int)
    requires STAGE_ROUNDS !in cp.values.context && IsCodingRun(s, coding, cp, replies)
    requires gate in coding && maxReworkRounds >= 1
    ensures var context := Execute(s, cp, replies).values.context;
      var reply := GateReply(maxReworkRounds, context, gate);
      var isDenied := "codingLastResult" in context && context["codingLastResult"] == Reference("coding.review", true);
      && reply.Returned?
      && reply.port == Some(if Executions(s, cp, replies, gate) < maxReworkRounds - 1 && !isDenied
                            then "retry" else "handover")
  {
    NextRoundCounts(s, coding, cp, replies, gate);
  }

  lemma GateStaysInBudget(s: Snapshot, start: Checkpoint, replies: seq<HandlerReply>,
                          gate: SnapshotNode, reply: HandlerReply, maxReworkRounds: int)
    requires Accepted(s) && BudgetFits(s, gate, maxReworkRounds) && start.values.loopCounts == None
    requires reply.Returned? && reply.port in {Some("retry"), Some("handover")}
    requires reply.port == Some("retry") ==> Executions(s, start, replies, gate.id) + 1 < maxReworkRounds
    ensures NodeNamed(s.nodes, gate.id) == Some(gate)
    ensures ActionOutcome(s, gate, reply, Execute(s, start, replies).values) != Err(LoopExceeded)
  {
    assert Obeys(s, UniqueIds);
    NodeIsNamed(s, gate);
    AcceptedPortsResolve(s);
    AcceptedLimitsResolve(s);
    LoopStaysOpen(s, start, replies, gate, reply, maxReworkRounds);
  }

  lemma LoopStaysOpen(s: Snapshot, start: Checkpoint, replies: seq<HandlerReply>,
                      gate: SnapshotNode, reply: HandlerReply, maxReworkRounds: int)
    requires PortsResolve(s) && LimitsResolve(s) && BudgetFits(s, gate, maxReworkRounds)
    requires start.values.loopCounts == None
    requires reply.Returned? && reply.port in {Some("retry"), Some("handover")}
    requires reply.port == Some("retry") ==> Executions(s, start, replies, gate.id) + 1 < maxReworkRounds
    ensures ActionOutcome(s, gate, reply, Execute(s, start, replies).values) != Err(LoopExceeded)
  {
    var st := Execute(s, start, replies).values;
    if ActionOutcome(s, gate, reply, st) == Err(LoopExceeded) {
      var e := GateTraversal(s, gate, reply, st);
      var limit := LimitMapOrigin(s.limits, RouteKey(e));
      TraversalsFitExecutions(s, start, replies, limit);
    }
  }
}
