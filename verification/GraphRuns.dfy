/**
 What the step bound means for a run: the engine's recursion limit is never what stops it, the
 builder's own state is never refused, and no run ends without having passed a guardrail.
 */
module GraphRuns {
  import opened Wrappers
  import opened DirectedGraph
  import opened SnapshotModel
  import opened GraphExecution
  import opened GraphBound

  // --- the recursion limit ---

  lemma {:induction false} ExecuteConcatenates(s: Snapshot, cp: Checkpoint,
                                               before: seq<HandlerReply>, after: seq<HandlerReply>)
    ensures Execute(s, cp, before + after) == Execute(s, Execute(s, cp, before), after)
    decreases |after|
  {
    if after == [] {
      assert before + after == before;
    } else {
      var all, front := before + after, after[..|after| - 1];
      assert all[..|all| - 1] == before + front;
      ExecuteConcatenates(s, cp, before, front);
    }
  }

  /** The node actions of one engine invocation: each finds a pending node, and all but the last complete. */
  ghost predicate OneInvocation(s: Snapshot, cp: Checkpoint, replies: seq<HandlerReply>) {
    forall i | 0 <= i < |replies| :: ActionAt(s, cp, replies, i)
  }

  ghost predicate ActionAt(s: Snapshot, cp: Checkpoint, replies: seq<HandlerReply>, i: nat)
    requires i < |replies|
  {
    var before := Execute(s, cp, replies[..i]);
    before.next.Some? && (i < |replies| - 1 ==> Attempt(s, before, replies[i]).Ok?)
  }

  lemma CompletionCounts(s: Snapshot, cp: Checkpoint, reply: HandlerReply)
    requires Attempt(s, cp, reply).Ok?
    ensures Completed(Step(s, cp, reply)) == Completed(cp) + 1
  {
  }

  lemma {:induction false} InvocationCounts(s: Snapshot, cp: Checkpoint, replies: seq<HandlerReply>, k: nat)
    requires OneInvocation(s, cp, replies) && k < |replies|
    ensures Completed(Execute(s, cp, replies[..k])) == Completed(cp) + k
    decreases k
  {
    if k == 0 {
      assert replies[..0] == [];
    } else {
      InvocationCounts(s, cp, replies, k - 1);
      assert ActionAt(s, cp, replies, k - 1);
      assert replies[..k][..k - 1] == replies[..k - 1];
      CompletionCounts(s, Execute(s, cp, replies[..k - 1]), replies[k - 1]);
    }
  }

  lemma {:induction false} CompletedIsNatural(s: Snapshot, context: Context, replies: seq<HandlerReply>)
    requires HasOneStartAndEnd(s)
    ensures Completed(Execute(s, InitialCheckpoint(s, context), replies)) >= 0
    decreases |replies|
  {
    if replies != [] {
      CompletedIsNatural(s, context, replies[..|replies| - 1]);
      var cp := Execute(s, InitialCheckpoint(s, context), replies[..|replies| - 1]);
      if Attempt(s, cp, replies[|replies| - 1]).Ok? {
        CompletionCounts(s, cp, replies[|replies| - 1]);
      }
    }
  }

  /** An invocation from a checkpoint with room for `bound` more actions starts at most that many. */
  lemma InvocationFits(s: Snapshot, cp: Checkpoint, invocation: seq<HandlerReply>, bound: int)
    requires OneInvocation(s, cp, invocation) && invocation != [] && Completed(cp) >= 0
    requires var last := Execute(s, cp, invocation[..|invocation| - 1]);
      Completed(last) + (if last.next.Some? then 1 else 0) <= bound
    ensures |invocation| <= bound
  {
    InvocationCounts(s, cp, invocation, |invocation| - 1);
    assert ActionAt(s, cp, invocation, |invocation| - 1);
  }

  /** After any history, one invocation starts fewer node actions than the recursion limit. */
  lemma RecursionLimitNeverReached(s: Snapshot, context: Context, history: seq<HandlerReply>, invocation: seq<HandlerReply>)
    requires Accepted(s) && HasOneStartAndEnd(s)
    requires OneInvocation(s, Execute(s, InitialCheckpoint(s, context), history), invocation)
    ensures |invocation| < RecursionLimit(s)
  {
    var cp := InitialCheckpoint(s, context);
    if invocation != [] {
      var started := invocation[..|invocation| - 1];
      ExecuteConcatenates(s, cp, history, started);
      JobStepBound(s, context, history + started);
      CompletedIsNatural(s, context, history);
      InvocationFits(s, Execute(s, cp, history), invocation, StepBound(s));
    }
  }

  // --- the builder's own state ---

  predicate CausedByHandler(failure: Failure) {
    failure in {HandlerRaised, WaitingApproval, EndReturnedPort, UndeclaredPort, LoopExceeded}
  }

  lemma TrackedActionResolves(s: Snapshot, start: Node, cp: Checkpoint, trail: seq<Edge>, reply: HandlerReply)
    requires Bounded(s, start) && PortsResolve(s) && Tracks(s, start, cp, trail) && cp.next.Some?
    ensures Attempt(s, cp, reply).Err? ==> CausedByHandler(Attempt(s, cp, reply).error)
  {
    StopIsNode(s, start, trail, |trail|);
    NodeNamedFinds(s.nodes, cp.next.value);
    var node := NodeNamed(s.nodes, cp.next.value).value;
    if node.kind != End && ActionOutcome(s, node, reply, cp.values).Ok? {
      var e := ActionTraverses(s, node, reply, cp.values);
    }
  }

  /** A pending action only ever fails for what its handler did: stored state, routes and routing always resolve. */
  lemma PendingActionResolves(s: Snapshot, context: Context, replies: seq<HandlerReply>, reply: HandlerReply)
    requires Accepted(s) && HasOneStartAndEnd(s)
    requires Execute(s, InitialCheckpoint(s, context), replies).next.Some?
    ensures var attempt := Attempt(s, Execute(s, InitialCheckpoint(s, context), replies), reply);
      attempt.Err? ==> CausedByHandler(attempt.error)
  {
    AcceptedIsBounded(s);
    AcceptedPortsResolve(s);
    AcceptedLimitsResolve(s);
    var trail := ExecuteTracks(s, context, replies);
    TrackedActionResolves(s, StartId(s), Execute(s, InitialCheckpoint(s, context), replies), trail, reply);
  }

  // --- guardrails on every finished run ---

  /** Some prefix of the run ended with the completion of this node. */
  ghost predicate WasCompleted(s: Snapshot, cp: Checkpoint, replies: seq<HandlerReply>, id: Node) {
    exists k :: 0 <= k <= |replies| && Execute(s, cp, replies[..k]).values.lastNode == Some(id)
  }

  lemma StillCompleted(s: Snapshot, cp: Checkpoint, replies: seq<HandlerReply>, id: Node)
    requires replies != [] && WasCompleted(s, cp, replies[..|replies| - 1], id)
    ensures WasCompleted(s, cp, replies, id)
  {
    var front := replies[..|replies| - 1];
    var k :| 0 <= k <= |front| && Execute(s, cp, front[..k]).values.lastNode == Some(id);
    assert replies[..k] == front[..k];
  }

  ghost predicate IsEndNode(s: Snapshot, id: Node) {
    NodeNamed(s.nodes, id).Some? && NodeNamed(s.nodes, id).value.kind == End
  }

  /** Each source of the trail was completed; the run stands at the trail's end, or has finished at an end node. */
  ghost predicate Witnessed(s: Snapshot, start: Node, cp: Checkpoint, replies: seq<HandlerReply>, trail: seq<Edge>) {
    && IsTrail(s.edges, start, trail)
    && (forall e | e in trail :: WasCompleted(s, cp, replies, e.source))
    && (match Execute(s, cp, replies).next
        case Some(id) => id == Position(start, trail)
        case None => IsEndNode(s, Position(start, trail)))
  }

  lemma WitnessNext(s: Snapshot, start: Node, cp: Checkpoint, replies: seq<HandlerReply>, trail: seq<Edge>)
    returns (longer: seq<Edge>)
    requires PortsResolve(s) && replies != [] && Witnessed(s, start, cp, replies[..|replies| - 1], trail)
    ensures Witnessed(s, start, cp, replies, longer)
  {
    var before, reply := Execute(s, cp, replies[..|replies| - 1]), replies[|replies| - 1];
    longer := trail;
    forall e | e in trail ensures WasCompleted(s, cp, replies, e.source) {
      StillCompleted(s, cp, replies, e.source);
    }
    if Attempt(s, before, reply).Ok? {
      NodeNamedFinds(s.nodes, before.next.value);
      var node := NodeNamed(s.nodes, before.next.value).value;
      if node.kind != End {
        var e := ActionTraverses(s, node, reply, before.values);
        TrailExtends(s.edges, start, trail, e);
        assert replies[..|replies|] == replies;
        assert Execute(s, cp, replies[..|replies|]).values.lastNode == Some(e.source);
        longer := trail + [e];
      }
    }
  }

  lemma {:induction false} WitnessedTrail(s: Snapshot, start: Node, cp: Checkpoint, replies: seq<HandlerReply>)
    returns (trail: seq<Edge>)
    requires PortsResolve(s) && cp.next == Some(start)
    ensures Witnessed(s, start, cp, replies, trail)
    decreases |replies|
  {
    if replies == [] {
      trail := [];
    } else {
      var before := WitnessedTrail(s, start, cp, replies[..|replies| - 1]);
      trail := WitnessNext(s, start, cp, replies, before);
    }
  }

  /** A trail is a walk of the whole graph. */
  lemma TrailIsWalk(s: Snapshot, start: Node, trail: seq<Edge>)
    requires Bounded(s, start) && IsTrail(s.edges, start, trail)
    ensures IsWalk(Graph(s), NodesPassed(start, trail, 0))
  {
    var walk := NodesPassed(start, trail, 0);
    forall k | 0 < k < |walk| ensures walk[k] in Targets(Graph(s), walk[k - 1]) {
      var e := trail[k - 1];
      StopIsNode(s, start, trail, k - 1);
      assert e.source == Stop(start, trail, k - 1) && e.target == Stop(start, trail, k);
      assert e in EdgesWithout(s.edges, {});
    }
  }

  lemma OneKindPerId(s: Snapshot, a: SnapshotNode, b: SnapshotNode)
    requires Obeys(s, UniqueIds) && a in s.nodes && b in s.nodes && a.id == b.id
    ensures a == b
  {
  }

  lemma FinishedAtEnd(s: Snapshot, id: Node)
    requires HasOneStartAndEnd(s) && IsEndNode(s, id)
    ensures id == EndId(s)
  {
    NodeNamedFinds(s.nodes, id);
    assert NodeNamed(s.nodes, id).value in OfType(s.nodes, End);
  }

  /** A trail from the start to the end leaves some guardrail. */
  lemma TrailLeavesGuardrail(s: Snapshot, start: Node, end: Node, trail: seq<Edge>) returns (e: Edge)
    requires Bounded(s, start) && IsTrail(s.edges, start, trail) && Position(start, trail) == end
    requires GuardedBetween(s, start, end) && end !in IdsOfType(s, Guardrail)
    ensures e in trail && e.source in IdsOfType(s, Guardrail)
  {
    var walk := NodesPassed(start, trail, 0);
    TrailIsWalk(s, start, trail);
    assert WalkFromTo(Graph(s), walk, start, end);
    assert VisitsGuardrail(s, walk);
    var i :| 0 <= i < |walk| && walk[i] in IdsOfType(s, Guardrail);
    assert walk[i] == Stop(start, trail, i);
    e := trail[i];
  }

  lemma EndIsNoGuardrail(s: Snapshot)
    requires Obeys(s, UniqueIds) && HasOneStartAndEnd(s)
    ensures EndId(s) !in IdsOfType(s, Guardrail)
  {
  }

  /** No run of an accepted snapshot ends without having completed a guardrail node. */
  lemma FinishedRunPassedGuardrail(s: Snapshot, context: Context, replies: seq<HandlerReply>)
    returns (guardrail: Node)
    requires Accepted(s) && HasOneStartAndEnd(s)
    requires Execute(s, InitialCheckpoint(s, context), replies).next == None
    ensures guardrail in IdsOfType(s, Guardrail)
    ensures WasCompleted(s, InitialCheckpoint(s, context), replies, guardrail)
  {
    AcceptedIsBounded(s);
    AcceptedPortsResolve(s);
    assert Obeys(s, GuardrailOnEveryPath) && Obeys(s, UniqueIds);
    EndIsNoGuardrail(s);
    var trail := WitnessedTrail(s, StartId(s), InitialCheckpoint(s, context), replies);
    FinishedAtEnd(s, Position(StartId(s), trail));
    var e := TrailLeavesGuardrail(s, StartId(s), EndId(s), trail);
    guardrail := e.source;
  }
}
