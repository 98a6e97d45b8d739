/**
 What each natural CMS node does with what the world answers, along the edges of the default graph, and
 what each delivery of a job does with its thread.
 */
module NaturalCmsAnswers {
  import opened Wrappers
  import opened NaturalCms
  import opened NaturalCmsRunner
  import opened NaturalCmsRuns

  // --- the default graph ---

  /** The edges of the default snapshot: from, result port and to. */
  const EDGES: seq<(Node, string, Node)> :=
    [(Start, "next", Guardrail),
     (Guardrail, "passed", Analyze), (Guardrail, "failed", End),
     (Analyze, "feasible", Preview), (Analyze, "infeasible", End),
     (Preview, "ready", Approval),
     (Approval, "approved", Apply), (Approval, "rejected", Discard),
     (Discard, "retry", Analyze), (Discard, "discarded", End),
     (Apply, "applied", End)]

  /** Every edge is the route of its node and port. */
  lemma EdgesAreRoutes(i: nat)
    requires i < |EDGES|
    ensures EDGES[i].2 == Route(EDGES[i].0, EDGES[i].1) && PortIsDeclared(EDGES[i].0, EDGES[i].1)
  {
  }

  lemma DeclaredPortHasEdge(node: Node, port: string) returns (i: nat)
    requires PortIsDeclared(node, port)
    ensures i < |EDGES| && EDGES[i] == (node, port, Route(node, port))
  {
    i := match node
      case Start => 0
      case Guardrail => if port == "passed" then 1 else 2
      case Analyze => if port == "feasible" then 3 else 4
      case Preview => 5
      case Approval => if port == "approved" then 6 else 7
      case Discard => if port == "retry" then 8 else 9
      case Apply => 10;
    EdgesAreRoutes(i);
  }

  lemma CompletionDeclaresPort(cp: Checkpoint, reply: Reply)
    requires cp.next.Some? && cp.next.value != End && AttemptNode(cp, reply).Done?
    ensures var attempted := AttemptNode(cp, reply);
      && PortIsDeclared(cp.next.value, attempted.port)
      && attempted.after.next == Some(Route(cp.next.value, attempted.port))
  {
  }

  /** A completed node leaves along the edge of its port; the end node ends the job. */
  lemma CompletionFollowsEdge(cp: Checkpoint, reply: Reply) returns (i: nat)
    requires cp.next.Some? && AttemptNode(cp, reply).Done?
    ensures var attempted := AttemptNode(cp, reply);
      if cp.next.value == End then attempted.after.next == None
      else
        i < |EDGES| && cp.next == Some(EDGES[i].0) && attempted.port == EDGES[i].1
        && attempted.after.next == Some(EDGES[i].2)
  {
    i := 0;
    if cp.next.value != End {
      CompletionDeclaresPort(cp, reply);
      i := DeclaredPortHasEdge(cp.next.value, AttemptNode(cp, reply).port);
    }
  }

  // --- the guardrail and the approval ---

  /** The job that the control plane returns is the one of the checkpoint, in the same version and attempt. */
  predicate IsBoundTo(job: Job, cp: Checkpoint) {
    && job.jobId == cp.binding.jobId && job.traceId == cp.binding.traceId
    && job.profileVersionId == cp.binding.profileVersionId && job.pipelineAttempt == cp.binding.pipelineAttempt
    && job.stateVersion == cp.binding.stateVersion
  }

  /** The last stage was a preview, and this is its subject. */
  predicate IsSubject(cp: Checkpoint, subject: Subject) {
    && cp.context.last.Some? && cp.context.last.value.stage == Preview
    && cp.context.last.value.preview == Some(subject)
  }

  /** The job waits with this decision about exactly this subject. */
  predicate IsDecided(job: Job, subject: Subject, decision: ApprovalDecision) {
    && job.status == WaitingApproval && job.previewIsValid && job.preview == Some(subject)
    && job.decision == Some(decision)
  }

  /**
   An approval waits until it is resumed, goes to apply on APPROVED and to discard on REJECTED for its
   own subject and version, and fails on anything else.
   */
  lemma ApprovalIsExact(cp: Checkpoint, reply: Reply, subject: Subject)
    requires cp.next == Some(Approval) && IsSubject(cp, subject)
    ensures var attempted := AttemptNode(cp, reply);
      && (attempted == Paused(cp.(isWaiting := true)) <==> !reply.resumed)
      && (attempted == Done(cp.(next := Some(Apply), isWaiting := false), "approved") <==>
            reply.resumed && reply.job.Some? && IsBoundTo(reply.job.value, cp)
            && IsDecided(reply.job.value, subject, Approve))
      && (attempted == Done(cp.(next := Some(Discard), isWaiting := false), "rejected") <==>
            reply.resumed && reply.job.Some? && IsBoundTo(reply.job.value, cp)
            && IsDecided(reply.job.value, subject, Reject))
      && (reply.resumed && (reply.job == None || !IsBoundTo(reply.job.value, cp)
                            || (!IsDecided(reply.job.value, subject, Approve)
                                && !IsDecided(reply.job.value, subject, Reject))) ==>
            attempted == Broke(cp.(isWaiting := reply.staysWaiting)))
  {
    if reply.job.Some? && reply.job.value.decision.Some? {
      match reply.job.value.decision.value
      case Approve => assert reply.job.value.decision == Some(Approve);
      case Reject => assert reply.job.value.decision == Some(Reject);
    }
  }

  /** Without a preview there is nothing to approve. */
  lemma NothingToApprove(cp: Checkpoint, reply: Reply)
    requires cp.next == Some(Approval) && forall subject :: !IsSubject(cp, subject)
    ensures AttemptNode(cp, reply) == Broke(cp)
  {
    if CurrentSubject(cp.context).Some? {
      assert IsSubject(cp, CurrentSubject(cp.context).value);
    }
  }

  /** The start goes to the guardrail, which lets the job through or ends it; the end ends it. */
  lemma OuterNodesAreExact(cp: Checkpoint, reply: Reply)
    ensures cp.next == Some(Start) ==>
      AttemptNode(cp, reply) == Done(cp.(next := Some(Guardrail), isWaiting := false), "next")
    ensures cp.next == Some(Guardrail) && reply.passes ==>
      AttemptNode(cp, reply) == Done(cp.(next := Some(Analyze), isWaiting := false), "passed")
    ensures cp.next == Some(Guardrail) && !reply.passes ==>
      AttemptNode(cp, reply) == Done(cp.(next := Some(End), isWaiting := false), "failed")
    ensures cp.next == Some(End) ==> AttemptNode(cp, reply) == Done(cp.(next := None, isWaiting := false), "")
  {
  }

  // --- the stages ---

  predicate IsStage(node: Node) {
    node in {Analyze, Preview, Discard, Apply}
  }

  /** The ports of a stage. */
  predicate MayLeaveBy(node: Node, port: string) {
    || (node == Analyze && (port == "feasible" || port == "infeasible"))
    || (node == Preview && port == "ready")
    || (node == Discard && (port == "retry" || port == "discarded"))
    || (node == Apply && port == "applied")
  }

  /** The round of the node's next execution. */
  function NextRound(cp: Checkpoint, node: Node): int {
    if node in cp.context.rounds then cp.context.rounds[node] + 1 else 1
  }

  /** The executor's answer is about this execution, and is shaped as its stage asks. */
  predicate IsAnswerOf(cp: Checkpoint, node: Node, job: Job, outcome: StageResult) {
    && NextRound(cp, node) >= 0 && outcome.resultId == ResultName(cp.binding, node, NextRound(cp, node))
    && outcome.stage == node && MayLeaveBy(node, outcome.port) && outcome.resource == job.resource
    && (node == Analyze ==> !outcome.hasCommand && outcome.preview == None)
    && (node != Analyze ==> outcome.hasCommand && outcome.preview.Some?)
  }

  /** The rounds so far are in order, and the job and the answer are this execution's. */
  predicate Succeeds(cp: Checkpoint, node: Node, reply: Reply) {
    && (forall other | other in cp.context.rounds :: 1 <= cp.context.rounds[other] <= 100)
    && reply.job.Some? && IsBoundTo(reply.job.value, cp)
    && reply.outcome.Some? && IsAnswerOf(cp, node, reply.job.value, reply.outcome.value)
  }

  /** The thread after a stage: its round is counted and its result is the last one; a retry is counted. */
  predicate IsAfterStage(cp: Checkpoint, node: Node, outcome: StageResult, after: Checkpoint) {
    && after.binding == cp.binding && after.digest == cp.digest && !after.isWaiting
    && after.context.policyHash == cp.context.policyHash && after.context.requestText == cp.context.requestText
    && after.context.resource == cp.context.resource
    && after.context.rounds == cp.context.rounds[node := NextRound(cp, node)]
    && after.context.last
         == Some(Reference(outcome.resultId, node, outcome.port, outcome.resource, outcome.preview))
    && after.retries == cp.retries + (if node == Discard && outcome.port == "retry" then 1 else 0)
  }

  /** A stage completes exactly when it succeeds and, for a retry, two retries are not used up yet. */
  lemma StageIsExact(cp: Checkpoint, reply: Reply)
    requires cp.next.Some? && IsStage(cp.next.value)
    ensures var node, attempted := cp.next.value, AttemptNode(cp, reply);
      && (attempted.Done? <==>
            && Succeeds(cp, node, reply)
            && (node == Discard && reply.outcome.value.port == "retry" ==> cp.retries < 2))
      && (attempted.Done? ==>
            attempted.port == reply.outcome.value.port
            && IsAfterStage(cp, node, reply.outcome.value, attempted.after))
      && (!attempted.Done? ==> attempted == Broke(cp))
  {
  }

  // --- deliveries ---

  predicate IsOver(job: Job) {
    job.status == Status.Completed || job.status == Rejected
  }

  predicate IsOfJob(cp: Checkpoint, d: Delivery) {
    && cp.binding.jobId == d.job.jobId && cp.binding.traceId == d.job.traceId
    && cp.binding.profileVersionId == d.job.profileVersionId && cp.digest == d.digest
  }

  predicate IsUnchanged(cp: Checkpoint, d: Delivery) {
    d.job.stateVersion == cp.binding.stateVersion && d.job.pipelineAttempt == cp.binding.pipelineAttempt
  }

  /** The first delivery of an active job. */
  predicate Begins(thread: Option<Checkpoint>, d: Delivery) {
    thread == None && d.job.status == Active && d.job.decision == None
  }

  /** The control plane already waits for an approval that the thread has not reached. */
  predicate IsBehind(thread: Option<Checkpoint>, d: Delivery) {
    && d.job.status == WaitingApproval
    && (thread.Some? ==> IsOfJob(thread.value, d) && !thread.value.isWaiting && thread.value.next.Some?)
  }

  predicate HasEnded(thread: Option<Checkpoint>, d: Delivery) {
    && !IsOver(d.job) && thread.Some? && IsOfJob(thread.value, d) && !thread.value.isWaiting
    && thread.value.next == None
  }

  /** A waiting thread whose job still waits, unchanged. */
  predicate KeepsWaiting(thread: Option<Checkpoint>, d: Delivery) {
    && thread.Some? && IsOfJob(thread.value, d) && thread.value.isWaiting
    && d.job.status == WaitingApproval && d.job.decision == None && IsUnchanged(thread.value, d)
  }

  /** A decision moved the version on by one; a rejection below three attempts begins another attempt. */
  predicate Decides(thread: Option<Checkpoint>, d: Delivery) {
    && thread.Some? && IsOfJob(thread.value, d) && thread.value.isWaiting
    && d.job.status == WaitingApproval && d.job.decision.Some?
    && d.job.stateVersion == thread.value.binding.stateVersion + 1
    && d.job.pipelineAttempt == thread.value.binding.pipelineAttempt
         + (if d.job.decision == Some(Reject) && thread.value.binding.pipelineAttempt < 3 then 1 else 0)
  }

  /** A thread that was broken off, of a job that is still active and unchanged. */
  predicate GoesOn(thread: Option<Checkpoint>, d: Delivery) {
    && thread.Some? && IsOfJob(thread.value, d) && !thread.value.isWaiting && thread.value.next.Some?
    && d.job.status == Active && d.job.decision == None && IsUnchanged(thread.value, d)
  }

  /** What is answered about a thread: it waits, it ended and the control plane agrees or not, or it broke off. */
  predicate Tells(cp: Checkpoint, w: World, outcome: Outcome) {
    if cp.isWaiting then outcome == Waiting
    else if cp.next.Some? || w.confirmed == None then outcome == Interrupted
    else outcome == if IsOver(w.confirmed.value) then Ended else TerminalPending
  }

  /** The nodes ran from here as far as they came. */
  predicate RanFrom(start: Checkpoint, d: Delivery, effect: Effect) {
    var run := RunNodes(start, d.world.first);
    effect.thread == Some(run.cp) && effect.log == run.log && Tells(run.cp, d.world, effect.outcome)
  }

  /** The thread with the delivered job bound to it. */
  predicate Rebinds(cp: Checkpoint, d: Delivery, start: Checkpoint) {
    && IsBoundTo(d.job, start) && start.digest == cp.digest && start.context == cp.context && start.next == cp.next
    && !start.isWaiting && start.retries == cp.retries
  }

  /** Deliveries that run the graph: the first one, a decision, and a retry. */
  lemma RunningIsExact(thread: Option<Checkpoint>, d: Delivery)
    ensures Begins(thread, d) ==>
      exists start :: RanFrom(start, d, EffectOf(thread, d)) && IsBoundTo(d.job, start) && start.digest == d.digest
        && start.context == Context(d.digest, d.job.requestText, d.job.resource, map[], None)
        && start.next == Some(Start) && !start.isWaiting && start.retries == 0
    ensures Decides(thread, d) || (GoesOn(thread, d) && d.world.updates) ==>
      exists start :: RanFrom(start, d, EffectOf(thread, d)) && Rebinds(thread.value, d, start)
  {
    if Begins(thread, d) {
      var start := Checkpoint(NaturalCms.Bind(d.job), d.digest, InitialContext(d.job, d.digest), Some(Start), false, 0);
      assert RanFrom(start, d, EffectOf(thread, d));
    }
    if Decides(thread, d) || (GoesOn(thread, d) && d.world.updates) {
      var start := thread.value.(binding := NaturalCms.Bind(d.job), isWaiting := false);
      assert RanFrom(start, d, EffectOf(thread, d)) && Rebinds(thread.value, d, start);
    }
  }

  /** Deliveries that leave the thread, and what they are answered. */
  lemma LeavingIsExact(thread: Option<Checkpoint>, d: Delivery)
    requires !Begins(thread, d) && !Decides(thread, d) && !(GoesOn(thread, d) && d.world.updates)
    requires IsOver(d.job) || !IsBehind(thread, d)
    ensures EffectOf(thread, d).thread == thread && EffectOf(thread, d).log == []
    ensures var outcome := EffectOf(thread, d).outcome;
      if IsOver(d.job) then outcome == Ended
      else if HasEnded(thread, d) then Tells(thread.value, d.world, outcome)
      else if KeepsWaiting(thread, d) then outcome == Waiting
      else if GoesOn(thread, d) then outcome == Interrupted
      else outcome == Conflict
  {
  }

  /** The job waits for an approval of a valid preview, and the thread's preview round can be counted. */
  predicate HasPreview(thread: Option<Checkpoint>, d: Delivery) {
    && d.job.previewIsValid && d.job.preview.Some?
    && (thread.Some? && Preview in thread.value.context.rounds ==> thread.value.context.rounds[Preview] >= 0)
  }

  /** The thread as the control plane knows it: at its approval, after a preview with the recorded subject. */
  predicate IsRebuilt(thread: Option<Checkpoint>, d: Delivery, start: Checkpoint) {
    var rounds: map<Node, int> := if thread.Some? then thread.value.context.rounds else map[];
    var round := if Preview in rounds then rounds[Preview] + 1 else 1;
    && round >= 0
    && IsBoundTo(d.job, start) && start.digest == d.digest && start.next == Some(Approval) && !start.isWaiting
    && start.retries == (if thread.Some? then thread.value.retries else 0)
    && start.context.policyHash == d.digest && start.context.requestText == d.job.requestText
    && start.context.resource == d.job.resource
    && start.context.rounds == (if Analyze in rounds then rounds else rounds[Analyze := 1])[Preview := round]
    && start.context.last
         == Some(Reference(ResultName(start.binding, Preview, round), Preview, "ready", d.job.resource, d.job.preview))
  }

  /** A recorded decision is applied to a rebuilt thread that waits for it or has gone past it. */
  predicate SettlesFrom(reached: Checkpoint, d: Delivery, log: seq<Entry>, effect: Effect) {
    if !reached.isWaiting && reached.next.Some? then
      effect.thread == Some(reached) && effect.log == log && effect.outcome == Interrupted
    else if d.job.decision == None then
      effect.thread == Some(reached) && effect.log == log
      && effect.outcome == (if reached.isWaiting then Waiting else Ended)
    else
      var run := RunNodes(reached.(binding := NaturalCms.Bind(d.job), isWaiting := false), d.world.second);
      effect.thread == Some(run.cp) && effect.log == log + run.log && Tells(run.cp, d.world, effect.outcome)
  }

  /** A thread that is behind its job is rebuilt at the approval and goes on from there. */
  lemma RecoveryIsExact(thread: Option<Checkpoint>, d: Delivery)
    requires IsBehind(thread, d)
    ensures !HasPreview(thread, d) ==> EffectOf(thread, d) == Effect(thread, [], Conflict)
    ensures HasPreview(thread, d) && !d.world.updates ==> EffectOf(thread, d) == Effect(thread, [], Interrupted)
    ensures HasPreview(thread, d) && d.world.updates ==>
      exists start :: IsRebuilt(thread, d, start)
        && var run := RunNodes(start, d.world.first);
           SettlesFrom(run.cp, d, [RecoveredPreview(start)] + run.log, EffectOf(thread, d))
  {
    if HasPreview(thread, d) && d.world.updates {
      var start := RecoveredThread(thread, d.job, d.digest);
      assert IsRebuilt(thread, d, start);
      var run := RunNodes(start, d.world.first);
      assert EffectOf(thread, d) == RunRecovered(start, d.job, d.world);
      RebuiltSettles(start, d, run);
    }
  }

  lemma RebuiltSettles(start: Checkpoint, d: Delivery, run: Trace)
    requires run == RunNodes(start, d.world.first)
    ensures SettlesFrom(run.cp, d, [RecoveredPreview(start)] + run.log, RunRecovered(start, d.job, d.world))
  {
    assert [RecoveredPreview(start)] + run.log + [] == [RecoveredPreview(start)] + run.log;
  }
}
