/**
 The natural CMS profile: its default graph, its node handlers against the job that the control
 plane returns, and the checkpoint of a job's thread.
 */
module NaturalCms {
  import opened Wrappers
  import Identity

  const MAX_ATTEMPTS := 3
  const MAX_RETRIES := 2
  const MAX_ROUND := 100

  datatype Node = Start | Guardrail | Analyze | Preview | Approval | Discard | Apply | End

  datatype Status = Active | WaitingApproval | Completed | Rejected

  datatype ApprovalDecision = Approve | Reject

  /** What an approval is about. */
  datatype Subject = Subject(previewId: string, previewHash: string)

  datatype Job = Job(
    jobId: string, traceId: string, profileVersionId: string, pipelineAttempt: nat, stateVersion: nat,
    status: Status, resource: string, preview: Option<Subject>, previewIsValid: bool,
    decision: Option<ApprovalDecision>, requestText: string)

  predicate JobIsValid(job: Job) {
    job.pipelineAttempt >= 1 && job.stateVersion >= 1
  }

  /** What a stage executor returns. */
  datatype StageResult = StageResult(
    resultId: string, stage: Node, port: string, resource: string, hasCommand: bool, preview: Option<Subject>)

  /** The reference to the last stage result that the graph carries. */
  datatype Reference = Reference(resultId: string, stage: Node, port: string, resource: string, preview: Option<Subject>)

  datatype Binding = Binding(
    jobId: string, traceId: string, profileVersionId: string, pipelineAttempt: nat, stateVersion: nat)

  datatype Context = Context(
    policyHash: string, requestText: string, resource: string, rounds: map<Node, int>, last: Option<Reference>)

  /** A job's thread: next is None once the graph has ended; a waiting thread has a pending interrupt. */
  datatype Checkpoint = Checkpoint(
    binding: Binding, digest: string, context: Context, next: Option<Node>, isWaiting: bool, retries: nat)

  datatype Phase = PhaseWaiting | PhaseCompleted | PhaseRunning

  function PhaseOf(cp: Checkpoint): Phase {
    if cp.isWaiting then PhaseWaiting else if cp.next == None then PhaseCompleted else PhaseRunning
  }

  function Bind(job: Job): Binding {
    Binding(job.jobId, job.traceId, job.profileVersionId, job.pipelineAttempt, job.stateVersion)
  }

  /** What the world answers to one node attempt. */
  datatype Reply = Reply(
    resumed: bool,                     // whether the interrupt returns
    job: Option<Job>,                  // the job looked up, unless that fails
    outcome: Option<StageResult>,      // what the executor returns, unless that fails
    passes: bool,                      // what the common guardrail says
    staysWaiting: bool)                // whether a failed attempt leaves an interrupt pending

  // --- handlers ---

  predicate MatchesBinding(job: Job, binding: Binding) {
    Bind(job) == binding
  }

  function RoundOf(context: Context, node: Node): int {
    (if node in context.rounds then context.rounds[node] else 0) + 1
  }

  predicate RoundsAreValid(context: Context) {
    forall node | node in context.rounds :: 1 <= context.rounds[node] <= MAX_ROUND
  }

  function NodeId(node: Node): string {
    match node
    case Start => "start"
    case Guardrail => "guardrail"
    case Analyze => "analyze"
    case Preview => "preview"
    case Approval => "approval"
    case Discard => "discard"
    case Apply => "apply"
    case End => "end"
  }

  /** The name hashed into a stage's result id. */
  function ResultName(binding: Binding, node: Node, round: nat): string {
    Identity.Joined(["axms", "natural-cms-result", binding.jobId,
                     Identity.Decimal(binding.pipelineAttempt),
                     NodeId(node), "cms." + NodeId(node), Identity.Decimal(round)])
  }

  predicate PortIsDeclared(node: Node, port: string) {
    match node
    case Start => port == "next"
    case Guardrail => port in {"passed", "failed"}
    case Analyze => port in {"feasible", "infeasible"}
    case Preview => port == "ready"
    case Approval => port in {"approved", "rejected"}
    case Discard => port in {"retry", "discarded"}
    case Apply => port == "applied"
    case End => false
  }

  /** An analysis has no subject; every other stage has one. */
  predicate ShapeIsValid(node: Node, outcome: StageResult) {
    if node == Analyze then !outcome.hasCommand && outcome.preview == None
    else outcome.hasCommand && outcome.preview.Some?
  }

  /** Whether the executor's answer is what the stage asked for. */
  predicate OutcomeIsValid(node: Node, cp: Checkpoint, job: Job, outcome: StageResult) {
    && RoundOf(cp.context, node) >= 0
    && outcome.resultId == ResultName(cp.binding, node, RoundOf(cp.context, node))
    && outcome.stage == node
    && PortIsDeclared(node, outcome.port)
    && outcome.resource == job.resource
    && ShapeIsValid(node, outcome)
  }

  predicate StageSucceeds(node: Node, cp: Checkpoint, reply: Reply) {
    && RoundsAreValid(cp.context)
    && reply.job.Some? && MatchesBinding(reply.job.value, cp.binding)
    && reply.outcome.Some? && OutcomeIsValid(node, cp, reply.job.value, reply.outcome.value)
  }

  function AfterStage(node: Node, context: Context, outcome: StageResult): Context {
    context.(
      rounds := context.rounds[node := RoundOf(context, node)],
      last := Some(Reference(outcome.resultId, node, outcome.port, outcome.resource, outcome.preview)))
  }

  /** The preview that an approval is about, if the last stage left one. */
  function CurrentSubject(context: Context): Option<Subject> {
    if context.last.Some? && context.last.value.stage == Preview then context.last.value.preview else None
  }

  /** The recorded decision is about exactly the current preview, under the current version and attempt. */
  predicate DecisionMatches(job: Job, cp: Checkpoint) {
    && MatchesBinding(job, cp.binding)
    && job.status == WaitingApproval && job.previewIsValid
    && job.preview.Some? && job.preview == CurrentSubject(cp.context)
    && job.decision.Some?
  }

  // --- the default graph ---

  function Route(node: Node, port: string): Node {
    match node
    case Start => Guardrail
    case Guardrail => if port == "passed" then Analyze else End
    case Analyze => if port == "feasible" then Preview else End
    case Preview => Approval
    case Approval => if port == "approved" then Apply else Discard
    case Discard => if port == "retry" then Analyze else End
    case Apply => End
    case End => End
  }

  /** What became of one node attempt. */
  datatype Attempted = Done(after: Checkpoint, port: string) | Paused(after: Checkpoint) | Broke(after: Checkpoint)

  /** The node completes with a port; a retry beyond the loop limit fails instead. */
  function Leave(cp: Checkpoint, node: Node, port: string, context: Context): Attempted {
    if node == Discard && port == "retry" && cp.retries + 1 > MAX_RETRIES then Broke(cp)
    else
      Done(cp.(context := context, next := Some(Route(node, port)), isWaiting := false,
               retries := if node == Discard && port == "retry" then cp.retries + 1 else cp.retries), port)
  }

  function AttemptApproval(cp: Checkpoint, reply: Reply): Attempted {
    if CurrentSubject(cp.context) == None then Broke(cp)
    else if !reply.resumed then Paused(cp.(isWaiting := true))
    else if reply.job == None || !DecisionMatches(reply.job.value, cp) then Broke(cp.(isWaiting := reply.staysWaiting))
    else Leave(cp, Approval, if reply.job.value.decision == Some(Approve) then "approved" else "rejected", cp.context)
  }

  /** One attempt of the thread's next node. */
  function AttemptNode(cp: Checkpoint, reply: Reply): Attempted
    requires cp.next.Some?
  {
    var node := cp.next.value;
    match node
    case Start => Leave(cp, Start, "next", cp.context)
    case Guardrail => Leave(cp, Guardrail, if reply.passes then "passed" else "failed", cp.context)
    case End => Done(cp.(next := None, isWaiting := false), "")
    case Approval => AttemptApproval(cp, reply)
    case _ =>
      if !StageSucceeds(node, cp, reply) then Broke(cp)
      else Leave(cp, node, reply.outcome.value.port, AfterStage(node, cp.context, reply.outcome.value))
  }

  // --- the log of a thread ---

  datatype Entry =
    | Began(node: Node, before: Checkpoint)
    | Finished(node: Node, before: Checkpoint, port: string, seen: Option<Job>)
    | RecoveredPreview(after: Checkpoint)

  /** The log entries of one attempt. */
  function EntriesOf(cp: Checkpoint, reply: Reply): seq<Entry>
    requires cp.next.Some?
  {
    var attempted := AttemptNode(cp, reply);
    [Began(cp.next.value, cp)] +
    (if attempted.Done? then [Finished(cp.next.value, cp, attempted.port, reply.job)] else [])
  }

  /** A thread and its log. */
  datatype Trace = Trace(cp: Checkpoint, log: seq<Entry>)

  /** Runs the graph while attempts succeed; it stops at the end, at an interrupt, or when an attempt fails. */
  function RunNodes(cp: Checkpoint, replies: seq<Reply>): Trace
    decreases |replies|
  {
    if replies == [] || cp.next == None then Trace(cp, [])
    else
      var attempted := AttemptNode(cp, replies[0]);
      var entries := EntriesOf(cp, replies[0]);
      if attempted.Done? then
        var rest := RunNodes(attempted.after, replies[1..]);
        Trace(rest.cp, entries + rest.log)
      else Trace(attempted.after, entries)
  }
}
