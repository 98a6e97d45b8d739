/**
 What the snapshot runner keeps of a job between deliveries, and how it decides what a delivery is:
 a replay, a technical retry, an approval, a recovery of a finished graph, or refused.
 */
module DeliveryModel {
  import opened Wrappers
  import opened Contracts

  const MAX_LEDGER_IDS := 100

  /** What the provider resolved for an event. */
  datatype Execution = Execution(
    profileVersionId: string, digest: string, pipelineAttempt: int, executionAttempt: int,
    workspaceId: Option<string>, toolCallId: Option<string>, context: int)

  datatype Ledger = Ledger(eventIds: seq<string>, maxStateVersion: int)

  /** The state the runner writes at every delivery, all of it at once. */
  datatype Binding = Binding(
    jobId: string, traceId: string, profileVersionId: string, pipelineAttempt: int, executionAttempt: int,
    stateVersion: int, workspaceId: Option<string>, toolCallId: Option<string>,
    event: Event, claim: Claim, ledger: Ledger)

  /** A pending approval of an interrupted node. */
  datatype Interrupt = Interrupt(
    task: string, shapeIsValid: bool, jobId: string, profileVersionId: string, nodeId: string,
    traceId: string, stateVersion: int, pipelineAttempt: Option<int>, authorityIsValid: bool)

  /** The graph's part of a checkpoint: handlers only change this part. */
  datatype Progress = Progress(data: int, interrupts: seq<Interrupt>, isFinished: bool)

  datatype Checkpoint = Checkpoint(binding: Binding, digest: string, progress: Progress)

  datatype Phase = WaitingApproval | Completed | Running

  datatype ErrorCode = StateConflict | ContractFailure

  /** What an invocation returns or raises; Interrupted is any failure of the store or of a handler. */
  datatype Outcome =
    | Boundary(phase: Phase, data: int, approval: Option<Interrupt>)
    | Refused(code: ErrorCode)
    | Interrupted

  /** What the graph is invoked with. */
  datatype Input = Start | Continue | Resume

  datatype Decision =
    | Refuse(code: ErrorCode)
    | Replay
    | Begin(binding: Binding)
    | Retry(binding: Binding)
    | Approve(binding: Binding)
    | RecoverCompleted(binding: Binding)

  predicate ExecutionIsValid(execution: Execution) {
    execution.pipelineAttempt >= 1 && execution.executionAttempt >= 1
  }

  function PhaseOf(progress: Progress): Phase {
    if progress.interrupts != [] then WaitingApproval
    else if progress.isFinished then Completed
    else Running
  }

  predicate LedgerIsValid(ledger: Ledger) {
    && 1 <= |ledger.eventIds| <= MAX_LEDGER_IDS
    && ledger.maxStateVersion >= 1
  }

  predicate SameIdentity(checkpoint: Checkpoint, event: Event, execution: Execution) {
    && checkpoint.binding.jobId == event.jobId
    && checkpoint.binding.traceId == event.traceId
    && checkpoint.binding.profileVersionId == execution.profileVersionId
    && checkpoint.digest == execution.digest
  }

  /** A repeated delivery is the recorded one, under the same claim authority and binding. */
  predicate RecoversDelivery(binding: Binding, event: Event, claim: Claim, execution: Execution) {
    && ClaimIsFor(binding.claim, binding.event)
    && binding.event == event
    && binding.claim.jobId == claim.jobId && binding.claim.traceId == claim.traceId
    && binding.claim.leaseId == claim.leaseId && binding.claim.stateVersion == claim.stateVersion
    && binding.claim.snapshot == claim.snapshot
    && binding.pipelineAttempt == execution.pipelineAttempt
    && binding.executionAttempt == execution.executionAttempt
    && binding.workspaceId == execution.workspaceId
    && binding.toolCallId == execution.toolCallId
  }

  function LastHundred(ids: seq<string>): seq<string> {
    if |ids| > MAX_LEDGER_IDS then ids[|ids| - MAX_LEDGER_IDS..] else ids
  }

  function Extended(ledger: Ledger, event: Event): Ledger {
    Ledger(LastHundred(ledger.eventIds + [event.eventId]), event.expectedStateVersion)
  }

  function Bind(event: Event, claim: Claim, execution: Execution, ledger: Ledger): Binding {
    Binding(event.jobId, claim.traceId, execution.profileVersionId, execution.pipelineAttempt,
            execution.executionAttempt, claim.stateVersion, execution.workspaceId, execution.toolCallId,
            event, claim, ledger)
  }

  predicate IsSameDelivery(ledger: Ledger, event: Event) {
    event.expectedStateVersion == ledger.maxStateVersion && event.eventId in ledger.eventIds
  }

  function DecideRepeated(checkpoint: Checkpoint, event: Event, claim: Claim, execution: Execution): Decision {
    if !RecoversDelivery(checkpoint.binding, event, claim, execution) then Refuse(StateConflict)
    else if PhaseOf(checkpoint.progress) != Running then Replay
    else Retry(Bind(event, claim, execution, checkpoint.binding.ledger))
  }

  function DecideNew(checkpoint: Checkpoint, event: Event, claim: Claim, execution: Execution): Decision {
    var binding, phase := checkpoint.binding, PhaseOf(checkpoint.progress);
    if event.expectedStateVersion <= binding.ledger.maxStateVersion then Refuse(StateConflict)
    else if binding.executionAttempt < 1 then Refuse(StateConflict)
    else if execution.executionAttempt < binding.executionAttempt then Refuse(StateConflict)
    else if execution.executionAttempt == binding.executionAttempt && (phase != WaitingApproval || !claim.resume) then
      Refuse(StateConflict)
    else
      var next := Bind(event, claim, execution, Extended(binding.ledger, event));
      if phase == Completed then RecoverCompleted(next)
      else if phase == WaitingApproval && execution.executionAttempt == binding.executionAttempt then Approve(next)
      else Retry(next)
  }

  /** What a delivery is, judged by the job's checkpoint. */
  function Decide(thread: Option<Checkpoint>, event: Event, claim: Claim, execution: Execution): Decision {
    if thread == None then
      if claim.resume then Refuse(StateConflict)
      else Begin(Bind(event, claim, execution, Ledger([event.eventId], event.expectedStateVersion)))
    else
      var checkpoint := thread.value;
      if !SameIdentity(checkpoint, event, execution) || !LedgerIsValid(checkpoint.binding.ledger) then
        Refuse(StateConflict)
      else if IsSameDelivery(checkpoint.binding.ledger, event) then
        DecideRepeated(checkpoint, event, claim, execution)
      else
        DecideNew(checkpoint, event, claim, execution)
  }

  /** Whether the queue may treat an event as already delivered. */
  predicate IsDuplicate(thread: Option<Checkpoint>, event: Event, execution: Execution) {
    && thread.Some?
    && var checkpoint := thread.value;
    && var ledger := checkpoint.binding.ledger;
    && LedgerIsValid(ledger)
    && (|| event.expectedStateVersion < ledger.maxStateVersion
        || (&& checkpoint.binding.profileVersionId == execution.profileVersionId
            && checkpoint.digest == execution.digest
            && IsSameDelivery(ledger, event)
            && PhaseOf(checkpoint.progress) != Running
            && checkpoint.binding.event == event))
  }

  predicate ApprovalMatches(item: Interrupt, event: Event, claim: Claim, execution: Execution) {
    && item.jobId == event.jobId == claim.jobId
    && item.profileVersionId == execution.profileVersionId == claim.profileVersionId
    && event.profileVersionId == Some(execution.profileVersionId)
    && item.nodeId == item.task
    && item.traceId == claim.traceId == event.traceId
    && item.stateVersion == claim.stateVersion
    && (item.pipelineAttempt.Some? ==> item.pipelineAttempt.value == execution.pipelineAttempt)
  }

  /** What the worker loop is told about a graph that stopped. */
  function BoundaryOf(progress: Progress, event: Event, claim: Claim, execution: Execution): Outcome {
    if PhaseOf(progress) != WaitingApproval then Boundary(PhaseOf(progress), progress.data, None)
    else if |progress.interrupts| != 1 then Refused(ContractFailure)
    else
      var item := progress.interrupts[0];
      if !item.shapeIsValid then Refused(ContractFailure)
      else if !ApprovalMatches(item, event, claim, execution) then Refused(StateConflict)
      else if !item.authorityIsValid then Refused(ContractFailure)
      else Boundary(WaitingApproval, progress.data, Some(item))
  }
}
