/**
 What each delivery of a run does and answers, told from the job's checkpoint, the delivery and the
 engine alone: which deliveries begin, continue or resume the graph, which are answered without running
 it, which are refused, and what the engine's ending makes of the answer.
 */
module DeliveryAnswers {
  import opened Wrappers
  import opened Contracts
  import opened DeliveryModel
  import opened DeliveryRunner
  import opened DeliveryRuns

  // --- what a delivery finds ---

  predicate Waits(progress: Progress) {
    progress.interrupts != []
  }

  predicate HasFinished(progress: Progress) {
    progress.interrupts == [] && progress.isFinished
  }

  predicate IsRunning(progress: Progress) {
    progress.interrupts == [] && !progress.isFinished
  }

  /** The checkpoint is that of the delivered job, in the same trace and profile. */
  predicate IsOfJob(cp: Checkpoint, d: Delivery) {
    && cp.binding.jobId == d.event.jobId && cp.binding.traceId == d.event.traceId
    && cp.binding.profileVersionId == d.execution.profileVersionId && cp.digest == d.execution.digest
  }

  /** The delivery is the recorded one again: the same event, lease, snapshot, attempts and workspace. */
  predicate IsRepeated(cp: Checkpoint, d: Delivery) {
    && cp.binding.event == d.event
    && cp.binding.claim.leaseId == d.claim.leaseId && cp.binding.claim.stateVersion == d.claim.stateVersion
    && cp.binding.claim.snapshot == d.claim.snapshot
    && cp.binding.pipelineAttempt == d.execution.pipelineAttempt
    && cp.binding.executionAttempt == d.execution.executionAttempt
    && cp.binding.workspaceId == d.execution.workspaceId && cp.binding.toolCallId == d.execution.toolCallId
  }

  predicate IsNewer(cp: Checkpoint, d: Delivery) {
    d.event.expectedStateVersion > cp.binding.event.expectedStateVersion
  }

  predicate IsLaterAttempt(cp: Checkpoint, d: Delivery) {
    d.execution.executionAttempt > cp.binding.executionAttempt
  }

  // --- what a delivery asks for ---

  predicate Starts(thread: Option<Checkpoint>, d: Delivery) {
    thread == None && !d.claim.resume
  }

  /** The recorded delivery again on a graph that was broken off, or a later attempt of an unfinished one. */
  predicate Retries(thread: Option<Checkpoint>, d: Delivery) {
    && thread.Some? && IsOfJob(thread.value, d)
    && (|| (IsRepeated(thread.value, d) && IsRunning(thread.value.progress))
        || (IsNewer(thread.value, d) && IsLaterAttempt(thread.value, d) && !HasFinished(thread.value.progress)))
  }

  /** A newer version of the same attempt, claimed to resume a waiting graph. */
  predicate Resumes(thread: Option<Checkpoint>, d: Delivery) {
    && thread.Some? && IsOfJob(thread.value, d) && IsNewer(thread.value, d) && d.claim.resume
    && d.execution.executionAttempt == thread.value.binding.executionAttempt && Waits(thread.value.progress)
  }

  /** The recorded delivery again on a graph that has stopped. */
  predicate Replays(thread: Option<Checkpoint>, d: Delivery) {
    thread.Some? && IsOfJob(thread.value, d) && IsRepeated(thread.value, d) && !IsRunning(thread.value.progress)
  }

  /** A later attempt of a finished graph. */
  predicate Recovers(thread: Option<Checkpoint>, d: Delivery) {
    && thread.Some? && IsOfJob(thread.value, d) && IsNewer(thread.value, d) && IsLaterAttempt(thread.value, d)
    && HasFinished(thread.value.progress)
  }

  // --- what is written ---

  /** The binding that records a delivery, with this ledger. */
  predicate Binds(binding: Binding, d: Delivery, ledger: Ledger) {
    && binding.jobId == d.event.jobId && binding.traceId == d.claim.traceId
    && binding.profileVersionId == d.execution.profileVersionId
    && binding.pipelineAttempt == d.execution.pipelineAttempt && binding.executionAttempt == d.execution.executionAttempt
    && binding.stateVersion == d.claim.stateVersion
    && binding.workspaceId == d.execution.workspaceId && binding.toolCallId == d.execution.toolCallId
    && binding.event == d.event && binding.claim == d.claim && binding.ledger == ledger
  }

  /** The recorded versions after a delivery: a new one joins the last hundred, a repeated one changes nothing. */
  function LedgerAfter(thread: Option<Checkpoint>, d: Delivery): Ledger {
    if thread == None then Ledger([d.event.eventId], d.event.expectedStateVersion)
    else if thread.value.binding.event == d.event then thread.value.binding.ledger
    else
      var ids := thread.value.binding.ledger.eventIds + [d.event.eventId];
      Ledger(if |ids| > 100 then ids[|ids| - 100..] else ids, d.event.expectedStateVersion)
  }

  // --- what is answered ---

  /** The pending approval is well formed and bound to the delivery. */
  predicate IsPending(item: Interrupt, d: Delivery) {
    && item.shapeIsValid && item.authorityIsValid && IsBound(item, d)
  }

  predicate IsBound(item: Interrupt, d: Delivery) {
    && item.jobId == d.event.jobId && item.traceId == d.event.traceId
    && item.profileVersionId == d.execution.profileVersionId
    && d.event.profileVersionId == Some(d.execution.profileVersionId)
    && d.claim.profileVersionId == d.execution.profileVersionId
    && item.nodeId == item.task && item.stateVersion == d.claim.stateVersion
    && (item.pipelineAttempt.Some? ==> item.pipelineAttempt.value == d.execution.pipelineAttempt)
  }

  /** What is answered about a graph that stands here. */
  predicate Tells(progress: Progress, d: Delivery, outcome: Outcome) {
    if HasFinished(progress) then outcome == Boundary(Completed, progress.data, None)
    else if IsRunning(progress) then outcome == Boundary(Running, progress.data, None)
    else if |progress.interrupts| == 1 && IsPending(progress.interrupts[0], d) then
      outcome == Boundary(WaitingApproval, progress.data, Some(progress.interrupts[0]))
    else
      outcome == Refused(
        if |progress.interrupts| == 1 && progress.interrupts[0].shapeIsValid && !IsBound(progress.interrupts[0], d)
        then StateConflict else ContractFailure)
  }

  /** What is answered after an invocation that wrote its input. */
  predicate TellsAfter(engine: Engine, d: Delivery, outcome: Outcome) {
    if engine.ending == BrokeContract then outcome == Refused(ContractFailure)
    else if engine.ending == Failed || !engine.isObserved then outcome == Interrupted
    else if IsRunning(engine.reached) then outcome == Refused(StateConflict)
    else Tells(engine.reached, d, outcome)
  }

  lemma TellingIsExact(progress: Progress, d: Delivery, outcome: Outcome)
    requires DeliveryIsValid(d)
    ensures BoundaryOf(progress, d.event, d.claim, d.execution) == outcome <==> Tells(progress, d, outcome)
  {
  }

  lemma EndingIsExact(d: Delivery, outcome: Outcome)
    requires DeliveryIsValid(d)
    ensures AfterGraph(d.engine, d.event, d.claim, d.execution) == outcome <==> TellsAfter(d.engine, d, outcome)
  {
    TellingIsExact(d.engine.reached, d, outcome);
  }

  // --- decisions ---

  lemma RepeatIsSame(cp: Checkpoint, d: Delivery)
    requires DeliveryIsValid(d) && BindingIsSound(cp.binding) && IsOfJob(cp, d)
    ensures IsSameDelivery(cp.binding.ledger, d.event) && RecoversDelivery(cp.binding, d.event, d.claim, d.execution)
      <==> IsRepeated(cp, d)
    ensures IsRepeated(cp, d) ==> IsSameDelivery(cp.binding.ledger, d.event)
  {
  }

  function NextBinding(thread: Option<Checkpoint>, d: Delivery): Binding {
    DeliveryModel.Bind(d.event, d.claim, d.execution, LedgerAfter(thread, d))
  }

  lemma NextBindingBinds(thread: Option<Checkpoint>, d: Delivery)
    ensures Binds(NextBinding(thread, d), d, LedgerAfter(thread, d))
  {
  }

  /** What a delivery asks for is what the runner decides. */
  lemma DecisionIsExact(thread: Option<Checkpoint>, d: Delivery)
    requires DeliveryIsValid(d) && Consistent(thread)
    ensures Decide(thread, d.event, d.claim, d.execution) ==
      (if Starts(thread, d) then Begin(NextBinding(thread, d))
       else if Retries(thread, d) then Retry(NextBinding(thread, d))
       else if Resumes(thread, d) then Approve(NextBinding(thread, d))
       else if Replays(thread, d) then Replay
       else if Recovers(thread, d) then RecoverCompleted(NextBinding(thread, d))
       else Refuse(StateConflict))
  {
    if thread.Some? && IsOfJob(thread.value, d) {
      RepeatIsSame(thread.value, d);
    }
  }

  // --- every delivery of a run ---

  lemma InputOfDelivery(thread: Option<Checkpoint>, d: Delivery)
    requires DeliveryIsValid(d) && Consistent(thread)
    ensures var input := EffectOf(thread, d).input;
      && (input == Some(Start) <==> d.engine.isRead && Starts(thread, d))
      && (input == Some(Continue) <==> d.engine.isRead && d.engine.isUpdated && Retries(thread, d))
      && (input == Some(Resume) <==> d.engine.isRead && Resumes(thread, d))
  {
    DecisionIsExact(thread, d);
  }

  /** In every run the graph is begun, continued and resumed exactly by the deliveries that ask for it. */
  lemma InputIsExact(run: seq<Delivery>, k: nat)
    requires RunIsValid(run) && k < |run|
    ensures var thread, d, effect := ThreadAfter(run[..k]), run[k], EffectAt(run, k);
      && (effect.input == Some(Start) <==> d.engine.isRead && Starts(thread, d))
      && (effect.input == Some(Continue) <==> d.engine.isRead && d.engine.isUpdated && Retries(thread, d))
      && (effect.input == Some(Resume) <==> d.engine.isRead && Resumes(thread, d))
  {
    ThreadIsConsistent(run[..k]);
    InputOfDelivery(ThreadAfter(run[..k]), run[k]);
  }

  /** The thread was updated with the delivery's binding; what handlers computed is untouched. */
  predicate IsUpdated(thread: Option<Checkpoint>, d: Delivery, after: Option<Checkpoint>) {
    && thread.Some? && after.Some? && after.value.digest == thread.value.digest
    && Binds(after.value.binding, d, LedgerAfter(thread, d))
    && after.value.progress.data == thread.value.progress.data
    && after.value.progress.interrupts == d.engine.updated.interrupts
    && after.value.progress.isFinished == d.engine.updated.isFinished
  }

  /** A delivery that asks for nothing, or whose thread cannot be read or updated, leaves the thread. */
  lemma RefusalIsExact(run: seq<Delivery>, k: nat)
    requires RunIsValid(run) && k < |run|
    ensures var thread, d, effect := ThreadAfter(run[..k]), run[k], EffectAt(run, k);
      && (!d.engine.isRead ==> effect == Effect(thread, None, Interrupted))
      && (d.engine.isRead && !d.engine.isUpdated && (Retries(thread, d) || Recovers(thread, d)) ==>
            effect == Effect(thread, None, Interrupted))
      && (d.engine.isRead && !Starts(thread, d) && !Retries(thread, d) && !Resumes(thread, d)
          && !Replays(thread, d) && !Recovers(thread, d) ==>
            effect == Effect(thread, None, Refused(StateConflict)))
  {
    ThreadIsConsistent(run[..k]);
    DecisionIsExact(ThreadAfter(run[..k]), run[k]);
  }

  /** A replayed delivery is told where its graph stopped, and changes nothing. */
  lemma ReplayIsExact(run: seq<Delivery>, k: nat)
    requires RunIsValid(run) && k < |run| && run[k].engine.isRead && Replays(ThreadAfter(run[..k]), run[k])
    ensures EffectAt(run, k).thread == ThreadAfter(run[..k]) && EffectAt(run, k).input == None
    ensures Tells(ThreadAfter(run[..k]).value.progress, run[k], EffectAt(run, k).outcome)
  {
    ThreadIsConsistent(run[..k]);
    DecisionIsExact(ThreadAfter(run[..k]), run[k]);
    TellingIsExact(ThreadAfter(run[..k]).value.progress, run[k], EffectAt(run, k).outcome);
  }

  /** A later attempt of a finished graph is recorded and told that the graph has finished. */
  lemma RecoveryIsExact(run: seq<Delivery>, k: nat)
    requires RunIsValid(run) && k < |run| && run[k].engine.isRead && run[k].engine.isUpdated
    requires Recovers(ThreadAfter(run[..k]), run[k])
    ensures var d, effect := run[k], EffectAt(run, k);
      && IsUpdated(ThreadAfter(run[..k]), d, effect.thread) && effect.input == None
      && effect.outcome ==
           (if !d.engine.isReread then Interrupted
            else if HasFinished(effect.thread.value.progress) then
              Boundary(Completed, ThreadAfter(run[..k]).value.progress.data, None)
            else Refused(StateConflict))
  {
    ThreadIsConsistent(run[..k]);
    DecisionIsExact(ThreadAfter(run[..k]), run[k]);
    NextBindingBinds(ThreadAfter(run[..k]), run[k]);
  }

  /**
   An invocation: once its input is written, the thread holds the delivery's binding and how far the
   graph came, and the answer is what the engine's ending makes of that; otherwise only the update of a
   retry stays.
   */
  lemma InvocationIsExact(run: seq<Delivery>, k: nat)
    requires RunIsValid(run) && k < |run| && EffectAt(run, k).input.Some?
    ensures var thread, d, effect := ThreadAfter(run[..k]), run[k], EffectAt(run, k);
      && (d.engine.isWritten ==>
            && effect.thread.Some? && Binds(effect.thread.value.binding, d, LedgerAfter(thread, d))
            && effect.thread.value.digest == d.execution.digest
            && effect.thread.value.progress == d.engine.reached
            && TellsAfter(d.engine, d, effect.outcome))
      && (!d.engine.isWritten ==>
            && (if effect.input == Some(Continue) then IsUpdated(thread, d, effect.thread) else effect.thread == thread)
            && effect.outcome == (if d.engine.ending == BrokeContract then Refused(ContractFailure) else Interrupted))
  {
    ThreadIsConsistent(run[..k]);
    DecisionIsExact(ThreadAfter(run[..k]), run[k]);
    NextBindingBinds(ThreadAfter(run[..k]), run[k]);
    EndingIsExact(run[k], EffectAt(run, k).outcome);
  }

  /**
   A delivery counts as a duplicate exactly when it is older than what was recorded, or it is the
   recorded event and its graph has stopped.
   */
  lemma DuplicateIsExact(thread: Option<Checkpoint>, d: Delivery)
    requires Consistent(thread)
    ensures IsDuplicate(thread, d.event, d.execution) <==>
      && thread.Some?
      && (|| d.event.expectedStateVersion < thread.value.binding.event.expectedStateVersion
          || (&& d.event == thread.value.binding.event && !IsRunning(thread.value.progress)
              && thread.value.binding.profileVersionId == d.execution.profileVersionId
              && thread.value.digest == d.execution.digest))
  {
  }
}
