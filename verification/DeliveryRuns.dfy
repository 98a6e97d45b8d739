/**
 What holds of a job's thread over any sequence of deliveries, whatever the engine answers: the
 ledger only grows, an approval is consumed by an approval only, a finished graph is not run and
 duplicates change nothing.
 */
module DeliveryRuns {
  import opened Wrappers
  import opened Contracts
  import opened DeliveryModel
  import opened DeliveryRunner

  datatype Delivery = Delivery(event: Event, claim: Claim, execution: Execution, engine: Engine)

  predicate DeliveryIsValid(d: Delivery) {
    EventIsValid(d.event) && ClaimIsFor(d.claim, d.event) && ExecutionIsValid(d.execution)
  }

  predicate RunIsValid(run: seq<Delivery>) {
    forall d | d in run :: DeliveryIsValid(d)
  }

  function EffectOf(thread: Option<Checkpoint>, d: Delivery): Effect {
    Deliver(thread, d.event, d.claim, d.execution, d.engine)
  }

  function ThreadAfter(run: seq<Delivery>): Option<Checkpoint> {
    if run == [] then None else EffectOf(ThreadAfter(run[..|run| - 1]), run[|run| - 1]).thread
  }

  function EffectAt(run: seq<Delivery>, k: nat): Effect
    requires k < |run|
  {
    EffectOf(ThreadAfter(run[..k]), run[k])
  }

  // --- the ledger ---

  /** What every recorded binding satisfies. */
  predicate BindingIsSound(binding: Binding) {
    && LedgerIsValid(binding.ledger)
    && binding.ledger.eventIds[|binding.ledger.eventIds| - 1] == binding.event.eventId
    && binding.ledger.maxStateVersion == binding.event.expectedStateVersion
    && ClaimIsFor(binding.claim, binding.event)
    && binding.stateVersion == binding.claim.stateVersion
    && binding.jobId == binding.event.jobId && binding.traceId == binding.event.traceId
    && binding.executionAttempt >= 1
  }

  predicate Consistent(thread: Option<Checkpoint>) {
    thread.Some? ==> BindingIsSound(thread.value.binding)
  }

  /** How a checkpoint may relate to an earlier one. */
  predicate Continues(before: Option<Checkpoint>, after: Option<Checkpoint>) {
    before.Some? ==>
      && after.Some?
      && var was, now := before.value.binding, after.value.binding;
      && now.jobId == was.jobId && now.traceId == was.traceId && now.profileVersionId == was.profileVersionId
      && after.value.digest == before.value.digest
      && now.executionAttempt >= was.executionAttempt
      && now.ledger.maxStateVersion >= was.ledger.maxStateVersion
      && (now.ledger.maxStateVersion == was.ledger.maxStateVersion ==>
            && now.ledger == was.ledger && now.event == was.event
            && now.executionAttempt == was.executionAttempt)
  }

  /** The delivery was recorded under a version of its own. */
  predicate Recorded(before: Option<Checkpoint>, after: Option<Checkpoint>) {
    && after.Some?
    && (before.Some? ==> after.value.binding.ledger.maxStateVersion != before.value.binding.ledger.maxStateVersion)
  }

  /** The binding that a decision would write. */
  function Written(decision: Decision): Option<Binding> {
    match decision
    case Refuse(_) => None
    case Replay => None
    case Begin(binding) => Some(binding)
    case Retry(binding) => Some(binding)
    case Approve(binding) => Some(binding)
    case RecoverCompleted(binding) => Some(binding)
  }

  /** A delivery leaves the thread's binding and digest alone, or writes those of its decision. */
  lemma OnlyDecidedIsWritten(thread: Option<Checkpoint>, d: Delivery)
    ensures var after, written := EffectOf(thread, d).thread, Written(Decide(thread, d.event, d.claim, d.execution));
      || after == thread
      || (&& written.Some? && after.Some? && after.value.binding == written.value
          && after.value.digest == if thread.Some? then thread.value.digest else d.execution.digest)
  {
  }

  /** What a decision writes is sound, continues the thread and extends its ledger or keeps it. */
  lemma DecidedIsSound(thread: Option<Checkpoint>, d: Delivery)
    requires DeliveryIsValid(d) && Consistent(thread)
    requires Written(Decide(thread, d.event, d.claim, d.execution)).Some?
    ensures var binding := Written(Decide(thread, d.event, d.claim, d.execution)).value;
      && BindingIsSound(binding) && binding.event == d.event
      && (thread == None ==> binding.ledger.eventIds == [d.event.eventId])
      && (thread.Some? ==>
            var was := thread.value.binding;
            && SameIdentity(thread.value, d.event, d.execution)
            && binding.jobId == was.jobId && binding.traceId == was.traceId
            && binding.profileVersionId == was.profileVersionId
            && binding.executionAttempt >= was.executionAttempt
            && (if binding.ledger.maxStateVersion == was.ledger.maxStateVersion
                then binding.ledger == was.ledger && was.event == d.event
                     && binding.executionAttempt == was.executionAttempt
                else binding.ledger.maxStateVersion > was.ledger.maxStateVersion
                     && binding.ledger == Extended(was.ledger, d.event)))
  {
  }

  lemma OneDelivery(thread: Option<Checkpoint>, d: Delivery)
    requires DeliveryIsValid(d) && Consistent(thread)
    ensures var after := EffectOf(thread, d).thread;
      && Consistent(after) && Continues(thread, after)
      && (Recorded(thread, after) ==>
            && after.value.binding.event == d.event
            && (thread.Some? ==> after.value.binding.ledger == Extended(thread.value.binding.ledger, d.event))
            && (thread == None ==> after.value.binding.ledger.eventIds == [d.event.eventId]))
  {
    OnlyDecidedIsWritten(thread, d);
    if EffectOf(thread, d).thread != thread {
      DecidedIsSound(thread, d);
    }
  }

  lemma {:induction false} ThreadIsConsistent(run: seq<Delivery>)
    requires RunIsValid(run)
    ensures Consistent(ThreadAfter(run))
    decreases |run|
  {
    if run != [] {
      ThreadIsConsistent(run[..|run| - 1]);
      OneDelivery(ThreadAfter(run[..|run| - 1]), run[|run| - 1]);
    }
  }

  /**
   The ledger over any run: between two moments the job, trace, profile version and digest stay, the
   execution attempt and the highest state version never fall, and an unchanged version means an
   unchanged ledger and recorded event.
   */
  lemma {:induction false} LedgerOnlyGrows(run: seq<Delivery>, i: nat)
    requires RunIsValid(run) && i <= |run|
    ensures Consistent(ThreadAfter(run)) && Continues(ThreadAfter(run[..i]), ThreadAfter(run))
    decreases |run|
  {
    ThreadIsConsistent(run);
    if i == |run| {
      assert run[..i] == run;
    } else {
      var front := run[..|run| - 1];
      LedgerOnlyGrows(front, i);
      assert front[..i] == run[..i];
      OneDelivery(ThreadAfter(front), run[|run| - 1]);
    }
  }

  /** The ids of all deliveries recorded under a version of their own, in order. */
  function RecordedIds(run: seq<Delivery>): seq<string> {
    if run == [] then []
    else
      var front, last := run[..|run| - 1], run[|run| - 1];
      RecordedIds(front) +
      (if Recorded(ThreadAfter(front), ThreadAfter(run)) then [last.event.eventId] else [])
  }

  /** The ledger of a thread, if it exists, lists the last hundred of these ids. */
  predicate Lists(thread: Option<Checkpoint>, ids: seq<string>) {
    match thread
    case None => ids == []
    case Some(checkpoint) => checkpoint.binding.ledger.eventIds == LastHundred(ids)
  }

  lemma ListingContinues(before: Option<Checkpoint>, after: Option<Checkpoint>, ids: seq<string>, event: Event)
    requires Lists(before, ids) && Continues(before, after)
    requires Recorded(before, after) ==>
      if before == None then after.value.binding.ledger.eventIds == [event.eventId]
      else after.value.binding.ledger == Extended(before.value.binding.ledger, event)
    ensures Lists(after, ids + (if Recorded(before, after) then [event.eventId] else []))
  {
  }

  /** The ledger lists exactly the last hundred recorded deliveries. */
  lemma {:induction false} LedgerListsLatest(run: seq<Delivery>)
    requires RunIsValid(run)
    ensures Lists(ThreadAfter(run), RecordedIds(run))
    decreases |run|
  {
    if run != [] {
      var front, last := run[..|run| - 1], run[|run| - 1];
      LedgerListsLatest(front);
      ThreadIsConsistent(front);
      OneDelivery(ThreadAfter(front), last);
      ListingContinues(ThreadAfter(front), ThreadAfter(run), RecordedIds(front), last.event);
    }
  }

  /** The claim as its lease was extended or its resume flag refreshed. */
  predicate SameAuthority(a: Claim, b: Claim) {
    b == a.(leaseExpiresAt := b.leaseExpiresAt, resume := b.resume)
  }

  /**
   A delivery that is not recorded under a version of its own leaves the binding as it is, but for
   the refreshed lease of the same claim.
   */
  lemma RepeatKeepsBinding(thread: Option<Checkpoint>, d: Delivery)
    requires DeliveryIsValid(d) && Consistent(thread) && thread.Some? && IsProfileBound(thread.value.binding.event)
    requires !Recorded(thread, EffectOf(thread, d).thread)
    ensures var was, now := thread.value.binding, EffectOf(thread, d).thread.value.binding;
      now == was.(claim := now.claim) && SameAuthority(was.claim, now.claim)
  {
    OneDelivery(thread, d);
    var decision := Decide(thread, d.event, d.claim, d.execution);
    if decision.Approve? || decision.RecoverCompleted? {
      assert d.event.expectedStateVersion > thread.value.binding.ledger.maxStateVersion;
    }
  }

  // --- approvals ---

  /** A waiting approval is the only thing a resume can be for, and a newer delivery its only carrier. */
  predicate IsApproval(thread: Option<Checkpoint>, d: Delivery) {
    && thread.Some?
    && SameIdentity(thread.value, d.event, d.execution)
    && PhaseOf(thread.value.progress) == WaitingApproval
    && d.claim.resume
    && d.execution.executionAttempt == thread.value.binding.executionAttempt
    && d.event.expectedStateVersion > thread.value.binding.ledger.maxStateVersion
  }

  /** In every run the graph is resumed exactly by approvals. */
  lemma ResumeIsApproval(run: seq<Delivery>, k: nat)
    requires RunIsValid(run) && k < |run|
    ensures EffectAt(run, k).input == Some(Resume) <==> run[k].engine.isRead && IsApproval(ThreadAfter(run[..k]), run[k])
  {
    ThreadIsConsistent(run[..k]);
  }

  /** An approval that reached the checkpoint is not applied again: a later one has a newer version. */
  lemma ApprovalsAreDistinct(run: seq<Delivery>, i: nat, j: nat)
    requires RunIsValid(run) && i < j < |run|
    requires EffectAt(run, i).input == Some(Resume) && run[i].engine.isWritten
    requires EffectAt(run, j).input == Some(Resume)
    ensures run[i].event.expectedStateVersion < run[j].event.expectedStateVersion
  {
    assert run[..i + 1][..i] == run[..i];
    assert run[..j][..i + 1] == run[..i + 1];
    LedgerOnlyGrows(run[..j], i + 1);
    ResumeIsApproval(run, j);
    ResumeIsApproval(run, i);
    assert ThreadAfter(run[..i + 1]) == EffectAt(run, i).thread;
  }

  /**
   What the worker loop is told to wait for is the one interrupt of the checkpoint, and it names the
   job, trace, profile version and state version that the checkpoint is bound to.
   */
  lemma PendingApprovalIsCurrent(thread: Option<Checkpoint>, d: Delivery)
    requires DeliveryIsValid(d) && Consistent(thread)
    requires EffectOf(thread, d).outcome.Boundary? && EffectOf(thread, d).outcome.phase == WaitingApproval
    ensures var item, after := EffectOf(thread, d).outcome.approval, EffectOf(thread, d).thread;
      && item.Some? && after.Some? && after.value.progress.interrupts == [item.value]
      && item.value.jobId == after.value.binding.jobId && item.value.traceId == after.value.binding.traceId
      && item.value.profileVersionId == after.value.binding.profileVersionId
      && item.value.stateVersion == after.value.binding.stateVersion
      && item.value.nodeId == item.value.task
  {
    OneDelivery(thread, d);
    var interrupts := EffectOf(thread, d).thread.value.progress.interrupts;
    assert interrupts == [interrupts[0]];
  }

  // --- finished graphs ---

  /** No delivery runs a finished graph, and what its handlers computed stays. */
  lemma FinishedRunsNothing(thread: Option<Checkpoint>, d: Delivery)
    requires thread.Some? && PhaseOf(thread.value.progress) == Completed
    ensures EffectOf(thread, d).input == None
    ensures EffectOf(thread, d).thread.Some?
    ensures EffectOf(thread, d).thread.value.progress.data == thread.value.progress.data
  {
  }

  // --- duplicates ---

  /** A duplicate changes nothing and runs nothing: it is answered from the checkpoint, or refused. */
  lemma DuplicateRunsNothing(thread: Option<Checkpoint>, d: Delivery)
    requires IsDuplicate(thread, d.event, d.execution) && d.engine.isRead
    ensures EffectOf(thread, d).thread == thread && EffectOf(thread, d).input == None
    ensures !EffectOf(thread, d).outcome.Interrupted?
  {
  }

  /** The checkpoint holds this very delivery, and its graph has stopped. */
  predicate Holds(checkpoint: Checkpoint, d: Delivery) {
    && SameIdentity(checkpoint, d.event, d.execution)
    && LedgerIsValid(checkpoint.binding.ledger) && IsSameDelivery(checkpoint.binding.ledger, d.event)
    && RecoversDelivery(checkpoint.binding, d.event, d.claim, d.execution)
    && PhaseOf(checkpoint.progress) != Running
  }

  /** A delivery that reached a boundary was recorded, and answered with where its graph stopped. */
  lemma AnswerIsHeld(thread: Option<Checkpoint>, d: Delivery)
    requires DeliveryIsValid(d) && Consistent(thread)
    requires EffectOf(thread, d).outcome.Boundary?
    ensures var first := EffectOf(thread, d);
      && first.thread.Some? && Holds(first.thread.value, d)
      && first.outcome == BoundaryOf(first.thread.value.progress, d.event, d.claim, d.execution)
  {
    OneDelivery(thread, d);
  }

  /** A delivery that reached a boundary is a duplicate from then on. */
  lemma AnsweredIsDuplicate(thread: Option<Checkpoint>, d: Delivery)
    requires DeliveryIsValid(d) && Consistent(thread)
    requires EffectOf(thread, d).outcome.Boundary?
    ensures IsDuplicate(EffectOf(thread, d).thread, d.event, d.execution)
  {
    AnswerIsHeld(thread, d);
  }

  /** The same delivery under the same authority is replayed. */
  lemma HeldIsReplayed(checkpoint: Checkpoint, d: Delivery, claim: Claim, engine: Engine)
    requires Holds(checkpoint, d) && ClaimIsFor(claim, d.event) && ClaimIsFor(d.claim, d.event) && engine.isRead
    requires claim.leaseId == d.claim.leaseId && claim.stateVersion == d.claim.stateVersion
    requires claim.snapshot == d.claim.snapshot
    ensures Deliver(Some(checkpoint), d.event, claim, d.execution, engine)
      == Effect(Some(checkpoint), None, BoundaryOf(checkpoint.progress, d.event, claim, d.execution))
    ensures BoundaryOf(checkpoint.progress, d.event, claim, d.execution)
      == BoundaryOf(checkpoint.progress, d.event, d.claim, d.execution)
  {
  }

  /**
   Replay: repeating an answered delivery under the same lease, version and snapshot gives the same
   answer - its pending approval included - and leaves the thread alone.
   */
  lemma ReplayRepeatsAnswer(thread: Option<Checkpoint>, d: Delivery, claim: Claim, engine: Engine)
    requires DeliveryIsValid(d) && Consistent(thread) && ClaimIsFor(claim, d.event) && engine.isRead
    requires EffectOf(thread, d).outcome.Boundary?
    requires claim.leaseId == d.claim.leaseId && claim.stateVersion == d.claim.stateVersion
    requires claim.snapshot == d.claim.snapshot
    ensures var first := EffectOf(thread, d);
      Deliver(first.thread, d.event, claim, d.execution, engine) == Effect(first.thread, None, first.outcome)
  {
    AnswerIsHeld(thread, d);
    HeldIsReplayed(EffectOf(thread, d).thread.value, d, claim, engine);
  }
}
