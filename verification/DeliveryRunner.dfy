/**
 The snapshot runner: a job's thread of checkpoints, changed by atomic state updates and by running
 the graph. What the graph engine and the store answer is arbitrary.
 */
module DeliveryRunner {
  import opened Wrappers
  import opened Contracts
  import opened DeliveryModel

  /** How a graph invocation ends. */
  datatype Ending = Returned | BrokeContract | Failed

  /**
   The engine's answers to one delivery: whether reading the thread and updating it succeed and how
   an update leaves the graph's position, then whether an invocation writes its input, how far the
   graph comes, how it ends, and whether its last state can be read.
   */
  datatype Engine = Engine(
    isRead: bool, isUpdated: bool, updated: Progress, isReread: bool,
    isWritten: bool, reached: Progress, ending: Ending, isObserved: bool)

  /** The thread after a delivery, what the graph was invoked with, and the outcome. */
  datatype Effect = Effect(thread: Option<Checkpoint>, input: Option<Input>, outcome: Outcome)

  /** An update does not touch what handlers computed. */
  function Updated(checkpoint: Checkpoint, binding: Binding, engine: Engine): Checkpoint {
    Checkpoint(binding, checkpoint.digest, engine.updated.(data := checkpoint.progress.data))
  }

  function AfterGraph(engine: Engine, event: Event, claim: Claim, execution: Execution): Outcome {
    if engine.ending == BrokeContract then Refused(ContractFailure)
    else if engine.ending == Failed || !engine.isObserved then Interrupted
    else if PhaseOf(engine.reached) == Running then Refused(StateConflict)
    else BoundaryOf(engine.reached, event, claim, execution)
  }

  function Ran(written: Checkpoint, before: Option<Checkpoint>, input: Input,
               event: Event, claim: Claim, execution: Execution, engine: Engine): Effect {
    if engine.isWritten then
      Effect(Some(written.(progress := engine.reached)), Some(input), AfterGraph(engine, event, claim, execution))
    else
      Effect(before, Some(input), if engine.ending == BrokeContract then Refused(ContractFailure) else Interrupted)
  }

  /** What one delivery does. */
  function Deliver(thread: Option<Checkpoint>, event: Event, claim: Claim, execution: Execution, engine: Engine): Effect {
    if !engine.isRead then Effect(thread, None, Interrupted)
    else
      match Decide(thread, event, claim, execution)
      case Refuse(code) => Effect(thread, None, Refused(code))
      case Replay => Effect(thread, None, BoundaryOf(thread.value.progress, event, claim, execution))
      case Begin(binding) =>
        Ran(Checkpoint(binding, execution.digest, Progress(execution.context, [], false)), None, Start,
            event, claim, execution, engine)
      case Approve(binding) =>
        Ran(thread.value.(binding := binding), thread, Resume, event, claim, execution, engine)
      case Retry(binding) =>
        if !engine.isUpdated then Effect(thread, None, Interrupted)
        else
          var updated := Updated(thread.value, binding, engine);
          Ran(updated, Some(updated), Continue, event, claim, execution, engine)
      case RecoverCompleted(binding) =>
        if !engine.isUpdated then Effect(thread, None, Interrupted)
        else
          var updated := Updated(thread.value, binding, engine);
          Effect(Some(updated), None,
                 if !engine.isReread then Interrupted
                 else if PhaseOf(updated.progress) != Completed then Refused(StateConflict)
                 else Boundary(Completed, updated.progress.data, None))
  }

  class SnapshotGraphRunner {
    var thread: Option<Checkpoint>
    var inputs: seq<Input>

    constructor ()
      ensures thread == None && inputs == []
    {
      thread, inputs := None, [];
    }

    /** Whether the runner already has an answer for the event. */
    method Duplicates(event: Event, execution: Execution) returns (duplicate: bool)
      ensures duplicate <==> IsDuplicate(thread, event, execution)
    {
      if thread == None {
        return false;
      }
      var checkpoint := thread.value;
      var ledger := checkpoint.binding.ledger;
      if !LedgerIsValid(ledger) {
        return false;
      }
      if event.expectedStateVersion < ledger.maxStateVersion {
        return true;
      }
      if || checkpoint.binding.profileVersionId != execution.profileVersionId
         || checkpoint.digest != execution.digest
         || event.expectedStateVersion != ledger.maxStateVersion
         || event.eventId !in ledger.eventIds
         || PhaseOf(checkpoint.progress) !in {WaitingApproval, Completed}
      {
        return false;
      }
      return checkpoint.binding.event == event;
    }

    /** Writes a binding, all of it or nothing. */
    method UpdateState(binding: Binding, engine: Engine) returns (ok: bool)
      requires thread.Some?
      modifies `thread
      ensures ok == engine.isUpdated
      ensures thread == if ok then Some(Updated(old(thread).value, binding, engine)) else old(thread)
    {
      if engine.isUpdated {
        thread := Some(Updated(thread.value, binding, engine));
      }
      return engine.isUpdated;
    }

    /** Runs the graph on what the thread holds once the input is written. */
    method InvokeGraph(input: Input, written: Checkpoint,
                       event: Event, claim: Claim, execution: Execution, engine: Engine) returns (outcome: Outcome)
      modifies `thread, `inputs
      ensures inputs == old(inputs) + [input]
      ensures Effect(thread, Some(input), outcome) == Ran(written, old(thread), input, event, claim, execution, engine)
    {
      inputs := inputs + [input];
      if engine.isWritten {
        thread := Some(written.(progress := engine.reached));
      }
      if engine.ending == BrokeContract {
        return Refused(ContractFailure);
      }
      if engine.ending == Failed || !engine.isWritten || !engine.isObserved {
        return Interrupted;
      }
      if PhaseOf(engine.reached) !in {WaitingApproval, Completed} {
        return Refused(StateConflict);
      }
      return BoundaryOf(engine.reached, event, claim, execution);
    }

    /** Records a delivery for a finished graph and reads it back; the graph does not run. */
    method RecoverCompletedCheckpoint(binding: Binding, event: Event, claim: Claim, execution: Execution, engine: Engine)
      returns (outcome: Outcome)
      requires thread.Some? && SameIdentity(thread.value, event, execution) && ClaimIsFor(claim, event)
      requires exists ledger :: binding == Bind(event, claim, execution, ledger) && LedgerIsValid(ledger)
      modifies `thread
      ensures thread == if engine.isUpdated then Some(Updated(old(thread).value, binding, engine)) else old(thread)
      ensures outcome ==
        if !engine.isUpdated || !engine.isReread then Interrupted
        else if PhaseOf(engine.updated) != Completed then Refused(StateConflict)
        else Boundary(Completed, old(thread).value.progress.data, None)
    {
      var ok := UpdateState(binding, engine);
      if !ok || !engine.isReread {
        return Interrupted;
      }
      var checkpoint := thread.value;
      if PhaseOf(checkpoint.progress) != Completed || !SameIdentity(checkpoint, event, execution) {
        return Refused(StateConflict);
      }
      if checkpoint.binding.ledger != binding.ledger || !RecoversDelivery(checkpoint.binding, event, claim, execution) {
        return Refused(StateConflict);
      }
      return Boundary(Completed, checkpoint.progress.data, None);
    }

    method Invoke(event: Event, claim: Claim, execution: Execution, engine: Engine) returns (outcome: Outcome)
      requires EventIsValid(event) && ClaimIsFor(claim, event) && ExecutionIsValid(execution)
      modifies this
      ensures var effect := Deliver(old(thread), event, claim, execution, engine);
        && thread == effect.thread && outcome == effect.outcome
        && inputs == old(inputs) + (if effect.input.Some? then [effect.input.value] else [])
    {
      if !engine.isRead {
        return Interrupted;
      }
      if thread == None {
        if claim.resume {
          return Refused(StateConflict);
        }
        var binding := Bind(event, claim, execution, Ledger([event.eventId], event.expectedStateVersion));
        outcome := InvokeGraph(
          Start, Checkpoint(binding, execution.digest, Progress(execution.context, [], false)),
          event, claim, execution, engine);
        return;
      }
      var checkpoint := thread.value;
      var recorded, ledger, phase := checkpoint.binding, checkpoint.binding.ledger, PhaseOf(checkpoint.progress);
      if !SameIdentity(checkpoint, event, execution) || !LedgerIsValid(ledger) {
        return Refused(StateConflict);
      }
      if event.expectedStateVersion == ledger.maxStateVersion && event.eventId in ledger.eventIds {
        if !RecoversDelivery(recorded, event, claim, execution) {
          return Refused(StateConflict);
        }
        if phase in {WaitingApproval, Completed} {
          return BoundaryOf(checkpoint.progress, event, claim, execution);
        }
        outcome := RetryWith(Bind(event, claim, execution, ledger), event, claim, execution, engine);
        return;
      }
      if event.expectedStateVersion <= ledger.maxStateVersion {
        return Refused(StateConflict);
      }
      var attempt := recorded.executionAttempt;
      if attempt < 1 || execution.executionAttempt < attempt {
        return Refused(StateConflict);
      }
      if execution.executionAttempt == attempt && (phase != WaitingApproval || !claim.resume) {
        return Refused(StateConflict);
      }
      var binding := Bind(event, claim, execution, Extended(ledger, event));
      if phase == Completed {
        outcome := RecoverCompletedCheckpoint(binding, event, claim, execution, engine);
      } else if phase == WaitingApproval && execution.executionAttempt == attempt {
        outcome := InvokeGraph(
          Resume, checkpoint.(binding := binding), event, claim, execution, engine);
      } else {
        outcome := RetryWith(binding, event, claim, execution, engine);
      }
    }

    /** Writes a binding and lets the graph go on from where it stopped. */
    method RetryWith(binding: Binding, event: Event, claim: Claim, execution: Execution, engine: Engine)
      returns (outcome: Outcome)
      requires thread.Some?
      modifies `thread, `inputs
      ensures !engine.isUpdated ==> thread == old(thread) && inputs == old(inputs) && outcome == Interrupted
      ensures engine.isUpdated ==>
        var updated := Updated(old(thread).value, binding, engine);
        && inputs == old(inputs) + [Continue]
        && Effect(thread, Some(Continue), outcome) ==
           Ran(updated, Some(updated), Continue, event, claim, execution, engine)
    {
      var ok := UpdateState(binding, engine);
      if !ok {
        return Interrupted;
      }
      outcome := InvokeGraph(Continue, thread.value, event, claim, execution, engine);
    }
  }
}
