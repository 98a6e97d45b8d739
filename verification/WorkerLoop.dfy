/**
 One turn of the worker loop: take a delivery, process it, and settle it with the queue. A job's
 reference leaves the queue for good only as poison or because processing justified it.
 */
module WorkerLoop {
  import opened Wrappers
  import opened JobQueue
  import opened JobQueueBound
  import opened JobQueueOrder
  import opened JobQueueClient
  import WorkerProcess

  /** How the queue behaves during one turn: the faults of its commands, in order. */
  datatype Weather = Weather(moving: Fault, counting: Fault, settling: Fault, recovering: Outage)

  function Gone(gone: Option<Reference>): seq<Reference> {
    if gone.Some? then [gone.value] else []
  }

  /** The only difference between two states of the queue is the reference that is gone. */
  ghost predicate OnlyGone(before: Server, after: Server, gone: Option<Reference>) {
    forall r :: Held(after, r) + Count(Gone(gone), r) == Held(before, r)
  }

  lemma {:induction false} RecoveryConserves(sv: Server, n: nat, r: Reference)
    requires n <= |sv.processing|
    ensures Held(RecoverSome(sv, n), r) == Held(sv, r)
    decreases n
  {
    if n > 0 {
      var raw := sv.processing[0];
      MovesConserve(sv, r);
      if Spent(sv, raw) {
        QuarantineConserves(sv, raw, FailureRecord(raw.job.value, AttemptOf(sv, raw).value), raw.job.value, r);
      }
      RecoveryConserves(RecoverOne(sv), n - 1, r);
    }
  }

  lemma StepConserves(sys: System, fault: Fault, acknowledge: bool, r: Reference)
    ensures Whereabouts(Next(sys, Command(fault, acknowledge)), r) == Whereabouts(sys, r)
  {
    AnsweredConserves(sys, acknowledge, r);
  }

  /** What taking a delivery may remove: a reference dropped as poison. */
  lemma PopLeaves(sv: Server, moving: Fault, counting: Fault) returns (gone: Option<Reference>)
    ensures var after := Next(Next(At(sv, Ready), Command(moving, false)), Command(counting, false));
      && OnlyGone(sv, after.server, gone)
      && (gone.Some? ==> IsPoison(gone.value) && !after.client.Holding?)
  {
    var first := Next(At(sv, Ready), Command(moving, false));
    var after := Next(first, Command(counting, false));
    gone := if after.discarded == [] then None else Some(after.discarded[0]);
    assert after.discarded == Gone(gone) && after.acknowledged == [];
    forall r ensures Held(after.server, r) + Count(Gone(gone), r) == Held(sv, r) {
      StepConserves(At(sv, Ready), moving, false, r);
      StepConserves(first, counting, false, r);
    }
  }

  /** What settling a delivery may remove: that delivery, and only by acknowledging it. */
  lemma SettlingLeaves(sv: Server, d: Delivery, fault: Fault, acknowledge: bool) returns (gone: Option<Reference>)
    ensures OnlyGone(sv, Next(At(sv, Holding(d)), Command(fault, acknowledge)).server, gone)
    ensures gone.Some? ==> gone.value == d.raw && acknowledge
    ensures fault == Fine && acknowledge && d.raw in sv.processing ==> gone == Some(d.raw)
  {
    var after := Next(At(sv, Holding(d)), Command(fault, acknowledge));
    gone := if after.acknowledged == [] then None else Some(after.acknowledged[0]);
    assert after.acknowledged == Gone(gone) && after.discarded == [];
    forall r ensures Held(after.server, r) + Count(Gone(gone), r) == Held(sv, r) {
      StepConserves(At(sv, Holding(d)), fault, acknowledge, r);
    }
  }

  /** The delivery that a pop under this weather hands out. */
  function DeliveryTaken(sv: Server, weather: Weather): Option<Delivery> {
    var after := Next(Next(At(sv, Ready), Command(weather.moving, false)), Command(weather.counting, false));
    if after.client.Holding? then Some(after.client.delivery) else None
  }

  /** Once a delivery is acknowledged, it and its attempts are gone. */
  predicate IsAcknowledged(before: Server, after: Server, d: Delivery) {
    after == before.(processing := RemoveFirst(before.processing, d.raw), attempts := before.attempts - {d.job})
  }

  /** Once a delivery is given back, it waits behind everything else, or is a dead letter after its third attempt. */
  predicate IsGivenBack(before: Server, after: Server, d: Delivery)
    requires before.processing != []
  {
    if d.attempt >= 3 then
      after == before.(processing := RemoveFirst(before.processing, d.raw), attempts := before.attempts - {d.job},
                       deadLetters := before.deadLetters + [d.raw],
                       failures := before.failures + [FailureRecord(d.job, d.attempt)])
    else after == before.(source := [d.raw] + before.source, processing := before.processing[1..])
  }

  /** What a delivery that is at the left end of processing becomes when its command is answered. */
  lemma SettledIsExact(sv: Server, d: Delivery, acknowledge: bool)
    requires AtLeft(sv, d.raw)
    ensures var after := Next(At(sv, Holding(d)), Command(Fine, acknowledge)).server;
      if acknowledge then IsAcknowledged(sv, after, d) else IsGivenBack(sv, after, d)
  {
  }

  /** The queue after its oldest reference was taken and counted, without faults. */
  function AfterTaking(sv: Server, d: Delivery): Server
    requires sv.source != []
  {
    sv.(source := sv.source[..|sv.source| - 1], processing := [d.raw] + sv.processing,
        attempts := sv.attempts[d.job := d.attempt])
  }

  lemma TakingIsExact(sv: Server, weather: Weather)
    requires weather.moving == Fine && weather.counting == Fine && DeliveryTaken(sv, weather).Some?
    ensures var d := DeliveryTaken(sv, weather).value;
      var after := Next(Next(At(sv, Ready), Command(weather.moving, false)), Command(weather.counting, false));
      && sv.source != [] && d.raw == sv.source[|sv.source| - 1] && d.raw.job == Some(d.job)
      && d.attempt == RecordedAttempts(sv, d.job) + 1
      && after.server == AfterTaking(sv, d)
  {
  }

  class WorkerLoop {
    const queue: ValkeyJobQueue
    const processor: WorkerProcess.JobProcessor

    constructor (queue: ValkeyJobQueue, processor: WorkerProcess.JobProcessor)
      ensures this.queue == queue && this.processor == processor
    {
      this.queue, this.processor := queue, processor;
    }

    /** After a queue failure the loop recovers what may have been left in processing. */
    method Recover(weather: Weather)
      requires queue.connected
      modifies queue`source, queue`processing, queue`attempts, queue`deadLetters, queue`failures
      ensures OnlyGone(old(queue.Contents()), queue.Contents(), None)
    {
      ghost var before := queue.Contents();
      var _ := queue.RecoverStale(weather.recovering);
      forall r ensures Held(queue.Contents(), r) == Held(before, r) {
        RecoveryConserves(before, Handled(weather.recovering, |before.processing|), r);
      }
    }

    /** Settles a processed delivery, and recovers if that fails. */
    method Settle(delivery: Delivery, acknowledge: bool, weather: Weather) returns (ghost gone: Option<Reference>)
      requires queue.connected
      modifies queue
      ensures OnlyGone(old(queue.Contents()), queue.Contents(), gone)
      ensures gone.Some? ==> acknowledge && gone.value == delivery.raw
      ensures weather.settling == Fine && AtLeft(old(queue.Contents()), delivery.raw) ==>
        if acknowledge then gone == Some(delivery.raw) && IsAcknowledged(old(queue.Contents()), queue.Contents(), delivery)
        else IsGivenBack(old(queue.Contents()), queue.Contents(), delivery)
    {
      ghost var before := queue.Contents();
      gone := SettlingLeaves(before, delivery, weather.settling, acknowledge);
      if AtLeft(before, delivery.raw) {
        SettledIsExact(before, delivery, acknowledge);
      }
      var ok: bool;
      if acknowledge {
        ok := queue.Ack(delivery, weather.settling);
      } else {
        ok := queue.Requeue(delivery, weather.settling);
      }
      if !ok {
        Recover(weather);
      }
    }

    /**
     One turn. Everything the queue held it still holds, but for at most one reference, which was
     poison or whose job was processed in this turn with the verdict to acknowledge it.
     */
    method Turn(weather: Weather, w: WorkerProcess.World) returns (ghost gone: Option<Reference>)
      requires queue.connected && processor.maxAttempts >= 1
      modifies queue, processor`calls
      ensures OnlyGone(old(queue.Contents()), queue.Contents(), gone)
      ensures var taken := DeliveryTaken(old(queue.Contents()), weather);
        var processed := WorkerProcess.Processed(w, processor.maxAttempts, processor.maxBackoff);
        && processor.calls == old(processor.calls) + (if taken.Some? then processed.calls else [])
        && (gone.Some? ==>
              || (taken == None && IsPoison(gone.value))
              || (taken.Some? && gone.value == taken.value.raw && processed.verdict == WorkerProcess.Acknowledge))
      ensures var taken := DeliveryTaken(old(queue.Contents()), weather);
        var verdict := WorkerProcess.Processed(w, processor.maxAttempts, processor.maxBackoff).verdict;
        weather.moving == Fine && weather.counting == Fine && weather.settling == Fine && taken.Some? ==>
          && old(queue.source) != []
          && var counted := AfterTaking(old(queue.Contents()), taken.value);
          && (verdict == WorkerProcess.Acknowledge ==>
                gone == Some(taken.value.raw) && IsAcknowledged(counted, queue.Contents(), taken.value))
          && (verdict == WorkerProcess.GiveBack ==> IsGivenBack(counted, queue.Contents(), taken.value))
          && (verdict == WorkerProcess.Propagate ==> queue.Contents() == counted)
    {
      ghost var before := queue.Contents();
      gone := PopLeaves(before, weather.moving, weather.counting);
      if weather.moving == Fine && weather.counting == Fine && DeliveryTaken(before, weather).Some? {
        TakingIsExact(before, weather);
      }
      var popped := queue.Pop(weather.moving, weather.counting);
      match popped
      case NothingWaiting =>
      case Unavailable => Recover(weather);
      case Delivered(delivery) =>
        var verdict := processor.Process(w);
        if verdict != WorkerProcess.Propagate {
          gone := Settle(delivery, verdict == WorkerProcess.Acknowledge, weather);
        }
    }
  }
}
