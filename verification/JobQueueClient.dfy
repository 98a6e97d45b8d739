/**
 The queue client's operations. Each is a few server commands in a row and is proved to do on the
 server's lists exactly what the transition system's steps do, whichever command is lost.
 */
module JobQueueClient {
  import opened Wrappers
  import opened JobQueue
  import opened JobQueueBound
  import opened JobQueueOrder

  datatype PopResult = NothingWaiting | Delivered(delivery: Delivery) | Unavailable

  /** A consumer at the given point, whatever happened to other references before. */
  function At(sv: Server, client: Client): System {
    System(sv, client, [], [], [])
  }

  /**
   Where a recovery meets its first failing command, which ends it: the entry being handled and
   whether the command that moves the entry was still applied.
   */
  datatype Outage = NoOutage | Outage(entry: nat, applied: bool)

  function FaultAt(outage: Outage, k: nat): Fault {
    if outage == NoOutage || outage.entry != k then Fine
    else if outage.applied then ReplyLost
    else RequestLost
  }

  /** The recovery of so many entries, and its last look at the empty list, stay clear of the outage. */
  predicate Undisturbed(outage: Outage, entries: nat) {
    outage == NoOutage || outage.entry > entries
  }

  /** How many entries are gone when a recovery ends. */
  function Handled(outage: Outage, entries: nat): (n: nat)
    ensures n <= entries
  {
    if outage == NoOutage || outage.entry >= entries then entries
    else outage.entry + (if outage.applied then 1 else 0)
  }

  class ValkeyJobQueue {
    var connected: bool
    var source: seq<Reference>
    var processing: seq<Reference>
    var attempts: map<JobId, int>
    var deadLetters: seq<Reference>
    var failures: seq<FailureRecord>

    constructor ()
      ensures !connected && Contents() == EMPTY.server
    {
      connected := false;
      source, processing, attempts, deadLetters, failures := [], [], map[], [], [];
    }

    function Contents(): Server
      reads `source, `processing, `attempts, `deadLetters, `failures
    {
      Server(source, processing, attempts, deadLetters, failures)
    }

    /** Takes the oldest reference; poison is dropped, a job's attempt is counted. */
    method Pop(moving: Fault, counting: Fault) returns (r: PopResult)
      modifies `source, `processing, `attempts
      ensures !old(connected) ==> r == Unavailable && Contents() == old(Contents())
      ensures old(connected) ==>
        var after := Next(Next(At(old(Contents()), Ready), Command(moving, false)), Command(counting, false));
        && Contents() == after.server
        && (forall d :: r == Delivered(d) <==> after.client == Holding(d))
        && (r == NothingWaiting <==> moving == Fine && old(source) == [])
      ensures r.Delivered? ==>
        && old(source) == source + [r.delivery.raw] && processing == [r.delivery.raw] + old(processing)
        && r.delivery.raw.job == Some(r.delivery.job)
        && r.delivery.attempt == RecordedAttempts(old(Contents()), r.delivery.job) + 1
        && attempts == old(attempts)[r.delivery.job := r.delivery.attempt]
    {
      if !connected || moving == RequestLost {
        return Unavailable;
      }
      if source == [] {
        return if moving == Fine then NothingWaiting else Unavailable;
      }
      var raw := source[|source| - 1];
      source, processing := source[..|source| - 1], [raw] + processing;
      if moving == ReplyLost {
        return Unavailable;
      }
      if IsPoison(raw) {
        if counting != RequestLost {
          processing := RemoveFirst(processing, raw);
        }
        return Unavailable;
      }
      if counting == RequestLost {
        return Unavailable;
      }
      var job := raw.job.value;
      var attempt := if job in attempts then attempts[job] + 1 else 1;
      attempts := attempts[job := attempt];
      if counting == ReplyLost || attempt < 1 {
        return Unavailable;
      }
      return Delivered(Delivery(raw, job, attempt));
    }

    /** Forgets a finished delivery and its attempts. */
    method Ack(delivery: Delivery, fault: Fault) returns (ok: bool)
      modifies `processing, `attempts
      ensures ok <==> old(connected) && fault == Fine && delivery.raw in old(processing)
      ensures old(connected) ==> Contents() == Next(At(old(Contents()), Holding(delivery)), Command(fault, true)).server
      ensures !old(connected) ==> Contents() == old(Contents())
    {
      if !connected || fault == RequestLost {
        return false;
      }
      var removed := delivery.raw in processing;
      if removed {
        processing, attempts := RemoveFirst(processing, delivery.raw), attempts - {delivery.job};
      }
      return removed && fault == Fine;
    }

    method Quarantine(delivery: Delivery, fault: Fault) returns (ok: bool)
      modifies `processing, `attempts, `deadLetters, `failures
      ensures ok <==> old(connected) && fault == Fine && delivery.raw in old(processing)
      ensures Contents() ==
        if !old(connected) || fault == RequestLost then old(Contents())
        else QuarantineScript(old(Contents()), delivery.raw,
               FailureRecord(delivery.job, delivery.attempt), delivery.job).0
    {
      if !connected || fault == RequestLost {
        return false;
      }
      var removed := delivery.raw in processing;
      if removed {
        processing, attempts := RemoveFirst(processing, delivery.raw), attempts - {delivery.job};
        deadLetters := deadLetters + [delivery.raw];
        failures := failures + [FailureRecord(delivery.job, delivery.attempt)];
      }
      return removed && fault == Fine;
    }

    /** Gives a delivery back: to the end of the queue, or to the dead letters after its last attempt. */
    method Requeue(delivery: Delivery, fault: Fault) returns (ok: bool)
      modifies `source, `processing, `attempts, `deadLetters, `failures
      ensures old(connected) ==> Contents() == Next(At(old(Contents()), Holding(delivery)), Command(fault, false)).server
      ensures !old(connected) ==> Contents() == old(Contents())
      ensures ok <==>
        && old(connected) && fault == Fine
        && (if delivery.attempt >= MAX_DELIVERY_ATTEMPTS then delivery.raw in old(processing)
            else AtLeft(old(Contents()), delivery.raw))
    {
      if delivery.attempt >= MAX_DELIVERY_ATTEMPTS {
        ok := Quarantine(delivery, fault);
        return;
      }
      if !connected || fault == RequestLost || processing == [] {
        return false;
      }
      var moved := processing[0];
      source, processing := [moved] + source, processing[1..];
      return moved == delivery.raw && fault == Fine;
    }

    /** The left end of processing goes to the dead letters when spent, else to the front of the queue. */
    method RecoverRound(fault: Fault) returns (spent: bool)
      requires connected && processing != []
      modifies `source, `processing, `attempts, `deadLetters, `failures
      ensures Contents() == if fault == RequestLost then old(Contents()) else RecoverOne(old(Contents()))
      ensures spent == Spent(old(Contents()), old(processing[0]))
      ensures fault != RequestLost ==> |source| == |old(source)| + if spent then 0 else 1
    {
      var raw := processing[0];
      var attempt := AttemptOf(Contents(), raw);
      spent := Exhausted(raw, attempt);
      if spent {
        var _ := Quarantine(Delivery(raw, raw.job.value, attempt.value), fault);
      } else if fault != RequestLost {
        source, processing := source + [raw], processing[1..];
      }
    }

    /** Empties processing from the left until a command fails. */
    method RecoverStale(outage: Outage) returns (recovered: Option<nat>)
      modifies `source, `processing, `attempts, `deadLetters, `failures
      ensures !old(connected) ==> recovered == None && Contents() == old(Contents())
      ensures old(connected) ==>
        && Contents() == RecoverSome(old(Contents()), Handled(outage, |old(processing)|))
        && (recovered.Some? <==> Undisturbed(outage, |old(processing)|))
        && (recovered.Some? ==>
              && processing == []
              && |source| == |old(source)| + recovered.value)
    {
      if !connected {
        return None;
      }
      var k, count := 0, 0;
      while true
        invariant 0 <= k <= |old(processing)| && connected
        invariant Contents() == RecoverSome(old(Contents()), k)
        invariant |source| == |old(source)| + count
        invariant outage.Outage? ==> k <= outage.entry
        decreases |old(processing)| - k
      {
        var fault := FaultAt(outage, k);
        if processing == [] {
          return if fault == Fine then Some(count) else None;
        }
        RecoverSomeExtends(old(Contents()), k);
        var spent := RecoverRound(fault);
        if fault != Fine {
          return None;
        }
        if !spent {
          count := count + 1;
        }
        k := k + 1;
      }
    }

    /** Connects and recovers what an earlier process left behind; a failure closes the client again. */
    method Open(reachable: bool, outage: Outage) returns (ok: bool)
      modifies this
      ensures ok ==> connected
      ensures old(connected) ==> ok && Contents() == old(Contents())
      ensures !old(connected) ==>
        && connected == ok == (reachable && Undisturbed(outage, |old(processing)|))
        && Contents() == (if reachable then RecoverSome(old(Contents()), Handled(outage, |old(processing)|))
                          else old(Contents()))
    {
      if connected {
        return true;
      }
      if !reachable {
        return false;
      }
      connected := true;
      var recovered := RecoverStale(outage);
      connected := recovered.Some?;
      return connected;
    }
  }
}
