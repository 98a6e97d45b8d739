/**
 The lease heartbeat: the worker loop starts, checks and stops leases while one thread per lease
 renews it. Every section under the manager's lock is one atomic action; actions of all threads
 interleave in any order, and a stopped thread may still be waiting for its last answer.
 */
module LeaseHeartbeat {
  import opened Wrappers
  import opened Contracts

  /** Where a record's thread is. */
  datatype Phase = Created | Sleeping | Calling | Ended

  datatype LeaseRecord = LeaseRecord(
    claim: Claim, expiresAt: int, isStopping: bool, lostCode: Option<string>, phase: Phase)

  /** All records ever made, which of them is current for a job, and the time. */
  datatype Manager = Manager(store: seq<LeaseRecord>, current: map<string, nat>, now: int)

  const EMPTY := Manager([], map[], 0)

  /** What the control plane answers to a heartbeat. */
  datatype Reply = Granted(expiresAt: int) | Rejected(code: string, retryable: bool) | Failed

  datatype Action =
    | SetTime(now: int)
    | Register(claim: Claim)            // start: the new record becomes the job's current one
    | Launch(record: nat)               // start: its thread begins to wait
    | Detach(jobId: string)             // stop: the job has no current record any more
    | Signal(record: nat)               // stop: a detached record's thread is told to stop
    | Wake(record: nat)                 // a thread's wait is over
    | Receive(record: nat, reply: Reply)  // a thread gets its answer

  predicate IsCurrent(m: Manager, record: nat) {
    record < |m.store| && m.store[record].claim.jobId in m.current
    && m.current[m.store[record].claim.jobId] == record
  }

  /** The record after its thread handled an answer. */
  function Handled(m: Manager, record: nat, reply: Reply): LeaseRecord
    requires record < |m.store|
  {
    var r := m.store[record];
    match reply
    case Granted(expiresAt) =>
      if IsCurrent(m, record) then r.(expiresAt := expiresAt, phase := Sleeping) else r.(phase := Sleeping)
    case Rejected(code, retryable) =>
      if !IsCurrent(m, record) then r.(phase := Ended)
      else if !retryable || r.expiresAt <= m.now then r.(lostCode := Some(code), phase := Ended)
      else r.(phase := Sleeping)
    case Failed =>
      if IsCurrent(m, record) && r.expiresAt <= m.now then
        r.(lostCode := Some("INTERNAL_TRANSIENT_ERROR"), phase := Ended)
      else r.(phase := Sleeping)
  }

  function NewRecord(claim: Claim): LeaseRecord {
    LeaseRecord(claim, claim.leaseExpiresAt, false, None, Created)
  }

  /** One atomic action; one that is not possible changes nothing. */
  function Next(m: Manager, action: Action): Manager {
    match action
    case SetTime(now) => m.(now := now)
    case Register(claim) =>
      m.(store := m.store + [NewRecord(claim)], current := m.current[claim.jobId := |m.store|])
    case Launch(record) =>
      if record < |m.store| && m.store[record].phase == Created
      then m.(store := m.store[record := m.store[record].(phase := Sleeping)])
      else m
    case Detach(jobId) => m.(current := m.current - {jobId})
    case Signal(record) =>
      if record < |m.store| && !IsCurrent(m, record)
      then m.(store := m.store[record := m.store[record].(isStopping := true)])
      else m
    case Wake(record) =>
      if record < |m.store| && m.store[record].phase == Sleeping
      then m.(store := m.store[record := m.store[record].(phase := if m.store[record].isStopping then Ended else Calling)])
      else m
    case Receive(record, reply) =>
      if record < |m.store| && m.store[record].phase == Calling
      then m.(store := m.store[record := Handled(m, record, reply)])
      else m
  }

  function Run(actions: seq<Action>): Manager {
    if actions == [] then EMPTY else Next(Run(actions[..|actions| - 1]), actions[|actions| - 1])
  }

  /** A job's lease is stopped: its record is detached and its thread told to stop. */
  function Stopped(m: Manager, jobId: string): Manager {
    var detached := Next(m, Detach(jobId));
    if jobId in m.current then Next(detached, Signal(m.current[jobId])) else detached
  }

  const CONFLICT := "JOB_STATE_VERSION_CONFLICT"

  /** What a check of a claim finds: nothing, or why the lease is lost. */
  function Check(m: Manager, claim: Claim): Option<string> {
    if claim.jobId !in m.current || m.current[claim.jobId] >= |m.store| then Some(CONFLICT)
    else
      var r := m.store[m.current[claim.jobId]];
      if r.claim.leaseId != claim.leaseId then Some(CONFLICT)
      else if r.lostCode.Some? then r.lostCode
      else if r.expiresAt <= m.now then Some(CONFLICT)
      else None
  }

  class LeaseHeartbeatManager {
    var store: seq<LeaseRecord>
    var current: map<string, nat>
    var now: int

    constructor ()
      ensures State() == EMPTY
    {
      store, current, now := [], map[], 0;
    }

    function State(): Manager
      reads this
    {
      Manager(store, current, now)
    }

    /** Raises unless the claim's lease is the job's current one, neither lost nor expired. */
    method EnsureCurrent(claim: Claim) returns (lost: Option<string>)
      ensures lost == Check(State(), claim)
    {
      if claim.jobId !in current || current[claim.jobId] >= |store| {
        return Some(CONFLICT);
      }
      var record := store[current[claim.jobId]];
      if record.claim.leaseId != claim.leaseId {
        return Some(CONFLICT);
      }
      var expired := record.expiresAt <= now;
      if record.lostCode.Some? || expired {
        return Some(if record.lostCode.Some? then record.lostCode.value else CONFLICT);
      }
      return None;
    }

    /** Takes the job's record away and tells its thread to stop. */
    method Stop(jobId: string)
      requires Sound(State())
      modifies this
      ensures Sound(State())
      ensures State() == Stopped(old(State()), jobId)
      ensures jobId !in current && now == old(now) && |store| == |old(store)|
      ensures jobId in old(current) ==> store[old(current[jobId])].isStopping
    {
      if jobId !in current {
        assert current - {jobId} == current;
        return;
      }
      var record := current[jobId];
      current := current - {jobId};
      if record < |store| {
        store := store[record := store[record].(isStopping := true)];
      }
    }

    /** Replaces the job's record by one for the claim and starts its thread. */
    method Start(claim: Claim) returns (record: nat)
      requires Sound(State())
      modifies this
      ensures Sound(State())
      ensures record == |old(store)| && IsCurrent(State(), record)
      ensures State() == Next(Next(Stopped(old(State()), claim.jobId), Register(claim)), Launch(record))
    {
      Stop(claim.jobId);
      record := |store|;
      store, current := store + [NewRecord(claim)], current[claim.jobId := record];
      store := store[record := store[record].(phase := Sleeping)];
    }

    /** A thread handles the answer to its heartbeat. */
    method OnReply(record: nat, reply: Reply)
      requires record < |store| && store[record].phase == Calling
      modifies `store
      ensures State() == Next(old(State()), Receive(record, reply))
    {
      var r := store[record];
      var isCurrent := r.claim.jobId in current && current[r.claim.jobId] == record;
      match reply {
        case Granted(expiresAt) =>
          if isCurrent {
            r := r.(expiresAt := expiresAt);
          }
          r := r.(phase := Sleeping);
        case Rejected(code, retryable) =>
          if !isCurrent {
            r := r.(phase := Ended);
          } else if !retryable || r.expiresAt <= now {
            r := r.(lostCode := Some(code), phase := Ended);
          } else {
            r := r.(phase := Sleeping);
          }
        case Failed =>
          if isCurrent && r.expiresAt <= now {
            r := r.(lostCode := Some("INTERNAL_TRANSIENT_ERROR"), phase := Ended);
          } else {
            r := r.(phase := Sleeping);
          }
      }
      store := store[record := r];
    }
  }

  // --- every interleaving ---

  /** Current records belong to their jobs, and only ended threads leave lost records behind. */
  ghost predicate Sound(m: Manager) {
    && (forall jobId | jobId in m.current :: m.current[jobId] < |m.store| && m.store[m.current[jobId]].claim.jobId == jobId)
    && (forall k | 0 <= k < |m.store| :: m.store[k].lostCode.Some? ==> m.store[k].phase == Ended)
  }

  /** How a record may have changed between two moments. */
  ghost predicate Evolves(before: Manager, after: Manager, record: nat) {
    record < |before.store| ==>
      && record < |after.store|
      && var was, now := before.store[record], after.store[record];
      && now.claim == was.claim
      && (was.lostCode.Some? ==> now.lostCode == was.lostCode && now.expiresAt == was.expiresAt)
      && (!IsCurrent(before, record) ==>
            !IsCurrent(after, record) && now.expiresAt == was.expiresAt && now.lostCode == was.lostCode)
  }

  lemma StepStaysSound(m: Manager, action: Action)
    requires Sound(m)
    ensures Sound(Next(m, action))
  {
  }

  lemma StepEvolves(m: Manager, action: Action, record: nat)
    requires Sound(m)
    ensures Evolves(m, Next(m, action), record)
  {
  }

  lemma {:induction false} RunIsSound(actions: seq<Action>)
    ensures Sound(Run(actions))
    decreases |actions|
  {
    if actions != [] {
      RunIsSound(actions[..|actions| - 1]);
      StepStaysSound(Run(actions[..|actions| - 1]), actions[|actions| - 1]);
    }
  }

  /**
   A lost lease is never revived, and a record that was replaced or stopped stays as it was: it never
   becomes current again, is neither renewed nor marked lost, and so cannot be mistaken for its
   successor.
   */
  lemma {:induction false} RecordsOnlyAge(actions: seq<Action>, i: nat, record: nat)
    requires i <= |actions|
    ensures Evolves(Run(actions[..i]), Run(actions), record)
    decreases |actions|
  {
    if i == |actions| {
      assert actions[..i] == actions;
    } else {
      var front := actions[..|actions| - 1];
      RecordsOnlyAge(front, i, record);
      assert front[..i] == actions[..i];
      RunIsSound(front);
      StepEvolves(Run(front), actions[|actions| - 1], record);
    }
  }

  /** The control plane vouched for a record's lease until some moment: by the claim, or by a heartbeat's answer. */
  ghost predicate Vouched(actions: seq<Action>, record: nat, until: int) {
    exists k :: 0 <= k < |actions| && VouchedAt(actions, k, record, until)
  }

  /** The action is the control plane's word, for the record, that the lease lasts until some moment. */
  predicate Vouches(m: Manager, action: Action, record: nat, until: int) {
    match action
    case Register(claim) => record == |m.store| && claim.leaseExpiresAt == until
    case Receive(r, Granted(expiresAt)) =>
      record == r && expiresAt == until && IsCurrent(m, record) && m.store[record].phase == Calling
    case _ => false
  }

  ghost predicate VouchedAt(actions: seq<Action>, k: nat, record: nat, until: int)
    requires k < |actions|
  {
    Vouches(Run(actions[..k]), actions[k], record, until)
  }

  lemma StillVouched(actions: seq<Action>, record: nat, until: int)
    requires actions != [] && Vouched(actions[..|actions| - 1], record, until)
    ensures Vouched(actions, record, until)
  {
    var front := actions[..|actions| - 1];
    var k :| 0 <= k < |front| && VouchedAt(front, k, record, until);
    assert front[..k] == actions[..k] && front[k] == actions[k];
    assert VouchedAt(actions, k, record, until);
  }

  /** Every expiry the manager goes by was given by the control plane for that very lease. */
  lemma {:induction false} ExpiryIsVouched(actions: seq<Action>, record: nat)
    requires record < |Run(actions).store|
    ensures Vouched(actions, record, Run(actions).store[record].expiresAt)
    decreases |actions|
  {
    if actions != [] {
      var front, last := actions[..|actions| - 1], |actions| - 1;
      var before := Run(front);
      var until := Run(actions).store[record].expiresAt;
      if record < |before.store| && before.store[record].expiresAt == until {
        ExpiryIsVouched(front, record);
        StillVouched(actions, record, until);
      } else {
        assert VouchedAt(actions, last, record, until);
      }
    }
  }

  /**
   Lease safety: at any moment of any interleaving, a check succeeds exactly when the job's current
   record holds the claimed lease, was never marked lost and has not expired; and then the control
   plane itself vouched for that lease beyond the present.
   */
  lemma CheckIsSafe(actions: seq<Action>, claim: Claim) returns (record: nat)
    ensures var m := Run(actions);
      Check(m, claim) == None <==>
        && claim.jobId in m.current && record == m.current[claim.jobId] && IsCurrent(m, record)
        && m.store[record].claim.leaseId == claim.leaseId
        && m.store[record].lostCode == None
        && m.store[record].expiresAt > m.now
    ensures var m := Run(actions);
      Check(m, claim) == None ==>
        && m.store[record].claim.jobId == claim.jobId
        && exists until :: until > m.now && Vouched(actions, record, until)
  {
    var m := Run(actions);
    RunIsSound(actions);
    record := if claim.jobId in m.current then m.current[claim.jobId] else 0;
    if Check(m, claim) == None {
      ExpiryIsVouched(actions, record);
    }
  }

  /** The action marks the current record lost. */
  ghost predicate LosesAt(actions: seq<Action>, k: nat, record: nat, code: string)
    requires k < |actions|
  {
    var before := Run(actions[..k]);
    && actions[k] == Receive(record, Rejected(code, false))
    && IsCurrent(before, record) && before.store[record].phase == Calling
  }

  lemma RejectionMarksLost(m: Manager, record: nat, code: string)
    requires IsCurrent(m, record) && m.store[record].phase == Calling
    ensures var after := Next(m, Receive(record, Rejected(code, false)));
      record < |after.store| && after.store[record].lostCode == Some(code)
  {
  }

  lemma LostIsFound(m: Manager, record: nat, code: string)
    requires IsCurrent(m, record) && m.store[record].lostCode == Some(code)
    ensures Check(m, m.store[record].claim) == Some(code)
  {
  }

  /** Once the control plane finally rejected a lease, every check against it fails with that code. */
  lemma LossIsFinal(actions: seq<Action>, k: nat, record: nat, code: string)
    requires k < |actions| && LosesAt(actions, k, record, code)
    ensures var m := Run(actions);
      IsCurrent(m, record) ==> Check(m, m.store[record].claim) == Some(code)
  {
    assert actions[..k + 1][..k] == actions[..k];
    RejectionMarksLost(Run(actions[..k]), record, code);
    RecordsOnlyAge(actions, k + 1, record);
    if IsCurrent(Run(actions), record) {
      LostIsFound(Run(actions), record, code);
    }
  }

  /** Failures that may pass leave an unexpired lease as it was; its thread goes on renewing it. */
  lemma PassingFailureKeepsLease(m: Manager, record: nat, reply: Reply)
    requires record < |m.store| && m.store[record].phase == Calling && IsCurrent(m, record)
    requires m.store[record].expiresAt > m.now && (reply.Failed? || (reply.Rejected? && reply.retryable))
    ensures Next(m, Receive(record, reply)).store[record] == m.store[record].(phase := Sleeping)
    ensures Check(Next(m, Receive(record, reply)), m.store[record].claim) == Check(m, m.store[record].claim)
  {
  }

  // --- renewal and loss, exactly ---

  /** The last time that the control plane vouched for the record, and until when. */
  ghost predicate LastVouched(actions: seq<Action>, k: nat, record: nat, until: int) {
    && k < |actions| && VouchedAt(actions, k, record, until)
    && forall j, other {:trigger VouchedAt(actions, j, record, other)} | k < j < |actions| ::
         !VouchedAt(actions, j, record, other)
  }

  lemma VouchedInPrefix(actions: seq<Action>, n: nat, k: nat, record: nat, until: int)
    requires k < n <= |actions|
    ensures VouchedAt(actions[..n], k, record, until) <==> VouchedAt(actions, k, record, until)
  {
    assert actions[..n][..k] == actions[..k] && actions[..n][k] == actions[k];
  }

  /** A vouching action sets the record's expiry, and no other action does. */
  lemma VouchingSets(m: Manager, action: Action, record: nat)
    requires record < |Next(m, action).store|
    ensures forall until :: Vouches(m, action, record, until) ==> Next(m, action).store[record].expiresAt == until
    ensures (forall until :: !Vouches(m, action, record, until)) ==>
      record < |m.store| && Next(m, action).store[record].expiresAt == m.store[record].expiresAt
  {
    match action
    case Register(claim) => assert record == |m.store| ==> Vouches(m, action, record, claim.leaseExpiresAt);
    case Receive(r, reply) =>
      if reply.Granted? && record == r && IsCurrent(m, record) && m.store[record].phase == Calling {
        assert Vouches(m, action, record, reply.expiresAt);
      }
    case _ =>
  }

  /** The manager goes by the last expiry that the control plane gave for the record while it was current. */
  lemma {:induction false} ExpiryIsLastVouched(actions: seq<Action>, record: nat) returns (k: nat)
    requires record < |Run(actions).store|
    ensures LastVouched(actions, k, record, Run(actions).store[record].expiresAt)
    decreases |actions|
  {
    var last := |actions| - 1;
    VouchingSets(Run(actions[..last]), actions[last], record);
    if until :| VouchedAt(actions, last, record, until) {
      k := last;
    } else {
      forall until ensures !Vouches(Run(actions[..last]), actions[last], record, until) {
        assert !VouchedAt(actions, last, record, until);
      }
      var front := actions[..last];
      k := ExpiryIsLastVouched(front, record);
      var until := Run(actions).store[record].expiresAt;
      VouchedInPrefix(actions, last, k, record, until);
      forall j, other | k < j < |actions| ensures !VouchedAt(actions, j, record, other) {
        if j < last {
          VouchedInPrefix(actions, last, j, record, other);
        }
      }
    }
  }

  /** An answer that marks its current record lost: a final rejection, or any failure once the lease has expired. */
  predicate Loses(m: Manager, action: Action, record: nat, code: string) {
    && action.Receive? && action.record == record && IsCurrent(m, record) && m.store[record].phase == Calling
    && match action.reply
       case Granted(_) => false
       case Rejected(c, retryable) => code == c && (!retryable || m.store[record].expiresAt <= m.now)
       case Failed => code == "INTERNAL_TRANSIENT_ERROR" && m.store[record].expiresAt <= m.now
  }

  ghost predicate LostAt(actions: seq<Action>, k: nat, record: nat, code: string)
    requires k < |actions|
  {
    Loses(Run(actions[..k]), actions[k], record, code)
  }

  ghost predicate WasLost(actions: seq<Action>, record: nat, code: string) {
    exists k :: 0 <= k < |actions| && LostAt(actions, k, record, code)
  }

  /** What one action does to a record's loss. */
  lemma LossByStep(m: Manager, action: Action, record: nat, code: string)
    requires Sound(m)
    ensures var after := Next(m, action);
      (record < |after.store| && after.store[record].lostCode == Some(code)) <==>
        ((record < |m.store| && m.store[record].lostCode == Some(code)) || Loses(m, action, record, code))
  {
  }

  lemma WasLostByStep(actions: seq<Action>, record: nat, code: string)
    requires actions != []
    ensures var last := |actions| - 1;
      WasLost(actions, record, code) <==>
        WasLost(actions[..last], record, code) || Loses(Run(actions[..last]), actions[last], record, code)
  {
    var last := |actions| - 1;
    var front := actions[..last];
    if k :| 0 <= k < |front| && LostAt(front, k, record, code) {
      assert front[..k] == actions[..k] && LostAt(actions, k, record, code);
    }
    if Loses(Run(front), actions[last], record, code) {
      assert LostAt(actions, last, record, code);
    }
    if k :| 0 <= k < |actions| && LostAt(actions, k, record, code) {
      if k < last {
        assert front[..k] == actions[..k] && LostAt(front, k, record, code);
      }
    }
  }

  /** A lease is lost exactly when such an answer came, and with its code. */
  lemma {:induction false} LossIsExact(actions: seq<Action>, record: nat, code: string)
    ensures record < |Run(actions).store| && Run(actions).store[record].lostCode == Some(code)
      <==> WasLost(actions, record, code)
    decreases |actions|
  {
    if actions != [] {
      var front := actions[..|actions| - 1];
      LossIsExact(front, record, code);
      RunIsSound(front);
      LossByStep(Run(front), actions[|actions| - 1], record, code);
      WasLostByStep(actions, record, code);
    }
  }

  /** The thread of a current record gets the lease prolonged to this moment. */
  ghost predicate GrantedAt(actions: seq<Action>, k: nat, record: nat, until: int)
    requires k < |actions|
  {
    && actions[k] == Receive(record, Granted(until))
    && IsCurrent(Run(actions[..k]), record) && Run(actions[..k]).store[record].phase == Calling
  }

  lemma {:induction false} GrantStands(actions: seq<Action>, k: nat, record: nat, until: int)
    requires k < |actions| && GrantedAt(actions, k, record, until)
    requires forall j | k < j < |actions| :: !(actions[j].Receive? && actions[j].record == record)
    ensures var m := Run(actions);
      && record < |m.store| && m.store[record].expiresAt == until && m.store[record].lostCode == None
      && m.store[record].claim == Run(actions[..k]).store[record].claim
    decreases |actions|
  {
    var last := |actions| - 1;
    var front := actions[..last];
    RunIsSound(front);
    if k < last {
      assert front[..k] == actions[..k];
      GrantStands(front, k, record, until);
    }
  }

  /** After a heartbeat is granted, checks of the lease succeed until then, while its record stays current. */
  lemma GrantLasts(actions: seq<Action>, k: nat, record: nat, until: int)
    requires k < |actions| && GrantedAt(actions, k, record, until)
    requires forall j | k < j < |actions| :: !(actions[j].Receive? && actions[j].record == record)
    requires IsCurrent(Run(actions), record)
    ensures Check(Run(actions), Run(actions).store[record].claim) == None <==> Run(actions).now < until
  {
    GrantStands(actions, k, record, until);
  }

  /** The job's current record is one of the claimed lease. */
  predicate Holds(m: Manager, claim: Claim, record: nat) {
    && claim.jobId in m.current && m.current[claim.jobId] == record && record < |m.store|
    && m.store[record].claim.leaseId == claim.leaseId
  }

  /**
   What a check finds in every interleaving: the code of the answer that lost the lease, a conflict when
   another lease or none is current or the last word of the control plane has run out, and else nothing.
   */
  lemma CheckIsExact(actions: seq<Action>, claim: Claim, record: nat, k: nat, until: int)
    requires Holds(Run(actions), claim, record) ==> LastVouched(actions, k, record, until)
    ensures var m := Run(actions);
      && ((forall other :: !Holds(m, claim, other)) ==> Check(m, claim) == Some("JOB_STATE_VERSION_CONFLICT"))
      && (Holds(m, claim, record) ==>
            && (forall code :: WasLost(actions, record, code) ==> Check(m, claim) == Some(code))
            && ((forall code :: !WasLost(actions, record, code)) ==>
                  Check(m, claim) == if until <= m.now then Some("JOB_STATE_VERSION_CONFLICT") else None))
  {
    var m := Run(actions);
    RunIsSound(actions);
    if claim.jobId in m.current && m.store[m.current[claim.jobId]].claim.leaseId == claim.leaseId {
      assert Holds(m, claim, m.current[claim.jobId]);
    }
    if Holds(m, claim, record) {
      var last := ExpiryIsLastVouched(actions, record);
      LastVouchIsOne(actions, record, k, until, last, m.store[record].expiresAt);
      forall code ensures m.store[record].lostCode == Some(code) <==> WasLost(actions, record, code) {
        LossIsExact(actions, record, code);
      }
    }
  }

  lemma LastVouchIsOne(actions: seq<Action>, record: nat, k: nat, until: int, j: nat, other: int)
    requires LastVouched(actions, k, record, until) && LastVouched(actions, j, record, other)
    ensures until == other
  {
    assert VouchedAt(actions, k, record, until) && VouchedAt(actions, j, record, other);
  }

  /** A thread that was told to stop ends when it wakes, and makes no more calls; any other thread calls. */
  lemma StoppedThreadEnds(m: Manager, record: nat)
    requires record < |m.store| && m.store[record].phase == Sleeping
    ensures Next(m, Wake(record)).store[record].phase == (if m.store[record].isStopping then Ended else Calling)
    ensures Next(m, Wake(record)).current == m.current
  {
  }

  /** A record that was told to stop stays so, and is never current again. */
  lemma {:induction false} StoppingStays(actions: seq<Action>, i: nat, record: nat)
    requires i <= |actions| && record < |Run(actions[..i]).store|
    requires Run(actions[..i]).store[record].isStopping && !IsCurrent(Run(actions[..i]), record)
    ensures record < |Run(actions).store| && Run(actions).store[record].isStopping && !IsCurrent(Run(actions), record)
    decreases |actions|
  {
    RecordsOnlyAge(actions, i, record);
    if i == |actions| {
      assert actions[..i] == actions;
    } else {
      var front := actions[..|actions| - 1];
      assert front[..i] == actions[..i];
      StoppingStays(front, i, record);
    }
  }
}
