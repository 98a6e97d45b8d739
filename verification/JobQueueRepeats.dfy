/**
 When pushing a job again breaks the delivery bound: exactly when the job is still pending once the
 process has started. Then some continuation without any further push hands the job out a fourth
 time. A crash in the third delivery makes room, because the first recovery drops that delivery
 before anything is taken.
 */
module JobQueueRepeats {
  import opened Wrappers
  import opened JobQueue
  import opened JobQueueBound
  import opened JobQueueOrder

  ghost predicate PushFree(actions: seq<Action>) {
    forall k | 0 <= k < |actions| :: !actions[k].Push?
  }

  /** A job is being handed out, and within its permitted attempts. */
  predicate WithinBound(sys: System) {
    sys.client.Holding? ==> sys.client.delivery.attempt <= MAX_DELIVERY_ATTEMPTS
  }

  // --- pending first recoveries ---

  /** The system once a pending first recovery is complete. */
  function Started(sys: System): System {
    if IsStarting(sys.client) then
      sys.(server := RecoverSome(sys.server, |sys.server.processing|), client := Ready)
    else sys
  }

  /** The job of the pushed reference is not pending, or will not be once the process has started. */
  ghost predicate MayPush(sys: System, raw: Reference) {
    IsFresh(Started(sys).server, raw)
  }

  ghost predicate AllowedAt(actions: seq<Action>, k: nat)
    requires k < |actions|
  {
    actions[k].Push? ==> MayPush(Run(actions[..k]), actions[k].raw)
  }

  ghost predicate PushesAreAllowed(actions: seq<Action>) {
    forall k {:trigger AllowedAt(actions, k)} | 0 <= k < |actions| :: AllowedAt(actions, k)
  }

  lemma {:induction false} RecoverSomeWithPushes(sv: Server, pushed: seq<Reference>, n: nat)
    requires n <= |sv.processing|
    ensures RecoverSome(Behind(sv, pushed), n) == Behind(RecoverSome(sv, n), pushed)
    decreases n
  {
    if n > 0 {
      RecoverOneWithPushes(sv, pushed);
      RecoverSomeWithPushes(RecoverOne(sv), pushed, n - 1);
    }
  }

  /** A push and the first recovery do not disturb each other. */
  lemma PushWaits(sys: System, raw: Reference)
    ensures Started(Next(sys, Push(raw))) == Next(Started(sys), Push(raw))
  {
    if IsStarting(sys.client) {
      RecoverSomeWithPushes(sys.server, [raw], |sys.server.processing|);
    }
  }

  /** No other action changes what the first recovery leads to. */
  lemma StartingGoesOn(sys: System, action: Action)
    requires IsStarting(sys.client) && LooksLeft(sys) && !action.Push?
    ensures Started(Next(sys, action)) == Started(sys)
    ensures IsStarting(Next(sys, action).client) ==> LooksLeft(Next(sys, action))
  {
    if action.Command? && action.fault != RequestLost && sys.client.Tracked? {
      assert Answered(sys, action.acknowledge).0.server == RecoverOne(sys.server);
    }
  }

  // --- within the bound ---

  ghost predicate SoundOnceStarted(sys: System) {
    Sound(Started(sys)) && (IsStarting(sys.client) ==> LooksLeft(sys))
  }

  lemma {:induction false} RecoverSomeKeepsTidy(sv: Server, n: nat)
    requires Tidy(sv) && n <= |sv.processing|
    ensures Tidy(RecoverSome(sv, n))
    decreases n
  {
    if n > 0 {
      var raw := sv.processing[0];
      TrackedStaysSound(System(sv, Tracked(raw, AttemptOf(sv, raw), true), [], [], []), raw, AttemptOf(sv, raw), true);
      RecoverSomeKeepsTidy(RecoverOne(sv), n - 1);
    }
  }

  lemma PushStaysSound(sys: System, raw: Reference)
    requires SoundOnceStarted(sys) && MayPush(sys, raw)
    ensures SoundOnceStarted(Next(sys, Push(raw)))
  {
    PushWaits(sys, raw);
    PushKeepsTidy(Started(sys).server, raw);
  }

  lemma CrashStaysSound(sys: System)
    requires SoundOnceStarted(sys) && !IsStarting(sys.client)
    ensures SoundOnceStarted(Next(sys, Crash))
  {
    RecoverSomeKeepsTidy(sys.server, |sys.server.processing|);
  }

  lemma AnswerDoesNotStart(sys: System, acknowledge: bool)
    requires !IsStarting(sys.client)
    ensures !IsStarting(Answered(sys, acknowledge).0.client)
  {
  }

  lemma CommandDoesNotStart(sys: System, action: Action)
    requires !IsStarting(sys.client) && action.Command?
    ensures !IsStarting(Next(sys, action).client)
  {
    AnswerDoesNotStart(sys, action.acknowledge);
  }

  lemma StepStaysSound(sys: System, action: Action)
    requires SoundOnceStarted(sys) && (action.Push? ==> MayPush(sys, action.raw))
    ensures SoundOnceStarted(Next(sys, action))
  {
    match action
    case Push(raw) => PushStaysSound(sys, raw);
    case Crash =>
      if IsStarting(sys.client) {
        StartingGoesOn(sys, action);
      } else {
        CrashStaysSound(sys);
      }
    case Command(_, _) =>
      if IsStarting(sys.client) {
        StartingGoesOn(sys, action);
      } else {
        CommandStaysSound(sys, action);
        CommandDoesNotStart(sys, action);
      }
  }

  lemma AllowedPrefix(actions: seq<Action>, n: nat)
    requires PushesAreAllowed(actions) && n <= |actions|
    ensures PushesAreAllowed(actions[..n])
  {
    forall k | 0 <= k < n ensures AllowedAt(actions[..n], k) {
      assert actions[..n][..k] == actions[..k];
      assert AllowedAt(actions, k);
    }
  }

  lemma {:induction false} AllowedRunIsSound(actions: seq<Action>)
    requires PushesAreAllowed(actions)
    ensures SoundOnceStarted(Run(actions))
    decreases |actions|
  {
    if actions != [] {
      var n := |actions| - 1;
      AllowedPrefix(actions, n);
      AllowedRunIsSound(actions[..n]);
      assert AllowedAt(actions, n);
      StepStaysSound(Run(actions[..n]), actions[n]);
    }
  }

  lemma SoundIsWithinBound(sys: System)
    requires SoundOnceStarted(sys)
    ensures WithinBound(sys)
  {
    if sys.client.Holding? {
      assert AttemptsOf(sys.server, sys.client.delivery.raw) == sys.client.delivery.attempt;
      assert sys.client.delivery.raw in sys.server.processing;
    }
  }

  // --- single moves ---

  /** The oldest reference is taken, and its job stays in processing after two failures in a row. */
  const LEAVE := [STEP] + [Command(ReplyLost, false), LOSS]

  /** The oldest reference is taken and given back. */
  const ROTATE := [STEP, STEP] + [STEP]

  lemma StepStaysSteady(sys: System, action: Action)
    requires Steady(sys)
    ensures Steady(Next(sys, action))
  {
    if action.Command? {
      AnswerStaysSteady(sys, action.acknowledge);
    }
  }

  lemma {:induction false} AfterStaysSteady(sys: System, actions: seq<Action>)
    requires Steady(sys)
    ensures Steady(After(sys, actions))
    decreases |actions|
  {
    if actions != [] {
      AfterStaysSteady(sys, actions[..|actions| - 1]);
      StepStaysSteady(After(sys, actions[..|actions| - 1]), actions[|actions| - 1]);
    }
  }

  /** Taking the oldest reference hands its job out once more. */
  lemma TakingDelivers(sys: System, x: Reference, front: seq<Reference>)
    requires Steady(sys) && sys.client.Ready? && sys.server.source == front + [x] && !IsPoison(x)
    ensures var after, n := After(sys, [STEP, STEP]), RecordedAttempts(sys.server, x.job.value) + 1;
      && Steady(after) && after.client == Holding(Delivery(x, x.job.value, n))
      && after.server.source == front && after.server.processing == [x] + sys.server.processing
      && after.server.attempts == sys.server.attempts[x.job.value := n]
  {
    AfterTwo(sys, STEP, STEP);
    AfterStaysSteady(sys, [STEP, STEP]);
  }

  /** The oldest reference is left in processing, or dropped as poison. */
  lemma LeavingCounts(sys: System, x: Reference, front: seq<Reference>, job: JobId)
    requires Steady(sys) && sys.client.Ready? && sys.server.source == front + [x]
    ensures var after := After(sys, LEAVE);
      && Steady(after) && after.client.Ready? && after.server.source == front
      && RecordedAttempts(after.server, job) == RecordedAttempts(sys.server, job) + (if Delivers(x, job) then 1 else 0)
  {
    AfterContinues(sys, [STEP], [Command(ReplyLost, false), LOSS]);
    AfterOne(sys, STEP);
    AfterTwo(Next(sys, STEP), Command(ReplyLost, false), LOSS);
    AfterStaysSteady(sys, LEAVE);
  }

  /** A reference that is given back waits behind everything else. */
  lemma RequeueingRotates(sys: System, x: Reference, front: seq<Reference>)
    requires Steady(sys) && sys.client.Ready? && sys.server.source == front + [x] && !IsPoison(x)
    requires RecordedAttempts(sys.server, x.job.value) + 1 < MAX_DELIVERY_ATTEMPTS
    ensures var after, n := After(sys, ROTATE), RecordedAttempts(sys.server, x.job.value) + 1;
      && Steady(after) && after.client.Ready?
      && after.server.source == [x] + front && after.server.processing == sys.server.processing
      && after.server.attempts == sys.server.attempts[x.job.value := n]
  {
    TakingDelivers(sys, x, front);
    AfterContinues(sys, [STEP, STEP], [STEP]);
    AfterOne(After(sys, [STEP, STEP]), STEP);
    AfterStaysSteady(sys, ROTATE);
  }

  // --- from waiting copies to a fourth delivery ---

  /** Everything that waits ahead of a place is taken and left behind. */
  lemma {:induction false} DrainTo(sys: System, k: nat, job: JobId) returns (more: seq<Action>)
    requires Steady(sys) && sys.client.Ready? && k < |sys.server.source|
    ensures PushFree(more)
    ensures var after := After(sys, more);
      && Steady(after) && after.client.Ready? && after.server.source == sys.server.source[..k + 1]
      && RecordedAttempts(after.server, job) >= RecordedAttempts(sys.server, job)
    decreases |sys.server.source|
  {
    var items := sys.server.source;
    if k + 1 == |items| {
      more := [];
    } else {
      var last := |items| - 1;
      assert items == items[..last] + [items[last]];
      LeavingCounts(sys, items[last], items[..last], job);
      var rest := DrainTo(After(sys, LEAVE), k, job);
      AfterContinues(sys, LEAVE, rest);
      more := LEAVE + rest;
    }
  }

  /** One copy of a job with three attempts is enough. */
  lemma OneCopyOverloads(sys: System, k: nat, job: JobId) returns (more: seq<Action>)
    requires Steady(sys) && sys.client.Ready? && k < |sys.server.source| && Delivers(sys.server.source[k], job)
    requires RecordedAttempts(sys.server, job) >= MAX_DELIVERY_ATTEMPTS
    ensures PushFree(more) && !WithinBound(After(sys, more))
  {
    var first := DrainTo(sys, k, job);
    var x := sys.server.source[k];
    assert sys.server.source[..k + 1] == sys.server.source[..k] + [x];
    TakingDelivers(After(sys, first), x, sys.server.source[..k]);
    AfterContinues(sys, first, [STEP, STEP]);
    more := first + [STEP, STEP];
  }

  /** Two waiting copies share their attempts: giving them back in turn raises these past the bound. */
  lemma {:induction false} TwoCopiesOverload(sys: System, i: nat, k: nat, job: JobId) returns (more: seq<Action>)
    requires Steady(sys) && sys.client.Ready? && i < k < |sys.server.source|
    requires Delivers(sys.server.source[i], job) && Delivers(sys.server.source[k], job)
    ensures PushFree(more) && !WithinBound(After(sys, more))
    decreases MAX_DELIVERY_ATTEMPTS - RecordedAttempts(sys.server, job)
  {
    var first := DrainTo(sys, k, job);
    var drained, x, front := After(sys, first), sys.server.source[k], sys.server.source[..k];
    assert drained.server.source == front + [x];
    var n := RecordedAttempts(drained.server, job);
    var second: seq<Action>;
    var rest: seq<Action>;
    if n >= MAX_DELIVERY_ATTEMPTS {
      second := [];
      rest := OneCopyOverloads(drained, k, job);
    } else if n + 1 == MAX_DELIVERY_ATTEMPTS {
      LeavingCounts(drained, x, front, job);
      second := LEAVE;
      rest := OneCopyOverloads(After(drained, second), i, job);
    } else {
      RequeueingRotates(drained, x, front);
      second := ROTATE;
      rest := TwoCopiesOverload(After(drained, second), 0, i + 1, job);
    }
    AfterContinues(drained, second, rest);
    AfterContinues(sys, first, second + rest);
    more := first + (second + rest);
  }

  // --- recovering a copy left in processing ---

  /** One round of recovery leaves a job with attempts to spare its attempts and its copies. */
  lemma RoundKeepsJob(sv: Server, job: JobId)
    requires sv.processing != [] && RecordedAttempts(sv, job) < MAX_DELIVERY_ATTEMPTS
    ensures RecordedAttempts(RecoverOne(sv), job) == RecordedAttempts(sv, job)
    ensures Delivers(sv.processing[0], job) ==> RecoverOne(sv).source == sv.source + [sv.processing[0]]
    ensures sv.source <= RecoverOne(sv).source && RecoverOne(sv).processing == sv.processing[1..]
  {
  }

  /** A recovery inside the worker loop makes a copy with attempts to spare wait again, and then fails. */
  lemma {:induction false} RecoveryReturnsCopy(sys: System, p: nat, job: JobId) returns (more: seq<Action>, k: nat)
    requires Steady(sys) && sys.client == Recovering(false)
    requires p < |sys.server.processing| && Delivers(sys.server.processing[p], job)
    requires RecordedAttempts(sys.server, job) < MAX_DELIVERY_ATTEMPTS
    ensures PushFree(more)
    ensures var after := After(sys, more);
      && Steady(after) && after.client.Ready? && sys.server.source <= after.server.source
      && |sys.server.source| <= k < |after.server.source| && Delivers(after.server.source[k], job)
    decreases p
  {
    RoundIsThreeSteps(sys);
    RoundKeepsJob(sys.server, job);
    AfterStaysSteady(sys, ROTATE);
    var next := After(sys, ROTATE);
    var rest: seq<Action>;
    if p == 0 {
      rest, k := [LOSS], |sys.server.source|;
      AfterOne(next, LOSS);
    } else {
      rest, k := RecoveryReturnsCopy(next, p - 1, job);
    }
    AfterContinues(sys, ROTATE, rest);
    more := ROTATE + rest;
  }

  // --- getting ready ---

  /** Outside its first recovery, failures bring the consumer back to popping. */
  lemma BackToReady(sys: System) returns (more: seq<Action>)
    requires !IsStarting(sys.client)
    ensures PushFree(more) && After(sys, more) == sys.(client := Ready)
  {
    AfterOne(sys, LOSS);
    AfterTwo(sys, LOSS, LOSS);
    more := if sys.client.Ready? then [] else if IsRecovering(sys.client) then [LOSS] else [LOSS, LOSS];
  }

  /** The process starts over and completes its first recovery. */
  lemma StartUp(sys: System) returns (more: seq<Action>)
    requires IsStarting(sys.client)
    ensures PushFree(more) && After(sys, more) == Started(sys)
  {
    var n := |sys.server.processing|;
    var begun := Next(sys, Crash);
    AfterOne(sys, Crash);
    RoundsRecover(begun, n);
    AfterContinues(sys, [Crash], Rounds(n));
    var recovered := After(sys, [Crash] + Rounds(n));
    AfterOne(recovered, STEP);
    AfterContinues(sys, [Crash] + Rounds(n), [STEP]);
    RoundsPushNothing(n);
    more := [Crash] + Rounds(n) + [STEP];
  }

  lemma {:induction false} RoundsPushNothing(n: nat)
    ensures PushFree(Rounds(n))
    decreases n
  {
    if n > 0 {
      RoundsPushNothing(n - 1);
    }
  }

  // --- the exact condition ---

  /** A job that waits already, or whose attempts are used up, is handed out once too often. */
  lemma WaitingRepeat(sys: System, raw: Reference, i: nat) returns (more: seq<Action>)
    requires Steady(sys) && sys.client.Ready? && !IsPoison(raw)
    requires i < |sys.server.source| && Delivers(sys.server.source[i], raw.job.value)
    ensures PushFree(more) && !WithinBound(After(Next(sys, Push(raw)), more))
  {
    StepStaysSteady(sys, Push(raw));
    more := TwoCopiesOverload(Next(sys, Push(raw)), 0, i + 1, raw.job.value);
  }

  /** A job in processing is handed out once too often, outside a first recovery. */
  lemma ProcessedRepeat(sys: System, raw: Reference, p: nat) returns (more: seq<Action>)
    requires Steady(sys) && sys.client.Ready? && !IsPoison(raw)
    requires p < |sys.server.processing| && Delivers(sys.server.processing[p], raw.job.value)
    ensures PushFree(more) && !WithinBound(After(Next(sys, Push(raw)), more))
  {
    var job, pushed := raw.job.value, Next(sys, Push(raw));
    StepStaysSteady(sys, Push(raw));
    if RecordedAttempts(sys.server, job) >= MAX_DELIVERY_ATTEMPTS {
      more := OneCopyOverloads(pushed, 0, job);
    } else {
      AfterOne(pushed, LOSS);
      AfterStaysSteady(pushed, [LOSS]);
      var recovery, k := RecoveryReturnsCopy(After(pushed, [LOSS]), p, job);
      AfterContinues(pushed, [LOSS], recovery);
      var ready := After(pushed, [LOSS] + recovery);
      assert ready.server.source[0] == raw;
      var overload := TwoCopiesOverload(ready, 0, k, job);
      AfterContinues(pushed, [LOSS] + recovery, overload);
      more := [LOSS] + recovery + overload;
    }
  }

  /** With a waiting copy and a consumer ready to pop, a push that is not allowed breaks the bound. */
  lemma ReadyRepeat(sys: System, raw: Reference) returns (more: seq<Action>)
    requires Steady(sys) && sys.client.Ready? && !IsFresh(sys.server, raw)
    ensures PushFree(more) && !WithinBound(After(Next(sys, Push(raw)), more))
  {
    var copy :| copy in Line(sys.server) && Delivers(copy, raw.job.value);
    if copy in sys.server.source {
      var i :| 0 <= i < |sys.server.source| && sys.server.source[i] == copy;
      more := WaitingRepeat(sys, raw, i);
    } else {
      var p :| 0 <= p < |sys.server.processing| && sys.server.processing[p] == copy;
      more := ProcessedRepeat(sys, raw, p);
    }
  }

  /** A push that is not allowed: some continuation without pushes delivers the job once too often. */
  lemma RepeatBreaksBound(sys: System, raw: Reference) returns (more: seq<Action>)
    requires Steady(sys) && !MayPush(sys, raw)
    ensures PushFree(more) && !WithinBound(After(Next(sys, Push(raw)), more))
  {
    var pushed := Next(sys, Push(raw));
    var first: seq<Action>;
    var ready: System;
    if IsStarting(sys.client) {
      var alone := StartUp(sys);
      AfterStaysSteady(sys, alone);
      PushWaits(sys, raw);
      first := StartUp(pushed);
      ready := Started(sys);
    } else {
      first := BackToReady(pushed);
      ready := sys.(client := Ready);
    }
    var rest := ReadyRepeat(ready, raw);
    AfterContinues(pushed, first, rest);
    more := first + rest;
  }

  /** From no moment of the run on can a continuation without pushes leave the bound. */
  ghost predicate StaysWithinBound(actions: seq<Action>) {
    forall n: nat, more | n <= |actions| && PushFree(more) :: WithinBound(Run(actions[..n] + more))
  }

  lemma AllowedStaysWithinBound(actions: seq<Action>, n: nat, more: seq<Action>)
    requires PushesAreAllowed(actions) && n <= |actions| && PushFree(more)
    ensures WithinBound(Run(actions[..n] + more))
  {
    var all := actions[..n] + more;
    forall k | n <= k < |all| ensures !all[k].Push? {
      assert all[k] == more[k - n];
    }
    forall k | 0 <= k < |all| ensures AllowedAt(all, k) {
      if all[k].Push? {
        assert all[..k] == actions[..k] && all[k] == actions[k];
        assert AllowedAt(actions, k);
      }
    }
    AllowedRunIsSound(all);
    SoundIsWithinBound(Run(all));
  }

  lemma ForbiddenBreaksBound(actions: seq<Action>, k: nat) returns (more: seq<Action>)
    requires k < |actions| && actions[k].Push? && !MayPush(Run(actions[..k]), actions[k].raw)
    ensures PushFree(more) && !WithinBound(Run(actions[..k + 1] + more))
  {
    RunIsSteady(actions[..k]);
    more := RepeatBreaksBound(Run(actions[..k]), actions[k].raw);
    assert actions[..k + 1][..k] == actions[..k];
    RunContinues(actions[..k + 1], more);
  }

  /**
   The delivery bound is exact: no delivery can ever be beyond the third if and only if no job is
   pushed that is still pending once the process has started.
   */
  lemma BoundIsExact(actions: seq<Action>)
    ensures StaysWithinBound(actions) <==> PushesAreAllowed(actions)
  {
    if PushesAreAllowed(actions) {
      forall n: nat, more | n <= |actions| && PushFree(more) ensures WithinBound(Run(actions[..n] + more)) {
        AllowedStaysWithinBound(actions, n, more);
      }
    } else {
      var k :| 0 <= k < |actions| && !AllowedAt(actions, k);
      var more := ForbiddenBreaksBound(actions, k);
    }
  }

  // --- two cases ---

  lemma Idle(pushes: seq<Action>)
    ensures Run([STEP] + pushes) == After(EMPTY.(client := Ready), pushes)
  {
    assert [] + [STEP] == [STEP];
    RunContinues([], [STEP]);
    AfterOne(EMPTY, STEP);
    RunContinues([STEP], pushes);
  }

  lemma FourTimes(sys: System, a: Reference)
    requires Steady(sys) && sys.client.Ready? && sys.server.source == [a] + [a] && sys.server.attempts == map[]
    requires !IsPoison(a)
    ensures After(After(After(After(sys, ROTATE), ROTATE), LEAVE), [STEP, STEP]).client
      == Holding(Delivery(a, a.job.value, 4))
  {
    RequeueingRotates(sys, a, [a]);
    RequeueingRotates(After(sys, ROTATE), a, [a]);
    var twice := After(After(sys, ROTATE), ROTATE);
    LeavingCounts(twice, a, [a], a.job.value);
    assert After(twice, LEAVE).server.source == [] + [a];
    TakingDelivers(After(twice, LEAVE), a, []);
  }

  /** One job pushed twice onto an idle queue is handed out a fourth time, without any crash. */
  lemma FourthDelivery(a: Reference)
    requires !IsPoison(a)
    ensures Run([STEP] + [Push(a), Push(a)] + ROTATE + ROTATE + LEAVE + [STEP, STEP]).client
      == Holding(Delivery(a, a.job.value, 4))
  {
    var begin := [STEP] + [Push(a), Push(a)];
    Idle([Push(a), Push(a)]);
    AfterTwo(EMPTY.(client := Ready), Push(a), Push(a));
    FourTimes(Run(begin), a);
    RunContinues(begin, ROTATE);
    RunContinues(begin + ROTATE, ROTATE);
    RunContinues(begin + ROTATE + ROTATE, LEAVE);
    RunContinues(begin + ROTATE + ROTATE + LEAVE, [STEP, STEP]);
  }

  lemma ThirdDeliveryCrashes(sys: System, a: Reference)
    requires Steady(sys) && sys.client.Ready? && sys.server.source == [] + [a] && sys.server.processing == []
    requires sys.server.attempts == map[] && !IsPoison(a)
    ensures var after := After(After(After(After(sys, ROTATE), ROTATE), [STEP, STEP]), [Crash]);
      IsPending(after.server, a.job.value) && MayPush(after, a)
  {
    RequeueingRotates(sys, a, []);
    assert After(sys, ROTATE).server.source == [] + [a];
    RequeueingRotates(After(sys, ROTATE), a, []);
    var twice := After(After(sys, ROTATE), ROTATE);
    assert twice.server.source == [] + [a];
    TakingDelivers(twice, a, []);
    var held := After(twice, [STEP, STEP]);
    AfterOne(held, Crash);
    var after := Next(held, Crash);
    assert after.server.processing == [a] && Delivers(a, a.job.value) && a in Line(after.server);
    assert RecoverSome(after.server, 1) == RecoverOne(after.server);
  }

  /** After a crash in its third delivery a job is still pending, and yet may be pushed again. */
  lemma CrashMakesRoom(a: Reference)
    requires !IsPoison(a)
    ensures var sys := Run([STEP] + [Push(a)] + ROTATE + ROTATE + [STEP, STEP] + [Crash]);
      IsPending(sys.server, a.job.value) && MayPush(sys, a)
  {
    var begin := [STEP] + [Push(a)];
    Idle([Push(a)]);
    AfterOne(EMPTY.(client := Ready), Push(a));
    ThirdDeliveryCrashes(Run(begin), a);
    RunContinues(begin, ROTATE);
    RunContinues(begin + ROTATE, ROTATE);
    RunContinues(begin + ROTATE + ROTATE, [STEP, STEP]);
    RunContinues(begin + ROTATE + ROTATE + [STEP, STEP], [Crash]);
  }
}
