/**
 The delivery bound of the queue: no operation ever finds its delivery missing or out of order, and
 as long as no job is pushed while it is still pending, a job is delivered at most three times and
 its attempts are forgotten with it.
 */
module JobQueueBound {
  import opened Wrappers
  import opened JobQueue

  /** Everything pending, from the last to be delivered to the first taken. */
  function Line(sv: Server): seq<Reference> {
    sv.source + sv.processing
  }

  /** References that deliver a job share none. */
  ghost predicate JobsDistinct(items: seq<Reference>) {
    forall i, j | 0 <= i < j < |items| && !IsPoison(items[i]) && !IsPoison(items[j]) :: items[i].job != items[j].job
  }

  /** Some pending reference will deliver the job. */
  ghost predicate IsPending(sv: Server, job: JobId) {
    exists r :: r in Line(sv) && Delivers(r, job)
  }

  predicate Delivers(r: Reference, job: JobId) {
    !IsPoison(r) && r.job == Some(job)
  }

  function AttemptsOf(sv: Server, r: Reference): int {
    if r.job.Some? then RecordedAttempts(sv, r.job.value) else 0
  }

  ghost predicate AtLeft(sv: Server, raw: Reference) {
    sv.processing != [] && sv.processing[0] == raw
  }

  // --- what holds of every run ---

  /** Attempts are counted from one, and the consumer is about to act on the left end of processing. */
  ghost predicate Steady(sys: System) {
    && (forall job | job in sys.server.attempts :: sys.server.attempts[job] >= 1)
    && match sys.client
       case Popped(raw) => AtLeft(sys.server, raw)
       case Holding(d) => AtLeft(sys.server, d.raw) && Delivers(d.raw, d.job)
       case Inspected(raw, _) => AtLeft(sys.server, raw)
       case Tracked(raw, _, _) => AtLeft(sys.server, raw)
       case _ => true
  }

  lemma AnswerStaysSteady(sys: System, acknowledge: bool)
    requires Steady(sys)
    ensures Steady(Answered(sys, acknowledge).0) && Answered(sys, acknowledge).1 == NoComplaint
  {
  }

  lemma {:induction false} RunIsSteady(actions: seq<Action>)
    ensures Steady(Run(actions))
    decreases |actions|
  {
    if actions != [] {
      var before, action := Run(actions[..|actions| - 1]), actions[|actions| - 1];
      RunIsSteady(actions[..|actions| - 1]);
      if action.Command? {
        AnswerStaysSteady(before, action.acknowledge);
      }
    }
  }

  /**
   No operation ever has a reason to complain: in every run, whatever is pushed, lost or crashed, a
   server that answers finds the delivery where it should be and its attempts counted from one.
   */
  lemma NothingToComplain(actions: seq<Action>, acknowledge: bool)
    ensures Answered(Run(actions), acknowledge).1 == NoComplaint
  {
    RunIsSteady(actions);
    AnswerStaysSteady(Run(actions), acknowledge);
  }

  // --- what holds as long as no job is pushed while it is pending ---

  /** What holds of the server's keys between any two commands. */
  ghost predicate Tidy(sv: Server) {
    && JobsDistinct(Line(sv))
    && (forall job | job in sv.attempts :: sv.attempts[job] >= 1 && IsPending(sv, job))
    && (forall r | r in sv.source && !IsPoison(r) :: AttemptsOf(sv, r) < MAX_DELIVERY_ATTEMPTS)
    && (forall r | r in sv.processing && !IsPoison(r) :: AttemptsOf(sv, r) <= MAX_DELIVERY_ATTEMPTS)
  }

  /** What the consumer remembers is still true of the server. */
  ghost predicate ClientAgrees(sys: System) {
    var sv := sys.server;
    match sys.client
    case Popped(raw) => AtLeft(sv, raw) && (!IsPoison(raw) ==> AttemptsOf(sv, raw) < MAX_DELIVERY_ATTEMPTS)
    case Holding(d) =>
      AtLeft(sv, d.raw) && Delivers(d.raw, d.job) && d.job in sv.attempts && sv.attempts[d.job] == d.attempt
    case Inspected(raw, _) => AtLeft(sv, raw)
    case Tracked(raw, attempt, _) => AtLeft(sv, raw) && attempt == AttemptOf(sv, raw)
    case _ => true
  }

  ghost predicate Sound(sys: System) {
    Tidy(sys.server) && ClientAgrees(sys)
  }

  // --- each command keeps the server tidy ---

  lemma TakeKeepsTidy(sv: Server)
    requires Tidy(sv)
    ensures Tidy(TakeOldest(sv).0)
    ensures sv.source != [] ==>
      && AtLeft(TakeOldest(sv).0, TakeOldest(sv).1.value)
      && (!IsPoison(TakeOldest(sv).1.value) ==> AttemptsOf(sv, TakeOldest(sv).1.value) < MAX_DELIVERY_ATTEMPTS)
  {
    if sv.source != [] {
      var after, oldest := TakeOldest(sv).0, TakeOldest(sv).1.value;
      assert Line(after) == Line(sv);
      SameMembers(sv, after);
      assert sv.source == after.source + [oldest];
      forall r | r in after.source && !IsPoison(r) ensures AttemptsOf(after, r) < MAX_DELIVERY_ATTEMPTS {
        assert r in sv.source;
      }
      assert oldest in sv.source;
      forall r | r in after.processing && !IsPoison(r) ensures AttemptsOf(after, r) <= MAX_DELIVERY_ATTEMPTS {
        assert r == oldest || r in sv.processing;
      }
    }
  }

  /** Reordering the line leaves every job as pending as it was. */
  lemma SameMembers(sv: Server, after: Server)
    requires Tidy(sv) && after.attempts == sv.attempts
    requires forall r :: r in Line(after) <==> r in Line(sv)
    ensures forall job | job in after.attempts :: after.attempts[job] >= 1 && IsPending(after, job)
  {
    forall job | job in after.attempts ensures IsPending(after, job) {
      assert IsPending(sv, job);
      var r :| r in Line(sv) && Delivers(r, job);
      assert r in Line(after);
    }
  }

  lemma MoveToFrontKeepsTidy(sv: Server)
    requires Tidy(sv) && sv.processing != []
    requires !IsPoison(sv.processing[0]) ==> AttemptsOf(sv, sv.processing[0]) < MAX_DELIVERY_ATTEMPTS
    ensures Tidy(MoveToFront(sv).0)
  {
    var after := MoveToFront(sv).0;
    assert Line(after) == Line(sv);
    SameMembers(sv, after);
  }

  lemma MoveToBackKeepsTidy(sv: Server)
    requires Tidy(sv) && sv.processing != []
    requires !IsPoison(sv.processing[0]) ==> AttemptsOf(sv, sv.processing[0]) < MAX_DELIVERY_ATTEMPTS
    ensures Tidy(MoveToBack(sv).0)
  {
    var after, x := MoveToBack(sv).0, sv.processing[0];
    var before, rest := sv.source, sv.processing[1..];
    assert Line(sv) == before + [x] + rest && Line(after) == [x] + before + rest;
    DistinctMovesFirst(before, x, rest);
    SameMembers(sv, after);
  }

  lemma DistinctMovesFirst(before: seq<Reference>, x: Reference, rest: seq<Reference>)
    requires JobsDistinct(before + [x] + rest)
    ensures JobsDistinct([x] + before + rest)
  {
    var was, now := before + [x] + rest, [x] + before + rest;
    forall i, j | 0 <= i < j < |now| && !IsPoison(now[i]) && !IsPoison(now[j]) ensures now[i].job != now[j].job {
      var i' := if i == 0 then |before| else if i <= |before| then i - 1 else i;
      var j' := if j <= |before| then j - 1 else j;
      assert now[i] == was[i'] && now[j] == was[j'] && i' != j';
    }
  }

  /** Only the left end of processing delivers its job. */
  lemma LeftIsAlone(sv: Server, x: Reference)
    requires Tidy(sv) && AtLeft(sv, x) && !IsPoison(x)
    ensures forall r | (r in sv.source || r in sv.processing[1..]) && !IsPoison(r) :: r.job != x.job
  {
    var n := |sv.source|;
    assert Line(sv)[n] == x;
    forall r | r in sv.source && !IsPoison(r) ensures r.job != x.job {
      var i :| 0 <= i < n && sv.source[i] == r;
      assert Line(sv)[i] == r;
    }
    forall r | r in sv.processing[1..] && !IsPoison(r) ensures r.job != x.job {
      var i :| 0 <= i < |sv.processing| - 1 && sv.processing[1..][i] == r;
      assert Line(sv)[n + 1 + i] == r;
    }
  }

  lemma CountKeepsTidy(sv: Server, x: Reference)
    requires Tidy(sv) && AtLeft(sv, x) && !IsPoison(x) && AttemptsOf(sv, x) < MAX_DELIVERY_ATTEMPTS
    ensures Tidy(CountAttempt(sv, x.job.value).0)
    ensures 1 <= CountAttempt(sv, x.job.value).1 <= MAX_DELIVERY_ATTEMPTS
  {
    var after := CountAttempt(sv, x.job.value).0;
    LeftIsAlone(sv, x);
    assert x in Line(after);
    assert sv.processing == [x] + sv.processing[1..];
    forall job | job in after.attempts ensures after.attempts[job] >= 1 && IsPending(after, job) {
      if job != x.job.value {
        assert IsPending(sv, job);
        var r :| r in Line(sv) && Delivers(r, job);
        assert r in Line(after);
      }
    }
  }

  /** The left end leaves the queue, and the attempts of its job are forgotten unless it is poison. */
  lemma LeavingKeepsTidy(sv: Server, x: Reference, after: Server)
    requires Tidy(sv) && AtLeft(sv, x)
    requires after.source == sv.source && after.processing == sv.processing[1..]
    requires
      || (x.job.Some? && after.attempts == sv.attempts - {x.job.value})
      || (IsPoison(x) && after.attempts == sv.attempts)
    ensures Tidy(after)
  {
    assert sv.processing == [x] + sv.processing[1..];
    assert Line(sv) == sv.source + [x] + sv.processing[1..];
    DistinctWithout(sv.source, x, sv.processing[1..]);
    if !IsPoison(x) {
      LeftIsAlone(sv, x);
    }
    forall job | job in after.attempts ensures after.attempts[job] >= 1 && IsPending(after, job) {
      assert IsPending(sv, job);
      var r :| r in Line(sv) && Delivers(r, job);
      assert r in Line(after);
    }
  }

  lemma DistinctWithout(before: seq<Reference>, x: Reference, rest: seq<Reference>)
    requires JobsDistinct(before + [x] + rest)
    ensures JobsDistinct(before + rest)
  {
    var was, now := before + [x] + rest, before + rest;
    forall i, j | 0 <= i < j < |now| && !IsPoison(now[i]) && !IsPoison(now[j]) ensures now[i].job != now[j].job {
      var i' := if i < |before| then i else i + 1;
      var j' := if j < |before| then j else j + 1;
      assert now[i] == was[i'] && now[j] == was[j'];
    }
  }

  /** A pushed reference delivers nothing that is still pending. */
  ghost predicate IsFresh(sv: Server, raw: Reference) {
    !IsPoison(raw) ==> !IsPending(sv, raw.job.value)
  }

  lemma PushKeepsTidy(sv: Server, raw: Reference)
    requires Tidy(sv) && IsFresh(sv, raw)
    ensures Tidy(sv.(source := [raw] + sv.source))
  {
    var after := sv.(source := [raw] + sv.source);
    assert Line(after) == [raw] + Line(sv);
    if !IsPoison(raw) {
      forall r | r in Line(sv) && !IsPoison(r) ensures r.job != raw.job {
        assert !Delivers(r, raw.job.value);
      }
      assert raw.job.value !in sv.attempts;
    }
    forall job | job in after.attempts ensures IsPending(after, job) {
      assert IsPending(sv, job);
      var r :| r in Line(sv) && Delivers(r, job);
      assert r in Line(after);
    }
  }

  // --- each answer keeps the system sound ---

  lemma PoppedStaysSound(sys: System, raw: Reference)
    requires Sound(sys) && sys.client == Popped(raw)
    ensures Sound(OnPopped(sys, raw).0)
  {
    if IsPoison(raw) {
      LeavingKeepsTidy(sys.server, raw, Discard(sys.server, raw));
    } else {
      CountKeepsTidy(sys.server, raw);
    }
  }

  lemma AcknowledgeStaysSound(sys: System, d: Delivery)
    requires Sound(sys) && sys.client == Holding(d)
    ensures Sound(OnAcknowledge(sys, d).0)
  {
    LeavingKeepsTidy(sys.server, d.raw, AckScript(sys.server, d.raw, d.job).0);
  }

  lemma RequeueStaysSound(sys: System, d: Delivery)
    requires Sound(sys) && sys.client == Holding(d)
    ensures Sound(OnRequeue(sys, d).0)
  {
    if d.attempt >= MAX_DELIVERY_ATTEMPTS {
      LeavingKeepsTidy(sys.server, d.raw,
                       QuarantineScript(sys.server, d.raw, FailureRecord(d.job, d.attempt), d.job).0);
    } else {
      MoveToBackKeepsTidy(sys.server);
    }
  }

  lemma TrackedStaysSound(sys: System, raw: Reference, attempt: Option<int>, starting: bool)
    requires Sound(sys) && sys.client == Tracked(raw, attempt, starting)
    ensures Sound(OnTracked(sys, raw, attempt, starting).0)
  {
    if Exhausted(raw, attempt) {
      LeavingKeepsTidy(sys.server, raw,
        QuarantineScript(sys.server, raw, FailureRecord(raw.job.value, attempt.value), raw.job.value).0);
    } else {
      MoveToFrontKeepsTidy(sys.server);
    }
  }

  lemma AnswerStaysSound(sys: System, acknowledge: bool)
    requires Sound(sys)
    ensures Sound(Answered(sys, acknowledge).0)
  {
    match sys.client
    case Ready => TakeKeepsTidy(sys.server);
    case Popped(raw) => PoppedStaysSound(sys, raw);
    case Holding(d) =>
      AcknowledgeStaysSound(sys, d);
      RequeueStaysSound(sys, d);
    case Tracked(raw, attempt, starting) => TrackedStaysSound(sys, raw, attempt, starting);
    case _ =>
  }

  lemma CommandStaysSound(sys: System, action: Action)
    requires Sound(sys) && action.Command?
    ensures Sound(Next(sys, action))
  {
    var answered := Answered(sys, action.acknowledge).0;
    AnswerStaysSound(sys, action.acknowledge);
    match action.fault
    case Fine => assert Next(sys, action) == answered;
    case RequestLost => assert Next(sys, action).server == sys.server;
    case ReplyLost => assert Next(sys, action).server == answered.server;
  }

  lemma ActionStaysSound(sys: System, action: Action)
    requires Sound(sys) && (action.Push? ==> IsFresh(sys.server, action.raw))
    ensures Sound(Next(sys, action))
  {
    match action
    case Push(raw) => PushKeepsTidy(sys.server, raw);
    case Crash =>
    case Command(_, _) => CommandStaysSound(sys, action);
  }

  /** What is pushed here, if anything, is not pending. */
  ghost predicate FreshAt(actions: seq<Action>, k: nat)
    requires k < |actions|
  {
    actions[k].Push? ==> IsFresh(Run(actions[..k]).server, actions[k].raw)
  }

  /** No producer pushes a job that is still pending. */
  ghost predicate PushesAreFresh(actions: seq<Action>) {
    forall k {:trigger FreshAt(actions, k)} | 0 <= k < |actions| :: FreshAt(actions, k)
  }

  lemma FreshPrefix(actions: seq<Action>, n: nat)
    requires PushesAreFresh(actions) && n <= |actions|
    ensures PushesAreFresh(actions[..n])
  {
    forall k | 0 <= k < n ensures FreshAt(actions[..n], k) {
      assert actions[..n][..k] == actions[..k];
      assert FreshAt(actions, k);
    }
  }

  lemma {:induction false} RunIsSound(actions: seq<Action>)
    requires PushesAreFresh(actions)
    ensures Sound(Run(actions))
    decreases |actions|
  {
    if actions != [] {
      var n := |actions| - 1;
      FreshPrefix(actions, n);
      RunIsSound(actions[..n]);
      assert FreshAt(actions, n);
      ActionStaysSound(Run(actions[..n]), actions[n]);
    }
  }

  /**
   The delivery bound: in every run without premature pushes, waiting jobs have been delivered at
   most twice, those in processing and those handed out one to three times, and attempts are kept
   for pending jobs only.
   */
  lemma DeliveryBound(actions: seq<Action>)
    requires PushesAreFresh(actions)
    ensures var sys := Run(actions);
      && (forall r | r in sys.server.source && !IsPoison(r) :: AttemptsOf(sys.server, r) <= 2)
      && (forall r | r in sys.server.processing && !IsPoison(r) :: AttemptsOf(sys.server, r) <= 3)
      && (forall job | job in sys.server.attempts :: IsPending(sys.server, job))
      && (sys.client.Holding? ==> 1 <= sys.client.delivery.attempt <= 3)
  {
    RunIsSound(actions);
    var sys := Run(actions);
    if sys.client.Holding? {
      assert AttemptsOf(sys.server, sys.client.delivery.raw) == sys.client.delivery.attempt;
      assert sys.client.delivery.raw in sys.server.processing;
    }
  }

  // --- dead letters ---

  /** Each dead letter has its failure record, made after the last permitted attempt. */
  ghost predicate DeadLettersMatch(sv: Server) {
    && |sv.failures| == |sv.deadLetters|
    && forall i | 0 <= i < |sv.deadLetters| ::
         sv.deadLetters[i].job == Some(sv.failures[i].job) && sv.failures[i].attempts >= MAX_DELIVERY_ATTEMPTS
  }

  lemma QuarantineKeepsRecords(sv: Server, raw: Reference, failure: FailureRecord, job: JobId)
    requires DeadLettersMatch(sv) && raw.job == Some(failure.job) && failure.attempts >= MAX_DELIVERY_ATTEMPTS
    ensures DeadLettersMatch(QuarantineScript(sv, raw, failure, job).0)
  {
  }

  lemma AnswerKeepsRecords(sys: System, acknowledge: bool)
    requires DeadLettersMatch(sys.server) && Steady(sys)
    ensures DeadLettersMatch(Answered(sys, acknowledge).0.server)
  {
    match sys.client
    case Holding(d) =>
      if d.attempt >= MAX_DELIVERY_ATTEMPTS {
        QuarantineKeepsRecords(sys.server, d.raw, FailureRecord(d.job, d.attempt), d.job);
      }
    case Tracked(raw, attempt, _) =>
      if Exhausted(raw, attempt) {
        QuarantineKeepsRecords(sys.server, raw, FailureRecord(raw.job.value, attempt.value), raw.job.value);
      }
    case _ =>
  }

  /** In every run each dead letter has its own failure record, for its job and after three attempts or more. */
  lemma {:induction false} DeadLettersAreRecorded(actions: seq<Action>)
    ensures DeadLettersMatch(Run(actions).server)
    decreases |actions|
  {
    if actions != [] {
      var before, action := Run(actions[..|actions| - 1]), actions[|actions| - 1];
      DeadLettersAreRecorded(actions[..|actions| - 1]);
      RunIsSteady(actions[..|actions| - 1]);
      if action.Command? {
        AnswerKeepsRecords(before, action.acknowledge);
      }
    }
  }
}
