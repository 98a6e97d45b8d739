/**
 The Valkey lists of one worker queue as a transition system: every server command is atomic,
 producers may push between any two of them, and the one consumer may crash, lose a request or
 lose a reply at any command.
 */
module JobQueue {
  import opened Wrappers

  const MAX_DELIVERY_ATTEMPTS := 3

  type JobId = string

  /** One queue payload: its bytes, whether their number is allowed, and the job they decode to. */
  datatype Reference = Reference(bytes: int, fits: bool, job: Option<JobId>)

  datatype FailureRecord = FailureRecord(job: JobId, attempts: int)

  /** The server's keys; index 0 of a list is its LEFT end. */
  datatype Server = Server(
    source: seq<Reference>, processing: seq<Reference>, attempts: map<JobId, int>,
    deadLetters: seq<Reference>, failures: seq<FailureRecord>)

  datatype Delivery = Delivery(raw: Reference, job: JobId, attempt: int)

  // --- server commands ---

  /** BLMOVE source RIGHT to processing LEFT. */
  function TakeOldest(sv: Server): (Server, Option<Reference>) {
    if sv.source == [] then (sv, None)
    else
      var last := |sv.source| - 1;
      (sv.(source := sv.source[..last], processing := [sv.source[last]] + sv.processing), Some(sv.source[last]))
  }

  /** LMOVE processing LEFT to source LEFT, where it waits behind everything else. */
  function MoveToBack(sv: Server): (Server, Option<Reference>) {
    if sv.processing == [] then (sv, None)
    else (sv.(source := [sv.processing[0]] + sv.source, processing := sv.processing[1..]), Some(sv.processing[0]))
  }

  /** LMOVE processing LEFT to source RIGHT, where it is next. */
  function MoveToFront(sv: Server): (Server, Option<Reference>) {
    if sv.processing == [] then (sv, None)
    else (sv.(source := sv.source + [sv.processing[0]], processing := sv.processing[1..]), Some(sv.processing[0]))
  }

  function RecordedAttempts(sv: Server, job: JobId): int {
    if job in sv.attempts then sv.attempts[job] else 0
  }

  /** HINCRBY by one. */
  function CountAttempt(sv: Server, job: JobId): (Server, int) {
    var n := RecordedAttempts(sv, job) + 1;
    (sv.(attempts := sv.attempts[job := n]), n)
  }

  /** LREM of the first occurrence. */
  function RemoveFirst(items: seq<Reference>, item: Reference): seq<Reference> {
    if items == [] then []
    else if items[0] == item then items[1..]
    else [items[0]] + RemoveFirst(items[1..], item)
  }

  /** The acknowledgement script. */
  function AckScript(sv: Server, raw: Reference, job: JobId): (Server, int) {
    if raw !in sv.processing then (sv, 0)
    else (sv.(processing := RemoveFirst(sv.processing, raw), attempts := sv.attempts - {job}), 1)
  }

  /** The quarantine script. */
  function QuarantineScript(sv: Server, raw: Reference, failure: FailureRecord, job: JobId): (Server, int) {
    if raw !in sv.processing then (sv, 0)
    else (sv.(processing := RemoveFirst(sv.processing, raw), deadLetters := sv.deadLetters + [raw],
              failures := sv.failures + [failure], attempts := sv.attempts - {job}), 1)
  }

  function Discard(sv: Server, raw: Reference): Server {
    sv.(processing := RemoveFirst(sv.processing, raw))
  }

  // --- the consumer between two commands ---

  datatype Client =
    | Ready                                             // about to pop
    | Popped(raw: Reference)                            // the reference is in processing, not yet counted
    | Holding(delivery: Delivery)                       // delivered to the worker loop
    | Recovering(starting: bool)                        // at the top of the recovery loop
    | Inspected(raw: Reference, starting: bool)         // saw the left end of processing
    | Tracked(raw: Reference, attempt: Option<int>, starting: bool)   // and looked its attempts up

  /** The process has started and has to finish its first recovery before it may pop. */
  predicate IsStarting(client: Client) {
    (client.Recovering? || client.Inspected? || client.Tracked?) && client.starting
  }

  datatype Fault = Fine | RequestLost | ReplyLost

  datatype Action =
    | Push(raw: Reference)                              // a producer's LPUSH
    | Crash                                             // the process dies and starts over
    | Command(fault: Fault, acknowledge: bool)          // the consumer's next server command

  /** What an operation may complain about although the server answered. */
  datatype Complaint = NoComplaint | DeliveryMissing | OrderChanged | AttemptInvalid

  /** The queue, and where every reference ever pushed went. */
  datatype System = System(
    server: Server, client: Client, pushed: seq<Reference>, acknowledged: seq<Reference>, discarded: seq<Reference>)

  const EMPTY := System(Server([], [], map[], [], []), Recovering(true), [], [], [])

  predicate IsPoison(raw: Reference) {
    !raw.fits || raw.job == None
  }

  /** A reference was taken: poison is discarded, a job's attempt is counted. */
  function OnPopped(sys: System, raw: Reference): (System, Complaint) {
    var sv := sys.server;
    if IsPoison(raw) then
      var gone := if raw in sv.processing then [raw] else [];
      (System(Discard(sv, raw), Recovering(false), sys.pushed, sys.acknowledged, sys.discarded + gone), NoComplaint)
    else
      var (after, n) := CountAttempt(sv, raw.job.value);
      if n < 1 then (sys.(server := after, client := Recovering(false)), AttemptInvalid)
      else (sys.(server := after, client := Holding(Delivery(raw, raw.job.value, n))), NoComplaint)
  }

  function OnAcknowledge(sys: System, d: Delivery): (System, Complaint) {
    var (after, removed) := AckScript(sys.server, d.raw, d.job);
    if removed != 1 then (sys.(client := Recovering(false)), DeliveryMissing)
    else (System(after, Ready, sys.pushed, sys.acknowledged + [d.raw], sys.discarded), NoComplaint)
  }

  /** The last permitted attempt is quarantined, an earlier one goes to the back of the queue. */
  function OnRequeue(sys: System, d: Delivery): (System, Complaint) {
    if d.attempt >= MAX_DELIVERY_ATTEMPTS then
      var (after, removed) := QuarantineScript(sys.server, d.raw, FailureRecord(d.job, d.attempt), d.job);
      if removed != 1 then (sys.(client := Recovering(false)), DeliveryMissing)
      else (sys.(server := after, client := Ready), NoComplaint)
    else
      var (after, moved) := MoveToBack(sys.server);
      if moved != Some(d.raw) then (sys.(server := after, client := Recovering(false)), OrderChanged)
      else (sys.(server := after, client := Ready), NoComplaint)
  }

  predicate Exhausted(raw: Reference, attempt: Option<int>) {
    raw.job.Some? && attempt.Some? && attempt.value >= MAX_DELIVERY_ATTEMPTS
  }

  /** A stale entry was looked up: exhausted ones are quarantined, others become next in line. */
  function OnTracked(sys: System, raw: Reference, attempt: Option<int>, starting: bool): (System, Complaint) {
    if Exhausted(raw, attempt) then
      var (after, removed) :=
        QuarantineScript(sys.server, raw, FailureRecord(raw.job.value, attempt.value), raw.job.value);
      if removed != 1 then (sys.(client := AfterError(sys.client)), DeliveryMissing)
      else (sys.(server := after, client := Recovering(starting)), NoComplaint)
    else
      var (after, moved) := MoveToFront(sys.server);
      (sys.(server := after, client := if moved == None then Ready else Recovering(starting)), NoComplaint)
  }

  function AttemptOf(sv: Server, raw: Reference): Option<int> {
    if raw.job.Some? && raw.job.value in sv.attempts then Some(sv.attempts[raw.job.value]) else None
  }

  /** The consumer's next command has run on the server, and its reply arrived. */
  function Answered(sys: System, acknowledge: bool): (System, Complaint) {
    var sv := sys.server;
    match sys.client
    case Ready =>
      var (after, raw) := TakeOldest(sv);
      (sys.(server := after, client := if raw == None then Ready else Popped(raw.value)), NoComplaint)
    case Popped(raw) => OnPopped(sys, raw)
    case Holding(d) => if acknowledge then OnAcknowledge(sys, d) else OnRequeue(sys, d)
    case Recovering(starting) =>
      (sys.(client := if sv.processing == [] then Ready else Inspected(sv.processing[0], starting)), NoComplaint)
    case Inspected(raw, starting) => (sys.(client := Tracked(raw, AttemptOf(sv, raw), starting)), NoComplaint)
    case Tracked(raw, attempt, starting) => OnTracked(sys, raw, attempt, starting)
  }

  /**
   After a connection error the worker loop recovers, and when that recovery fails too it goes on
   popping. A failed first recovery ends the process instead, which then starts over.
   */
  function AfterError(client: Client): Client {
    match client
    case Recovering(starting) => if starting then Recovering(true) else Ready
    case Inspected(_, starting) => if starting then Recovering(true) else Ready
    case Tracked(_, _, starting) => if starting then Recovering(true) else Ready
    case _ => Recovering(false)
  }

  function Next(sys: System, action: Action): System {
    match action
    case Push(raw) =>
      sys.(server := sys.server.(source := [raw] + sys.server.source), pushed := sys.pushed + [raw])
    case Crash => sys.(client := Recovering(true))
    case Command(fault, acknowledge) =>
      match fault
      case Fine => Answered(sys, acknowledge).0
      case RequestLost => sys.(client := AfterError(sys.client))
      case ReplyLost => Answered(sys, acknowledge).0.(client := AfterError(sys.client))
  }

  function Run(actions: seq<Action>): System {
    if actions == [] then EMPTY else Next(Run(actions[..|actions| - 1]), actions[|actions| - 1])
  }

  // --- continuing a run ---

  /** The consumer's next command runs; a held delivery is given back. */
  const STEP := Command(Fine, false)

  /** The consumer's next command is lost. */
  const LOSS := Command(RequestLost, false)

  /** The system after more actions. */
  function After(sys: System, actions: seq<Action>): System {
    if actions == [] then sys else Next(After(sys, actions[..|actions| - 1]), actions[|actions| - 1])
  }

  lemma {:induction false} RunContinues(actions: seq<Action>, more: seq<Action>)
    ensures Run(actions + more) == After(Run(actions), more)
    decreases |more|
  {
    if more == [] {
      assert actions + more == actions;
    } else {
      var front := more[..|more| - 1];
      assert (actions + more)[..|actions + more| - 1] == actions + front;
      RunContinues(actions, front);
    }
  }

  lemma {:induction false} AfterContinues(sys: System, actions: seq<Action>, more: seq<Action>)
    ensures After(sys, actions + more) == After(After(sys, actions), more)
    decreases |more|
  {
    if more == [] {
      assert actions + more == actions;
    } else {
      var front := more[..|more| - 1];
      assert (actions + more)[..|actions + more| - 1] == actions + front;
      AfterContinues(sys, actions, front);
    }
  }

  lemma AfterOne(sys: System, action: Action)
    ensures After(sys, [action]) == Next(sys, action)
  {
    assert [action][..0] == [];
    assert After(sys, []) == sys;
  }

  lemma AfterTwo(sys: System, a: Action, b: Action)
    ensures After(sys, [a, b]) == Next(Next(sys, a), b)
  {
    assert [a, b] == [a] + [b];
    AfterOne(sys, a);
    AfterContinues(sys, [a], [b]);
    AfterOne(Next(sys, a), b);
  }

  // --- conservation ---

  function Once(r: Reference, other: Reference): nat {
    if r == other then 1 else 0
  }

  /** How often a reference occurs in a list. */
  function Count(items: seq<Reference>, r: Reference): nat {
    if items == [] then 0 else Once(r, items[0]) + Count(items[1..], r)
  }

  lemma {:induction false} CountAppends(a: seq<Reference>, b: seq<Reference>, r: Reference)
    ensures Count(a + b, r) == Count(a, r) + Count(b, r)
    decreases |a|
  {
    if a == [] {
      assert a + b == b;
    } else {
      assert (a + b)[1..] == a[1..] + b;
      CountAppends(a[1..], b, r);
    }
  }

  /** How many copies of a reference the server's lists hold. */
  ghost function Held(sv: Server, r: Reference): nat {
    Count(sv.source, r) + Count(sv.processing, r) + Count(sv.deadLetters, r)
  }

  /** How many copies of a reference are accounted for. */
  ghost function Whereabouts(sys: System, r: Reference): nat {
    Held(sys.server, r) + Count(sys.acknowledged, r) + Count(sys.discarded, r)
  }

  lemma {:induction false} RemoveFirstTakesOne(items: seq<Reference>, item: Reference, r: Reference)
    ensures Count(RemoveFirst(items, item), r) == Count(items, r) - (if item in items then Once(r, item) else 0)
    decreases |items|
  {
    if items != [] && items[0] != item {
      assert items == [items[0]] + items[1..];
      RemoveFirstTakesOne(items[1..], item, r);
    }
  }

  lemma Joins(items: seq<Reference>, item: Reference, r: Reference)
    ensures Count([item] + items, r) == Count(items, r) + Once(r, item)
    ensures Count(items + [item], r) == Count(items, r) + Once(r, item)
  {
    CountAppends([item], items, r);
    CountAppends(items, [item], r);
  }

  lemma TakeConserves(sv: Server, r: Reference)
    ensures Held(TakeOldest(sv).0, r) == Held(sv, r)
  {
    if sv.source != [] {
      var last := |sv.source| - 1;
      Joins(sv.source[..last], sv.source[last], r);
      Joins(sv.processing, sv.source[last], r);
      assert sv.source == sv.source[..last] + [sv.source[last]];
    }
  }

  lemma MovesConserve(sv: Server, r: Reference)
    ensures Held(MoveToBack(sv).0, r) == Held(MoveToFront(sv).0, r) == Held(sv, r)
  {
    if sv.processing != [] {
      Joins(sv.source, sv.processing[0], r);
    }
  }

  lemma AckTakesOne(sv: Server, raw: Reference, job: JobId, r: Reference)
    requires raw in sv.processing
    ensures Held(AckScript(sv, raw, job).0, r) + Once(r, raw) == Held(sv, r)
  {
    RemoveFirstTakesOne(sv.processing, raw, r);
  }

  lemma DiscardTakesOne(sv: Server, raw: Reference, r: Reference)
    ensures Held(Discard(sv, raw), r) + (if raw in sv.processing then Once(r, raw) else 0) == Held(sv, r)
  {
    RemoveFirstTakesOne(sv.processing, raw, r);
  }

  lemma QuarantineConserves(sv: Server, raw: Reference, failure: FailureRecord, job: JobId, r: Reference)
    ensures Held(QuarantineScript(sv, raw, failure, job).0, r) == Held(sv, r)
  {
    RemoveFirstTakesOne(sv.processing, raw, r);
    Joins(sv.deadLetters, raw, r);
  }

  lemma PoppedConserves(sys: System, raw: Reference, r: Reference)
    ensures Whereabouts(OnPopped(sys, raw).0, r) == Whereabouts(sys, r)
  {
    DiscardTakesOne(sys.server, raw, r);
    Joins(sys.discarded, raw, r);
    assert sys.discarded + [] == sys.discarded;
  }

  lemma AcknowledgeConserves(sys: System, d: Delivery, r: Reference)
    ensures Whereabouts(OnAcknowledge(sys, d).0, r) == Whereabouts(sys, r)
  {
    if d.raw in sys.server.processing {
      AckTakesOne(sys.server, d.raw, d.job, r);
      Joins(sys.acknowledged, d.raw, r);
    }
  }

  lemma RequeueConserves(sys: System, d: Delivery, r: Reference)
    ensures Whereabouts(OnRequeue(sys, d).0, r) == Whereabouts(sys, r)
  {
    MovesConserve(sys.server, r);
    QuarantineConserves(sys.server, d.raw, FailureRecord(d.job, d.attempt), d.job, r);
  }

  lemma TrackedConserves(sys: System, raw: Reference, attempt: Option<int>, starting: bool, r: Reference)
    ensures Whereabouts(OnTracked(sys, raw, attempt, starting).0, r) == Whereabouts(sys, r)
  {
    MovesConserve(sys.server, r);
    if Exhausted(raw, attempt) {
      QuarantineConserves(sys.server, raw, FailureRecord(raw.job.value, attempt.value), raw.job.value, r);
    }
  }

  lemma AnsweredConserves(sys: System, acknowledge: bool, r: Reference)
    ensures Whereabouts(Answered(sys, acknowledge).0, r) == Whereabouts(sys, r)
    ensures Answered(sys, acknowledge).0.pushed == sys.pushed
  {
    match sys.client
    case Ready => TakeConserves(sys.server, r);
    case Popped(raw) => PoppedConserves(sys, raw, r);
    case Holding(d) =>
      AcknowledgeConserves(sys, d, r);
      RequeueConserves(sys, d, r);
    case Tracked(raw, attempt, starting) => TrackedConserves(sys, raw, attempt, starting, r);
    case _ =>
  }

  /**
   Conservation: in every run, whatever crashes and faults it has, each copy of a reference ever
   pushed is in exactly one place - waiting, in processing, dead-lettered, acknowledged or
   discarded.
   */
  lemma {:induction false} QueueConserves(actions: seq<Action>, r: Reference)
    ensures Whereabouts(Run(actions), r) == Count(Run(actions).pushed, r)
    decreases |actions|
  {
    if actions != [] {
      var before, action := Run(actions[..|actions| - 1]), actions[|actions| - 1];
      QueueConserves(actions[..|actions| - 1], r);
      match action
      case Push(raw) =>
        Joins(before.server.source, raw, r);
        Joins(before.pushed, raw, r);
      case Crash =>
      case Command(_, acknowledge) => AnsweredConserves(before, acknowledge, r);
    }
  }
}
