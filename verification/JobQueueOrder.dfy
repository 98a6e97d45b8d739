/**
 In what order the queue delivers: recovery puts interrupted deliveries back in front, oldest
 first, a requeued job goes behind everything that waits, and what waits is taken in order.
 */
module JobQueueOrder {
  import opened Wrappers
  import opened JobQueue
  import opened JobQueueBound

  // --- recovery ---

  /** The left end of processing leaves it: to the dead letters when exhausted, else to the front of the queue. */
  function RecoverOne(sv: Server): Server
    requires sv.processing != []
  {
    var raw := sv.processing[0];
    var attempt := AttemptOf(sv, raw);
    if Exhausted(raw, attempt) then
      QuarantineScript(sv, raw, FailureRecord(raw.job.value, attempt.value), raw.job.value).0
    else
      MoveToFront(sv).0
  }

  /** The first n rounds of the recovery loop. */
  function RecoverSome(sv: Server, n: nat): (after: Server)
    requires n <= |sv.processing|
    ensures after.processing == sv.processing[n..]
    decreases n
  {
    if n == 0 then sv else RecoverSome(RecoverOne(sv), n - 1)
  }

  lemma {:induction false} RecoverSomeExtends(sv: Server, n: nat)
    requires n < |sv.processing|
    ensures RecoverSome(sv, n + 1) == RecoverOne(RecoverSome(sv, n))
    decreases n
  {
    if n > 0 {
      RecoverSomeExtends(RecoverOne(sv), n - 1);
    }
  }

  lemma LooksUpLeft(sys: System)
    requires sys.client.Recovering? && sys.server.processing != []
    ensures var x := sys.server.processing[0];
      After(sys, [STEP, STEP]) == sys.(client := Tracked(x, AttemptOf(sys.server, x), sys.client.starting))
  {
    AfterTwo(sys, STEP, STEP);
  }

  lemma HandlesLeft(sys: System)
    requires sys.server.processing != [] && sys.client.Tracked? && sys.client.raw == sys.server.processing[0]
    requires sys.client.attempt == AttemptOf(sys.server, sys.client.raw)
    ensures Next(sys, STEP) == sys.(server := RecoverOne(sys.server), client := Recovering(sys.client.starting))
  {
  }

  /** A round of recovery is three commands. */
  lemma RoundIsThreeSteps(sys: System)
    requires sys.client.Recovering? && sys.server.processing != []
    ensures After(sys, [STEP, STEP] + [STEP]) == sys.(server := RecoverOne(sys.server))
  {
    LooksUpLeft(sys);
    var tracked := After(sys, [STEP, STEP]);
    HandlesLeft(tracked);
    AfterContinues(sys, [STEP, STEP], [STEP]);
    AfterOne(tracked, STEP);
  }

  /** So many rounds of recovery in a row. */
  function Rounds(n: nat): seq<Action> {
    if n == 0 then [] else [STEP, STEP] + [STEP] + Rounds(n - 1)
  }

  lemma {:induction false} RoundsRecover(sys: System, n: nat)
    requires sys.client.Recovering? && n <= |sys.server.processing|
    ensures After(sys, Rounds(n)) == sys.(server := RecoverSome(sys.server, n))
    decreases n
  {
    if n == 0 {
    } else {
      RoundIsThreeSteps(sys);
      RoundsRecover(After(sys, [STEP, STEP] + [STEP]), n - 1);
      AfterContinues(sys, [STEP, STEP] + [STEP], Rounds(n - 1));
    }
  }

  predicate Spent(sv: Server, raw: Reference) {
    Exhausted(raw, AttemptOf(sv, raw))
  }

  /** The references of a list that are spent, or that are not, in order. */
  function Selected(sv: Server, items: seq<Reference>, spent: bool): seq<Reference> {
    if items == [] then []
    else (if Spent(sv, items[0]) == spent then [items[0]] else []) + Selected(sv, items[1..], spent)
  }

  ghost predicate SameAttemptsFor(a: Server, b: Server, items: seq<Reference>) {
    forall r | r in items :: AttemptOf(a, r) == AttemptOf(b, r)
  }

  lemma {:induction false} SelectedAgrees(a: Server, b: Server, items: seq<Reference>, spent: bool)
    requires SameAttemptsFor(a, b, items)
    ensures Selected(a, items, spent) == Selected(b, items, spent)
    decreases |items|
  {
    if items != [] {
      SelectedAgrees(a, b, items[1..], spent);
    }
  }

  /** No two entries decode to the same job. */
  ghost predicate DecodedOnce(items: seq<Reference>) {
    forall i, j | 0 <= i < j < |items| && items[i].job.Some? :: items[i].job != items[j].job
  }

  lemma RecoverOneKeepsRest(sv: Server)
    requires sv.processing != [] && DecodedOnce(sv.processing)
    ensures SameAttemptsFor(sv, RecoverOne(sv), sv.processing[1..])
    ensures DecodedOnce(sv.processing[1..])
  {
    var x, rest := sv.processing[0], sv.processing[1..];
    forall i, j | 0 <= i < j < |rest| && rest[i].job.Some? ensures rest[i].job != rest[j].job {
      assert rest[i] == sv.processing[i + 1] && rest[j] == sv.processing[j + 1];
    }
    forall r | r in rest ensures AttemptOf(sv, r) == AttemptOf(RecoverOne(sv), r) {
      var i :| 0 <= i < |rest| && rest[i] == r;
      assert r == sv.processing[i + 1];
    }
  }

  lemma RecoverOneSorts(sv: Server)
    requires sv.processing != []
    ensures var x, after := sv.processing[0], RecoverOne(sv);
      && after.processing == sv.processing[1..]
      && after.source == sv.source + (if Spent(sv, x) then [] else [x])
      && after.deadLetters == sv.deadLetters + (if Spent(sv, x) then [x] else [])
  {
  }

  /** A list is selected entry by entry, the rest by any state that agrees on its attempts. */
  lemma SelectedSplits(sv: Server, one: Server, x: Reference, rest: seq<Reference>, spent: bool, before: seq<Reference>)
    requires SameAttemptsFor(sv, one, rest)
    ensures before + (if Spent(sv, x) == spent then [x] else []) + Selected(one, rest, spent)
      == before + Selected(sv, [x] + rest, spent)
  {
    assert ([x] + rest)[1..] == rest;
    SelectedAgrees(sv, one, rest, spent);
  }

  /** After these rounds the list is sorted into what waits again and what is dead. */
  ghost predicate SortedInto(sv: Server, after: Server, items: seq<Reference>) {
    && after.source == sv.source + Selected(sv, items, false)
    && after.deadLetters == sv.deadLetters + Selected(sv, items, true)
  }

  lemma SortedStepwise(sv: Server, one: Server, after: Server, x: Reference, rest: seq<Reference>)
    requires SameAttemptsFor(sv, one, rest) && SortedInto(one, after, rest)
    requires one.source == sv.source + (if Spent(sv, x) then [] else [x])
    requires one.deadLetters == sv.deadLetters + (if Spent(sv, x) then [x] else [])
    ensures SortedInto(sv, after, [x] + rest)
  {
    SelectedSplits(sv, one, x, rest, false, sv.source);
    SelectedSplits(sv, one, x, rest, true, sv.deadLetters);
  }

  lemma SortedFromRest(sv: Server, n: nat, after: Server)
    requires 0 < n <= |sv.processing| && DecodedOnce(sv.processing)
    requires SortedInto(RecoverOne(sv), after, sv.processing[1..n])
    ensures SortedInto(sv, after, sv.processing[..n])
  {
    var one, x, rest := RecoverOne(sv), sv.processing[0], sv.processing[1..n];
    RecoverOneKeepsRest(sv);
    RecoverOneSorts(sv);
    assert sv.processing[..n] == [x] + rest;
    forall r | r in rest ensures AttemptOf(sv, r) == AttemptOf(one, r) {
      assert r in sv.processing[1..];
    }
    SortedStepwise(sv, one, after, x, rest);
  }

  /**
   What recovery does to distinct jobs: the entries not yet exhausted are back at the front of the
   queue, in the order they had, and the exhausted ones are dead letters.
   */
  lemma {:induction false} RecoverySorts(sv: Server, n: nat)
    requires n <= |sv.processing| && DecodedOnce(sv.processing)
    ensures SortedInto(sv, RecoverSome(sv, n), sv.processing[..n])
    decreases n
  {
    if n == 0 {
    } else {
      RecoverOneKeepsRest(sv);
      RecoverOneSorts(sv);
      RecoverySorts(RecoverOne(sv), n - 1);
      assert sv.processing[1..][..n - 1] == sv.processing[1..n];
      SortedFromRest(sv, n, RecoverSome(RecoverOne(sv), n - 1));
    }
  }

  // --- taking in order ---

  /** y waits closer to delivery than x. */
  ghost predicate Ahead(items: seq<Reference>, y: Reference, x: Reference) {
    exists i, j :: 0 <= i < j < |items| && items[i] == x && items[j] == y
  }

  lemma AheadStays(items: seq<Reference>, before: seq<Reference>, behind: seq<Reference>, y: Reference, x: Reference)
    requires Ahead(items, y, x)
    ensures Ahead(before + items + behind, y, x)
  {
    var i, j :| 0 <= i < j < |items| && items[i] == x && items[j] == y;
    var all, n := before + items + behind, |before|;
    assert all[n + i] == x && all[n + j] == y;
  }

  /** The reference an action takes out of the queue. */
  function Takes(sys: System, action: Action): Option<Reference> {
    if sys.client.Ready? && action.Command? && action.fault != RequestLost then TakeOldest(sys.server).1 else None
  }

  /** Every action but a take leaves the waiting references as they are, or adds one at either end. */
  lemma OneStepGrows(sys: System, action: Action) returns (before: seq<Reference>, behind: seq<Reference>)
    requires Takes(sys, action) == None
    ensures Next(sys, action).server.source == before + sys.server.source + behind
  {
    var items, after := sys.server.source, Next(sys, action).server.source;
    before, behind := [], [];
    if action.Push? {
      before := [action.raw];
    } else if action.Command? && action.fault != RequestLost && after != items {
      if sys.client.Holding? {
        before := [sys.server.processing[0]];
      } else {
        behind := [sys.server.processing[0]];
      }
    }
  }

  lemma TakeKeepsOrder(sv: Server, y: Reference, x: Reference)
    requires Ahead(sv.source, y, x) && TakeOldest(sv).1 != Some(y)
    ensures Ahead(TakeOldest(sv).0.source, y, x)
  {
  }

  lemma OneStepKeepsOrder(sys: System, action: Action, y: Reference, x: Reference)
    requires Ahead(sys.server.source, y, x) && Takes(sys, action) != Some(y)
    ensures Ahead(Next(sys, action).server.source, y, x)
  {
    if Takes(sys, action) == None {
      var before, behind := OneStepGrows(sys, action);
      AheadStays(sys.server.source, before, behind, y, x);
    } else {
      TakeKeepsOrder(sys.server, y, x);
    }
  }

  /** Only the last of the waiting references is taken, and its job waits nowhere else. */
  lemma TakenIsNotBehind(sys: System, action: Action, y: Reference, x: Reference)
    requires JobsDistinct(Line(sys.server)) && !IsPoison(x)
    requires Ahead(sys.server.source, y, x)
    ensures Takes(sys, action) != Some(x)
  {
    var items := sys.server.source;
    var i, j :| 0 <= i < j < |items| && items[i] == x && items[j] == y;
    assert Line(sys.server)[i] == x && Line(sys.server)[|items| - 1] == items[|items| - 1];
  }

  /** What the action at a place of a run takes. */
  function TakenAt(actions: seq<Action>, k: nat): Option<Reference>
    requires k < |actions|
  {
    Takes(Run(actions[..k]), actions[k])
  }

  lemma StepKeepsOrder(actions: seq<Action>, k: nat, y: Reference, x: Reference)
    requires PushesAreFresh(actions) && k < |actions| && !IsPoison(x)
    requires Ahead(Run(actions[..k]).server.source, y, x)
    ensures TakenAt(actions, k) != Some(x)
    ensures TakenAt(actions, k) != Some(y) ==> Ahead(Run(actions[..k + 1]).server.source, y, x)
  {
    FreshPrefix(actions, k);
    RunIsSound(actions[..k]);
    TakenIsNotBehind(Run(actions[..k]), actions[k], y, x);
    if TakenAt(actions, k) != Some(y) {
      OneStepKeepsOrder(Run(actions[..k]), actions[k], y, x);
      assert actions[..k + 1][..k] == actions[..k];
    }
  }

  /**
   First come, first served: in every run without premature pushes, a job is not taken before one
   that waited ahead of it at some moment has been taken.
   */
  lemma {:induction false} TakenInOrder(actions: seq<Action>, first: nat, last: nat, y: Reference, x: Reference)
    requires PushesAreFresh(actions) && first <= last < |actions| && !IsPoison(x)
    requires Ahead(Run(actions[..first]).server.source, y, x)
    requires TakenAt(actions, last) == Some(x)
    ensures exists k :: first <= k < last && TakenAt(actions, k) == Some(y)
    decreases last - first
  {
    StepKeepsOrder(actions, first, y, x);
    if TakenAt(actions, first) != Some(y) {
      TakenInOrder(actions, first + 1, last, y, x);
    }
  }

  /** A requeued job waits behind everything that was waiting. */
  lemma RequeuedGoesLast(sys: System, d: Delivery, y: Reference)
    requires Sound(sys) && sys.client == Holding(d) && d.attempt < MAX_DELIVERY_ATTEMPTS
    requires y in sys.server.source
    ensures Ahead(OnRequeue(sys, d).0.server.source, y, d.raw)
  {
    var j :| 0 <= j < |sys.server.source| && sys.server.source[j] == y;
    var after := OnRequeue(sys, d).0.server.source;
    assert after[0] == d.raw && after[j + 1] == y;
  }

  /**
   Fairness: in every run without premature pushes, a job that was given back is taken again only
   after everything that was waiting then.
   */
  lemma RequeuedWaitsItsTurn(actions: seq<Action>, m: nat, last: nat, d: Delivery, y: Reference)
    requires PushesAreFresh(actions) && m < last < |actions|
    requires Run(actions[..m]).client == Holding(d) && d.attempt < MAX_DELIVERY_ATTEMPTS
    requires actions[m].Command? && actions[m].fault != RequestLost && !actions[m].acknowledge
    requires y in Run(actions[..m]).server.source
    requires TakenAt(actions, last) == Some(d.raw)
    ensures exists k :: m < k < last && TakenAt(actions, k) == Some(y)
  {
    var sys := Run(actions[..m]);
    FreshPrefix(actions, m);
    RunIsSound(actions[..m]);
    RequeuedGoesLast(sys, d, y);
    assert actions[..m + 1][..m] == actions[..m];
    assert Run(actions[..m + 1]).server == OnRequeue(sys, d).0.server;
    TakenInOrder(actions, m + 1, last, y, d.raw);
  }

  /** The entries that a recovery gives back to the queue. */
  function Kept(sv: Server): seq<Reference> {
    Selected(sv, sv.processing, false)
  }

  // --- a recovery among pushes and failures ---

  predicate IsRecovering(client: Client) {
    client.Recovering? || client.Inspected? || client.Tracked?
  }

  /** The consumer is at the left end of processing, or about to look there. */
  ghost predicate LooksLeft(sys: System) {
    match sys.client
    case Recovering(_) => true
    case Inspected(raw, _) => AtLeft(sys.server, raw)
    case Tracked(raw, attempt, _) => AtLeft(sys.server, raw) && attempt == AttemptOf(sys.server, raw)
    case _ => false
  }

  function Behind(sv: Server, pushed: seq<Reference>): Server {
    sv.(source := pushed + sv.source)
  }

  /** Since the server was in state sv, n entries have been recovered, and these were pushed. */
  ghost predicate Recovered(sv: Server, n: nat, pushed: seq<Reference>, sys: System) {
    n <= |sv.processing| && sys.server == Behind(RecoverSome(sv, n), pushed) && LooksLeft(sys)
  }

  /** Pushes only touch the other end of the queue. */
  lemma RecoverOneWithPushes(sv: Server, pushed: seq<Reference>)
    requires sv.processing != []
    ensures RecoverOne(Behind(sv, pushed)) == Behind(RecoverOne(sv), pushed)
  {
    assert pushed + sv.source + [sv.processing[0]] == pushed + (sv.source + [sv.processing[0]]);
  }

  lemma RecoveryPush(sv: Server, n: nat, pushed: seq<Reference>, sys: System, raw: Reference)
    requires Recovered(sv, n, pushed, sys)
    ensures Recovered(sv, n, [raw] + pushed, Next(sys, Push(raw)))
  {
    assert [raw] + (pushed + RecoverSome(sv, n).source) == [raw] + pushed + RecoverSome(sv, n).source;
  }

  lemma RecoveryHandles(sv: Server, n: nat, pushed: seq<Reference>, sys: System, action: Action)
    requires Recovered(sv, n, pushed, sys) && IsRecovering(Next(sys, action).client)
    requires action.Command? && action.fault != RequestLost && sys.client.Tracked?
    ensures Recovered(sv, n + 1, pushed, Next(sys, action))
  {
    RecoverSomeExtends(sv, n);
    RecoverOneWithPushes(RecoverSome(sv, n), pushed);
    assert Answered(sys, action.acknowledge).0.server == RecoverOne(sys.server);
  }

  lemma RecoveryLooks(sys: System, action: Action)
    requires LooksLeft(sys) && IsRecovering(Next(sys, action).client) && !action.Push?
    requires action.Command? && sys.client.Tracked? ==> action.fault == RequestLost
    ensures LooksLeft(Next(sys, action)) && Next(sys, action).server == sys.server
  {
  }

  /** While the consumer recovers, every action pushes, recovers one more entry or changes nothing. */
  lemma RecoveryStep(sv: Server, n: nat, pushed: seq<Reference>, sys: System, action: Action)
    returns (n': nat, pushed': seq<Reference>)
    requires Recovered(sv, n, pushed, sys) && IsRecovering(Next(sys, action).client)
    ensures Recovered(sv, n', pushed', Next(sys, action))
  {
    if action.Push? {
      n', pushed' := n, [action.raw] + pushed;
      RecoveryPush(sv, n, pushed, sys, action.raw);
    } else if action.Command? && action.fault != RequestLost && sys.client.Tracked? {
      n', pushed' := n + 1, pushed;
      RecoveryHandles(sv, n, pushed, sys, action);
    } else {
      n', pushed' := n, pushed;
      RecoveryLooks(sys, action);
    }
  }

  lemma {:induction false} RecoveryGoesOn(actions: seq<Action>, m: nat, k: nat) returns (n: nat, pushed: seq<Reference>)
    requires m <= k <= |actions| && LooksLeft(Run(actions[..m]))
    requires forall i | m <= i <= k :: IsRecovering(Run(actions[..i]).client)
    ensures Recovered(Run(actions[..m]).server, n, pushed, Run(actions[..k]))
    decreases k
  {
    if k == m {
      n, pushed := 0, [];
      assert [] + Run(actions[..m]).server.source == Run(actions[..m]).server.source;
    } else {
      n, pushed := RecoveryGoesOn(actions, m, k - 1);
      assert actions[..k][..k - 1] == actions[..k - 1];
      n, pushed := RecoveryStep(Run(actions[..m]).server, n, pushed, Run(actions[..k - 1]), actions[k - 1]);
    }
  }

  /** A complete recovery puts the kept entries in front of everything that was waiting or was pushed. */
  lemma RecoveredLine(actions: seq<Action>, m: nat, r: nat) returns (pushed: seq<Reference>)
    requires m <= r <= |actions| && LooksLeft(Run(actions[..m]))
    requires DecodedOnce(Run(actions[..m]).server.processing) && Run(actions[..r]).server.processing == []
    requires forall i | m <= i <= r :: IsRecovering(Run(actions[..i]).client)
    ensures var sv := Run(actions[..m]).server;
      Run(actions[..r]).server.source == pushed + sv.source + Kept(sv)
  {
    var sv := Run(actions[..m]).server;
    var n;
    n, pushed := RecoveryGoesOn(actions, m, r);
    RecoverySorts(sv, n);
    assert sv.processing[..n] == sv.processing;
  }

  lemma KeptIsAhead(waiting: seq<Reference>, kept: seq<Reference>, j: nat, x: Reference)
    requires j < |kept| && (x in waiting || x in kept[..j])
    ensures Ahead(waiting + kept, kept[j], x)
  {
    var all, behind := waiting + kept, waiting + kept[..j];
    assert x in behind;
    var i :| 0 <= i < |behind| && behind[i] == x;
    assert all[i] == x && all[|waiting| + j] == kept[j];
  }

  /**
   Oldest first: once a recovery of distinct jobs is complete, whatever was pushed, lost or crashed
   meanwhile, an entry that it gave back is taken before every entry that had been taken later, and
   before everything else that waits.
   */
  lemma RecoveredOldestFirst(actions: seq<Action>, m: nat, r: nat, j: nat, x: Reference, last: nat)
    requires PushesAreFresh(actions) && m <= r <= last < |actions|
    requires forall i | m <= i <= r :: IsRecovering(Run(actions[..i]).client)
    requires DecodedOnce(Run(actions[..m]).server.processing) && Run(actions[..r]).server.processing == []
    requires j < |Kept(Run(actions[..m]).server)| && x !in Kept(Run(actions[..m]).server)[j..]
    requires x in Run(actions[..r]).server.source && !IsPoison(x) && TakenAt(actions, last) == Some(x)
    ensures exists k :: r <= k < last && TakenAt(actions, k) == Some(Kept(Run(actions[..m]).server)[j])
  {
    var sv := Run(actions[..m]).server;
    FreshPrefix(actions, m);
    RunIsSound(actions[..m]);
    var pushed := RecoveredLine(actions, m, r);
    assert Kept(sv) == Kept(sv)[..j] + Kept(sv)[j..];
    KeptIsAhead(pushed + sv.source, Kept(sv), j, x);
    TakenInOrder(actions, r, last, Kept(sv)[j], x);
  }
}
