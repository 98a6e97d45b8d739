/**
 What is posted for a job and what becomes of its delivery, told from the answers of the control plane,
 the graph and the lease alone; and how often and how late a request is repeated.
 */
module WorkerOutcomes {
  import opened Wrappers
  import opened Contracts
  import opened WorkerProcess

  // --- repeated requests ---

  predicate MayRepeat<T>(reply: Reply<T>) {
    reply.Fail? && reply.fault.ApiFault? && reply.fault.retryable
  }

  /** The n-th attempt is the one that counts: all before it failed retryably, and it is the last or did not. */
  ghost predicate IsCounted<T>(replies: nat -> Reply<T>, maxAttempts: nat, n: nat) {
    && 1 <= n <= maxAttempts
    && (forall k: nat | 1 <= k < n :: MayRepeat(replies(k)))
    && (n < maxAttempts ==> !MayRepeat(replies(n)))
  }

  lemma CountedIsLast<T>(replies: nat -> Reply<T>, maxAttempts: nat, n: nat)
    requires maxAttempts >= 1
    ensures IsCounted(replies, maxAttempts, n) <==> n == LastAttempt(replies, 1, maxAttempts)
  {
    var last := LastAttempt(replies, 1, maxAttempts);
    assert forall k: nat | 1 <= k < last :: !IsFinal(replies(k)) && MayRepeat(replies(k));
  }

  /** The waits between attempts: one second at first, then twice the last one, up to the maximum. */
  ghost predicate AreDelays(delays: seq<nat>, maxBackoff: nat) {
    && (delays != [] ==> delays[0] == if 1 < maxBackoff then 1 else maxBackoff)
    && forall i | 0 < i < |delays| ::
         delays[i] == if 2 * delays[i - 1] < maxBackoff then 2 * delays[i - 1] else maxBackoff
  }

  /** So many attempts of a request, with these waits between them. */
  ghost predicate AreAttempts(calls: seq<Call>, call: Call, n: nat, delays: seq<nat>) {
    && n >= 1 && |delays| == n - 1 && |calls| == 2 * n - 1
    && (forall i | 0 <= i < n :: calls[2 * i] == call)
    && forall i | 0 <= i < n - 1 :: calls[2 * i + 1] == Sleep(delays[i])
  }

  /** A request is attempted as often as it counts, with doubling waits. */
  lemma {:induction false} AttemptsAreSpaced(call: Call, n: nat, maxBackoff: nat) returns (delays: seq<nat>)
    requires n >= 1
    ensures AreDelays(delays, maxBackoff) && AreAttempts(RetryCalls(call, n, maxBackoff), call, n, delays)
    ensures forall i | 0 <= i < |delays| :: delays[i] == Delay(i + 1, maxBackoff)
    decreases n
  {
    if n == 1 {
      delays := [];
    } else {
      var before := AttemptsAreSpaced(call, n - 1, maxBackoff);
      delays := before + [Delay(n - 1, maxBackoff)];
      var calls, front := RetryCalls(call, n, maxBackoff), RetryCalls(call, n - 1, maxBackoff);
      assert calls == front + [Sleep(Delay(n - 1, maxBackoff)), call];
      forall i | 0 <= i < n ensures calls[2 * i] == call {
        if i < n - 1 {
          assert calls[2 * i] == front[2 * i];
        }
      }
      forall i | 0 <= i < n - 1 ensures calls[2 * i + 1] == Sleep(delays[i]) {
        if i < n - 2 {
          assert calls[2 * i + 1] == front[2 * i + 1];
        }
      }
    }
  }

  // --- what is posted ---

  /** The outcomes among some calls, in order. */
  function Posts(calls: seq<Call>): seq<Call> {
    if calls == [] then []
    else (if calls[0].PostOutcome? then [calls[0]] else []) + Posts(calls[1..])
  }

  lemma {:induction false} PostsAppend(a: seq<Call>, b: seq<Call>)
    ensures Posts(a + b) == Posts(a) + Posts(b)
    decreases |a|
  {
    if a == [] {
      assert a + b == b;
    } else {
      var head := if a[0].PostOutcome? then [a[0]] else [];
      assert (a + b)[1..] == a[1..] + b;
      PostsAppend(a[1..], b);
      assert Posts(a + b) == head + (Posts(a[1..]) + Posts(b));
      assert head + (Posts(a[1..]) + Posts(b)) == (head + Posts(a[1..])) + Posts(b);
    }
  }

  lemma {:induction false} QuietHasNoPosts(calls: seq<Call>)
    requires IsQuiet(calls)
    ensures Posts(calls) == []
    decreases |calls|
  {
    if calls != [] {
      assert calls[0] in calls;
      QuietHasNoPosts(calls[1..]);
    }
  }

  /** What a fault is reported as. */
  predicate IsReportedAs(fault: Fault, outcome: string, code: string) {
    match fault
    case ApiFault(_, c, retryable) =>
      code == c && outcome == (if retryable then "RETRYABLE_FAILURE" else "PERMANENT_FAILURE")
    case KnownFault(c, retryable) =>
      code == c && outcome == (if retryable then "RETRYABLE_FAILURE" else "PERMANENT_FAILURE")
    case UnknownFault => code == "INTERNAL_TRANSIENT_ERROR" && outcome == "RETRYABLE_FAILURE"
  }

  /** What becomes of the delivery after the last post: kept only when it failed. */
  predicate VerdictAfter(failure: Option<Fault>, verdict: Verdict) {
    match failure
    case None => verdict == Acknowledge
    case Some(fault) => verdict == if fault.ApiFault? then GiveBack else Propagate
  }

  /** A fault is reported once under a current lease, and not at all under a lost one. */
  ghost predicate ReportsFault(w: World, claim: Claim, fault: Fault, posts: seq<Call>, verdict: Verdict) {
    if w.leaseAtFailure.Some? then posts == [] && verdict == GiveBack
    else
      && (exists outcome, code :: IsReportedAs(fault, outcome, code)
            && posts == [PostOutcome(claim, outcome, Some(code), Absent, w.failure == None)])
      && VerdictAfter(w.failure, verdict)
  }

  /** The graph of a profile-bound job completed, or waits with a pending approval. */
  predicate HasSucceeded(result: GraphResult) {
    || (result.status == Some("COMPLETED") && result.pendingApproval == Absent)
    || (result.status == Some("WAITING_APPROVAL") && result.pendingApproval.Given?)
  }

  /** The graph's own status is posted under a current lease, with its approval and without a code. */
  ghost predicate ReportsSuccess(w: World, claim: Claim, result: GraphResult, posts: seq<Call>, verdict: Verdict)
    requires result.status.Some?
  {
    var post := PostOutcome(claim, result.status.value, None, result.pendingApproval, w.success == None);
    if w.leaseAtSuccess.Some? then posts == [] && verdict == GiveBack
    else if w.success == None then posts == [post] && verdict == Acknowledge
    else if w.success.value.ApiFault? then posts == [post] && verdict == GiveBack
    else exists more :: posts == [post] + more && ReportsFault(w, claim, w.success.value, more, verdict)
  }

  /** What a claimed job has to post. */
  ghost predicate Reports(w: World, event: Event, claim: Claim, posts: seq<Call>, verdict: Verdict) {
    if w.heartbeat.Some? then ReportsFault(w, claim, w.heartbeat.value, posts, verdict)
    else if w.graph.Fail? then ReportsFault(w, claim, w.graph.fault, posts, verdict)
    else if event.profileVersionId == None then posts == [] && verdict == Acknowledge
    else if HasSucceeded(w.graph.value) then ReportsSuccess(w, claim, w.graph.value, posts, verdict)
    else ReportsFault(w, claim, KnownFault("CONTRACT_VALIDATION_FAILED", false), posts, verdict)
  }

  lemma LoneCheck(claim: Claim)
    ensures Posts([EnsureCurrent(claim, false)]) == []
  {
    assert [EnsureCurrent(claim, false)][1..] == [];
  }

  lemma CheckedPost(claim: Claim, post: Call)
    requires post.PostOutcome?
    ensures Posts([EnsureCurrent(claim, true), post]) == [post]
  {
    var calls := [EnsureCurrent(claim, true), post];
    assert calls[1..] == [post] && [post][1..] == [];
    assert Posts([post]) == [post];
  }

  lemma FaultIsReported(w: World, claim: Claim, fault: Fault)
    ensures var report := FailureReport(w, claim, fault);
      ReportsFault(w, claim, fault, Posts(report.calls), report.verdict)
  {
    var (retryable, code) := Classified(fault);
    var outcome := if retryable then "RETRYABLE_FAILURE" else "PERMANENT_FAILURE";
    var post := PostOutcome(claim, outcome, Some(code), Absent, w.failure == None);
    assert IsReportedAs(fault, outcome, code);
    CheckedPost(claim, post);
    LoneCheck(claim);
  }

  lemma SuccessIsReported(w: World, claim: Claim, result: GraphResult)
    requires HasSucceeded(result)
    ensures var report := SuccessReport(w, claim, result);
      ReportsSuccess(w, claim, result, Posts(report.calls), report.verdict)
  {
    LoneCheck(claim);
    if w.leaseAtSuccess == None {
      var check := EnsureCurrent(claim, true);
      var post := PostOutcome(claim, result.status.value, None, result.pendingApproval, w.success == None);
      CheckedPost(claim, post);
      if w.success.Some? && !w.success.value.ApiFault? {
        FaultIsReported(w, claim, w.success.value);
        PostsAppend([check, post], FailureReport(w, claim, w.success.value).calls);
      }
    }
  }

  lemma ReportIsExact(w: World, event: Event, claim: Claim)
    ensures Reports(w, event, claim, Posts(Reported(w, event, claim).calls), Reported(w, event, claim).verdict)
  {
    if w.heartbeat.Some? {
      FaultIsReported(w, claim, w.heartbeat.value);
    } else if w.graph.Fail? {
      FaultIsReported(w, claim, w.graph.fault);
      PostsAppend([RunGraph(claim)], FailureReport(w, claim, w.graph.fault).calls);
    } else if event.profileVersionId.Some? {
      if HasSucceeded(w.graph.value) {
        SuccessIsReported(w, claim, w.graph.value);
      } else {
        FaultIsReported(w, claim, KnownFault("CONTRACT_VALIDATION_FAILED", false));
      }
      PostsAppend([RunGraph(claim)], SuccessReport(w, claim, w.graph.value).calls);
    }
  }

  // --- the whole job ---

  /** The event and the claim that processing obtains. */
  ghost predicate Obtains(w: World, maxAttempts: nat, event: Event, claim: Claim) {
    && (exists n: nat :: IsCounted(w.resolve, maxAttempts, n) && w.resolve(n) == Answer(event))
    && w.duplicate.Answer? && (w.duplicate.value ==> event.profileVersionId.Some?)
    && (exists n: nat :: IsCounted(w.claim, maxAttempts, n) && w.claim(n) == Answer(claim))
  }

  lemma ObtainedIsCounted(w: World, maxAttempts: nat, event: Event, claim: Claim)
    requires maxAttempts >= 1
    ensures Obtains(w, maxAttempts, event, claim) ==>
      && w.resolve(LastAttempt(w.resolve, 1, maxAttempts)) == Answer(event)
      && w.claim(LastAttempt(w.claim, 1, maxAttempts)) == Answer(claim)
      && ClaimObtained(w, maxAttempts) == Some(claim)
  {
    if Obtains(w, maxAttempts, event, claim) {
      var n: nat :| IsCounted(w.resolve, maxAttempts, n) && w.resolve(n) == Answer(event);
      CountedIsLast(w.resolve, maxAttempts, n);
      var m: nat :| IsCounted(w.claim, maxAttempts, m) && w.claim(m) == Answer(claim);
      CountedIsLast(w.claim, maxAttempts, m);
    }
  }

  lemma ObtainedCalls(w: World, maxAttempts: nat, maxBackoff: nat, event: Event, claim: Claim) returns (waited: seq<Call>)
    requires maxAttempts >= 1 && Obtains(w, maxAttempts, event, claim)
    ensures IsQuiet(waited)
    ensures var processed, report := Processed(w, maxAttempts, maxBackoff), Reported(w, event, claim);
      && processed.calls == waited + ([StartHeartbeat(claim)] + report.calls + [StopHeartbeat(claim.jobId)])
      && processed.verdict == report.verdict
  {
    ObtainedIsCounted(w, maxAttempts, event, claim);
    var n, m := LastAttempt(w.resolve, 1, maxAttempts), LastAttempt(w.claim, 1, maxAttempts);
    RetriesAreQuiet(Resolve, n, maxBackoff);
    RetriesAreQuiet(ClaimJob, m, maxBackoff);
    waited := RetryCalls(Resolve, n, maxBackoff) + ([CheckDuplicate] + RetryCalls(ClaimJob, m, maxBackoff));
  }

  /** A claimed job posts exactly what its heartbeat, graph and lease call for, and its verdict says how that went. */
  lemma PostsAreExact(w: World, maxAttempts: nat, maxBackoff: nat, event: Event, claim: Claim)
    requires maxAttempts >= 1 && Obtains(w, maxAttempts, event, claim)
    ensures var processed := Processed(w, maxAttempts, maxBackoff);
      Reports(w, event, claim, Posts(processed.calls), processed.verdict)
  {
    var waited := ObtainedCalls(w, maxAttempts, maxBackoff, event, claim);
    var report := Reported(w, event, claim);
    QuietHasNoPosts(waited);
    ReportIsExact(w, event, claim);
    FramedPosts(claim, report.calls);
    PostsAppend(waited, [StartHeartbeat(claim)] + report.calls + [StopHeartbeat(claim.jobId)]);
  }

  lemma FramedPosts(claim: Claim, calls: seq<Call>)
    ensures Posts([StartHeartbeat(claim)] + calls + [StopHeartbeat(claim.jobId)]) == Posts(calls)
  {
    assert [StartHeartbeat(claim)][1..] == [] && [StopHeartbeat(claim.jobId)][1..] == [];
    PostsAppend([StartHeartbeat(claim)], calls);
    PostsAppend([StartHeartbeat(claim)] + calls, [StopHeartbeat(claim.jobId)]);
  }

  /** An answer of the control plane that the job is unknown or out of date. */
  predicate IsRejection(fault: Fault) {
    && fault.ApiFault? && !fault.retryable
    && (|| (fault.status == Some(404) && fault.code == "JOB_NOT_FOUND")
        || (fault.status == Some(409) && fault.code == "JOB_STATE_VERSION_CONFLICT"))
  }

  /** The job was finally rejected, or it is a duplicate that carries no profile. */
  ghost predicate IsDone(w: World, maxAttempts: nat) {
    exists n: nat :: IsCounted(w.resolve, maxAttempts, n)
      && match w.resolve(n)
         case Fail(fault) => IsRejection(fault)
         case Answer(event) => event.profileVersionId == None && w.duplicate == Answer(true)
  }

  /** Without a claim nothing is posted, and the delivery is given up exactly when the job is done. */
  lemma UnclaimedIsExact(w: World, maxAttempts: nat, maxBackoff: nat)
    requires maxAttempts >= 1
    requires forall event, claim :: !Obtains(w, maxAttempts, event, claim)
    ensures var processed := Processed(w, maxAttempts, maxBackoff);
      && Posts(processed.calls) == []
      && processed.verdict == (if IsDone(w, maxAttempts) then Acknowledge else GiveBack)
  {
    var n, m := LastAttempt(w.resolve, 1, maxAttempts), LastAttempt(w.claim, 1, maxAttempts);
    CountedIsLast(w.resolve, maxAttempts, n);
    CountedIsLast(w.claim, maxAttempts, m);
    forall k: nat | IsCounted(w.resolve, maxAttempts, k) ensures k == n {
      CountedIsLast(w.resolve, maxAttempts, k);
    }
    if ClaimObtained(w, maxAttempts).Some? {
      assert Obtains(w, maxAttempts, w.resolve(n).value, w.claim(m).value);
    }
    HeartbeatIsStopped(w, maxAttempts, maxBackoff);
    QuietHasNoPosts(Processed(w, maxAttempts, maxBackoff).calls);
  }

  /**
   A job is resolved with as many attempts as count, spaced with doubling waits; the duplicate check
   comes next, and then the claim in the same way.
   */
  lemma RequestsAreExact(w: World, maxAttempts: nat, maxBackoff: nat, n: nat)
    returns (delays: seq<nat>)
    requires IsCounted(w.resolve, maxAttempts, n)
    ensures AreDelays(delays, maxBackoff)
    ensures var calls := Processed(w, maxAttempts, maxBackoff).calls;
      && |calls| >= 2 * n - 1 && AreAttempts(calls[..2 * n - 1], Resolve, n, delays)
      && (w.resolve(n).Answer? ==> |calls| >= 2 * n && calls[2 * n - 1] == CheckDuplicate)
      && (w.resolve(n).Fail? ==> |calls| == 2 * n - 1)
  {
    CountedIsLast(w.resolve, maxAttempts, n);
    delays := AttemptsAreSpaced(Resolve, n, maxBackoff);
    var calls, first := Processed(w, maxAttempts, maxBackoff).calls, RetryCalls(Resolve, n, maxBackoff);
    if w.resolve(n).Answer? {
      var rest := Resolved(w, w.resolve(n).value, maxAttempts, maxBackoff).calls;
      assert rest[0] == CheckDuplicate;
      assert calls == first + rest;
    }
    assert calls[..2 * n - 1] == first;
  }

  lemma MiddlePart(a: seq<Call>, x: Call, b: seq<Call>, c: seq<Call>)
    ensures (a + ([x] + (b + c)))[|a| + 1..|a| + 1 + |b|] == b
  {
  }

  /** A resolved job is claimed with as many attempts as count, spaced in the same way. */
  lemma ClaimsAreExact(w: World, maxAttempts: nat, maxBackoff: nat, n: nat, m: nat)
    returns (delays: seq<nat>)
    requires IsCounted(w.resolve, maxAttempts, n) && w.resolve(n).Answer? && IsCounted(w.claim, maxAttempts, m)
    requires w.duplicate.Answer? && (w.duplicate.value ==> w.resolve(n).value.profileVersionId.Some?)
    ensures AreDelays(delays, maxBackoff)
    ensures var calls := Processed(w, maxAttempts, maxBackoff).calls;
      && |calls| >= 2 * n + 2 * m - 1 && AreAttempts(calls[2 * n..2 * n + 2 * m - 1], ClaimJob, m, delays)
      && (w.claim(m).Fail? ==> |calls| == 2 * n + 2 * m - 1)
  {
    CountedIsLast(w.resolve, maxAttempts, n);
    CountedIsLast(w.claim, maxAttempts, m);
    var before := AttemptsAreSpaced(Resolve, n, maxBackoff);
    delays := AttemptsAreSpaced(ClaimJob, m, maxBackoff);
    var resolving, claiming := RetryCalls(Resolve, n, maxBackoff), RetryCalls(ClaimJob, m, maxBackoff);
    var calls := Processed(w, maxAttempts, maxBackoff).calls;
    var rest := if w.claim(m).Fail? then [] else Claimed(w, w.resolve(n).value, w.claim(m).value).calls;
    assert ClaimedIfPossible(w, w.resolve(n).value, maxAttempts, maxBackoff).calls == claiming + rest by {
      assert claiming + [] == claiming;
    }
    assert calls == resolving + ([CheckDuplicate] + (claiming + rest));
    MiddlePart(resolving, CheckDuplicate, claiming, rest);
  }
}
