/**
 How the worker loop processes one job: resolve, claim, keep the lease alive, run the graph, report
 one outcome, and decide whether the queue may forget the job. Every answer of the control plane,
 the graph and the lease is arbitrary.
 */
module WorkerProcess {
  import opened Wrappers
  import opened Contracts

  /** A raised exception, as far as the loop tells them apart. */
  datatype Fault =
    | ApiFault(status: Option<int>, code: string, retryable: bool)
    | KnownFault(code: string, retryable: bool)
    | UnknownFault

  datatype Reply<T> = Answer(value: T) | Fail(fault: Fault)

  datatype Approval = Absent | Given(payload: int) | Malformed

  /** What the graph returns; a result that is no mapping has no status. */
  datatype GraphResult = GraphResult(status: Option<string>, pendingApproval: Approval)

  /** Everything the loop is told while it processes one job. */
  datatype World = World(
    resolve: nat -> Reply<Event>, duplicate: Reply<bool>, claim: nat -> Reply<Claim>,
    heartbeat: Option<Fault>, graph: Reply<GraphResult>,
    leaseAtSuccess: Option<string>, success: Option<Fault>,
    leaseAtFailure: Option<string>, failure: Option<Fault>)

  /** What the loop does to the world, in order. */
  datatype Call =
    | Resolve
    | Sleep(seconds: nat)
    | CheckDuplicate
    | ClaimJob
    | StartHeartbeat(claim: Claim)
    | RunGraph(claim: Claim)
    | EnsureCurrent(claim: Claim, current: bool)
    | PostOutcome(claim: Claim, outcome: string, code: Option<string>, approval: Approval, accepted: bool)
    | StopHeartbeat(jobId: string)

  datatype Verdict = Acknowledge | GiveBack | Propagate

  datatype Processing = Processing(calls: seq<Call>, verdict: Verdict)

  // --- retrying with backoff ---

  function PowerOfTwo(n: nat): nat {
    if n == 0 then 1 else 2 * PowerOfTwo(n - 1)
  }

  function Delay(attempt: nat, maxBackoff: nat): nat
    requires attempt >= 1
  {
    if PowerOfTwo(attempt - 1) < maxBackoff then PowerOfTwo(attempt - 1) else maxBackoff
  }

  predicate IsFinal<T>(reply: Reply<T>) {
    reply.Fail? ==> !reply.fault.ApiFault? || !reply.fault.retryable
  }

  /** The attempt whose reply counts: the first that is not a retryable failure, at most the last. */
  function LastAttempt<T>(replies: nat -> Reply<T>, attempt: nat, maxAttempts: nat): (n: nat)
    requires 1 <= attempt <= maxAttempts
    ensures attempt <= n <= maxAttempts
    ensures forall k | attempt <= k < n :: !IsFinal(replies(k))
    ensures n < maxAttempts ==> IsFinal(replies(n))
    decreases maxAttempts - attempt
  {
    if IsFinal(replies(attempt)) || attempt == maxAttempts then attempt
    else LastAttempt(replies, attempt + 1, maxAttempts)
  }

  /** The calls of a retried request that ends with the given attempt. */
  function RetryCalls(call: Call, attempts: nat, maxBackoff: nat): seq<Call>
    requires attempts >= 1
  {
    if attempts == 1 then [call]
    else RetryCalls(call, attempts - 1, maxBackoff) + [Sleep(Delay(attempts - 1, maxBackoff)), call]
  }

  // --- what processing a job amounts to ---

  predicate IsTerminalRejection(fault: Fault) {
    && fault.ApiFault? && !fault.retryable
    && (fault.status, fault.code) in {(Some(404), "JOB_NOT_FOUND"), (Some(409), "JOB_STATE_VERSION_CONFLICT")}
  }

  function Classified(fault: Fault): (bool, string) {
    match fault
    case ApiFault(_, code, retryable) => (retryable, code)
    case KnownFault(code, retryable) => (retryable, code)
    case UnknownFault => (true, "INTERNAL_TRANSIENT_ERROR")
  }

  const CONTRACT_FAULT := KnownFault("CONTRACT_VALIDATION_FAILED", false)

  predicate IsReportable(result: GraphResult) {
    || (result.status == Some("WAITING_APPROVAL") && result.pendingApproval.Given?)
    || (result.status == Some("COMPLETED") && result.pendingApproval == Absent)
  }

  /** Reporting a failure: one outcome if the lease is still current. */
  function FailureReport(w: World, claim: Claim, fault: Fault): Processing {
    var (retryable, code) := Classified(fault);
    if w.leaseAtFailure.Some? then Processing([EnsureCurrent(claim, false)], GiveBack)
    else
      var outcome := if retryable then "RETRYABLE_FAILURE" else "PERMANENT_FAILURE";
      Processing(
        [EnsureCurrent(claim, true), PostOutcome(claim, outcome, Some(code), Absent, w.failure == None)],
        if w.failure == None then Acknowledge
        else if w.failure.value.ApiFault? then GiveBack
        else Propagate)
  }

  /** Reporting what the graph returned; a failure that is no API failure is reported in turn. */
  function SuccessReport(w: World, claim: Claim, result: GraphResult): Processing {
    if !IsReportable(result) then FailureReport(w, claim, CONTRACT_FAULT)
    else if w.leaseAtSuccess.Some? then Processing([EnsureCurrent(claim, false)], GiveBack)
    else
      var post := PostOutcome(claim, result.status.value, None, result.pendingApproval, w.success == None);
      var calls := [EnsureCurrent(claim, true), post];
      if w.success == None then Processing(calls, Acknowledge)
      else if w.success.value.ApiFault? then Processing(calls, GiveBack)
      else
        var report := FailureReport(w, claim, w.success.value);
        Processing(calls + report.calls, report.verdict)
  }

  /** Running a claimed job and reporting what came of it. */
  function Reported(w: World, event: Event, claim: Claim): Processing {
    if w.heartbeat.Some? then FailureReport(w, claim, w.heartbeat.value)
    else
      match w.graph
      case Fail(fault) => AfterRunning(claim, FailureReport(w, claim, fault))
      case Answer(result) =>
        if !IsProfileBound(event) then Processing([RunGraph(claim)], Acknowledge)
        else AfterRunning(claim, SuccessReport(w, claim, result))
  }

  function AfterRunning(claim: Claim, report: Processing): Processing {
    Processing([RunGraph(claim)] + report.calls, report.verdict)
  }

  /** From the claim to the end of the heartbeat. */
  function Claimed(w: World, event: Event, claim: Claim): Processing {
    var report := Reported(w, event, claim);
    Processing([StartHeartbeat(claim)] + report.calls + [StopHeartbeat(claim.jobId)], report.verdict)
  }

  /** Claiming a resolved job, and what follows if that succeeds. */
  function ClaimedIfPossible(w: World, event: Event, maxAttempts: nat, maxBackoff: nat): Processing
    requires maxAttempts >= 1
  {
    var n := LastAttempt(w.claim, 1, maxAttempts);
    var calls := RetryCalls(ClaimJob, n, maxBackoff);
    match w.claim(n)
    case Fail(_) => Processing(calls, GiveBack)
    case Answer(claim) =>
      var rest := Claimed(w, event, claim);
      Processing(calls + rest.calls, rest.verdict)
  }

  function Resolved(w: World, event: Event, maxAttempts: nat, maxBackoff: nat): Processing
    requires maxAttempts >= 1
  {
    if w.duplicate.Fail? then Processing([CheckDuplicate], GiveBack)
    else if w.duplicate.value && !IsProfileBound(event) then Processing([CheckDuplicate], Acknowledge)
    else
      var rest := ClaimedIfPossible(w, event, maxAttempts, maxBackoff);
      Processing([CheckDuplicate] + rest.calls, rest.verdict)
  }

  /** All of it. */
  function Processed(w: World, maxAttempts: nat, maxBackoff: nat): Processing
    requires maxAttempts >= 1
  {
    var n := LastAttempt(w.resolve, 1, maxAttempts);
    var calls := RetryCalls(Resolve, n, maxBackoff);
    match w.resolve(n)
    case Fail(fault) => Processing(calls, if IsTerminalRejection(fault) then Acknowledge else GiveBack)
    case Answer(event) =>
      var rest := Resolved(w, event, maxAttempts, maxBackoff);
      Processing(calls + rest.calls, rest.verdict)
  }

  lemma ThreeParts(a: seq<Call>, b: seq<Call>, c: seq<Call>)
    ensures a + b + c == a + (b + c)
  {
  }

  class JobProcessor {
    const maxAttempts: nat
    const maxBackoff: nat
    var calls: seq<Call>

    constructor (maxAttempts: nat, maxBackoff: nat)
      requires maxAttempts >= 1
      ensures this.maxAttempts == maxAttempts && this.maxBackoff == maxBackoff && calls == []
    {
      this.maxAttempts, this.maxBackoff, calls := maxAttempts, maxBackoff, [];
    }

    /** Repeats a request while it fails in a retryable way. */
    method WithBackoff<T>(call: Call, replies: nat -> Reply<T>) returns (reply: Reply<T>)
      requires maxAttempts >= 1
      modifies `calls
      ensures var n := LastAttempt(replies, 1, maxAttempts);
        reply == replies(n) && calls == old(calls) + RetryCalls(call, n, maxBackoff)
    {
      var attempt: nat := 1;
      calls := calls + [call];
      reply := replies(attempt);
      while reply.Fail? && reply.fault.ApiFault? && reply.fault.retryable && attempt < maxAttempts
        invariant 1 <= attempt <= maxAttempts
        invariant reply == replies(attempt)
        invariant LastAttempt(replies, 1, maxAttempts) == LastAttempt(replies, attempt, maxAttempts)
        invariant calls == old(calls) + RetryCalls(call, attempt, maxBackoff)
        decreases maxAttempts - attempt
      {
        var before := calls;
        calls := calls + [Sleep(Delay(attempt, maxBackoff))] + [call];
        assert calls == before + [Sleep(Delay(attempt, maxBackoff)), call];
        attempt := attempt + 1;
        reply := replies(attempt);
      }
    }

    /** Reports a failure under the claim, if its lease is still current. */
    method ReportFailure(w: World, claim: Claim, fault: Fault) returns (verdict: Verdict)
      modifies `calls
      ensures var report := FailureReport(w, claim, fault);
        calls == old(calls) + report.calls && verdict == report.verdict
    {
      var (retryable, code) := Classified(fault);
      calls := calls + [EnsureCurrent(claim, w.leaseAtFailure == None)];
      if w.leaseAtFailure.Some? {
        return GiveBack;
      }
      var outcome := if retryable then "RETRYABLE_FAILURE" else "PERMANENT_FAILURE";
      calls := calls + [PostOutcome(claim, outcome, Some(code), Absent, w.failure == None)];
      if w.failure == None {
        return Acknowledge;
      }
      return if w.failure.value.ApiFault? then GiveBack else Propagate;
    }

    /** Reports the graph's result under the claim; raises a fault for one that cannot be reported. */
    method ReportSuccess(w: World, claim: Claim, result: GraphResult) returns (reported: Reply<bool>)
      modifies `calls
      ensures !IsReportable(result) ==> reported == Fail(CONTRACT_FAULT) && calls == old(calls)
      ensures IsReportable(result) && w.leaseAtSuccess.Some? ==>
        reported == Answer(false) && calls == old(calls) + [EnsureCurrent(claim, false)]
      ensures IsReportable(result) && w.leaseAtSuccess == None ==>
        && calls == old(calls) +
             [EnsureCurrent(claim, true),
              PostOutcome(claim, result.status.value, None, result.pendingApproval, w.success == None)]
        && reported == (if w.success == None then Answer(true)
                        else if w.success.value.ApiFault? then Answer(false)
                        else Fail(w.success.value))
    {
      if result.status !in {Some("WAITING_APPROVAL"), Some("COMPLETED")} {
        return Fail(CONTRACT_FAULT);
      }
      if result.status == Some("WAITING_APPROVAL") {
        if !result.pendingApproval.Given? {
          return Fail(CONTRACT_FAULT);
        }
      } else if result.pendingApproval != Absent {
        return Fail(CONTRACT_FAULT);
      }
      calls := calls + [EnsureCurrent(claim, w.leaseAtSuccess == None)];
      if w.leaseAtSuccess.Some? {
        return Answer(false);
      }
      calls := calls + [PostOutcome(claim, result.status.value, None, result.pendingApproval, w.success == None)];
      if w.success == None {
        return Answer(true);
      }
      return if w.success.value.ApiFault? then Answer(false) else Fail(w.success.value);
    }

    /** Runs the graph once its heartbeat started, and reports the outcome or what was raised. */
    method RunAndReport(w: World, event: Event, claim: Claim) returns (verdict: Verdict)
      modifies `calls
      ensures var report := Reported(w, event, claim);
        calls == old(calls) + report.calls && verdict == report.verdict
    {
      var raised := w.heartbeat;
      verdict := Acknowledge;
      if raised == None {
        calls := calls + [RunGraph(claim)];
        if w.graph.Fail? {
          raised := Some(w.graph.fault);
        } else if IsProfileBound(event) {
          var reported := ReportSuccess(w, claim, w.graph.value);
          if reported.Fail? {
            raised := Some(reported.fault);
          } else if !reported.value {
            verdict := GiveBack;
          }
        }
      }
      if raised.Some? {
        verdict := ReportFailure(w, claim, raised.value);
      }
    }

    /** Processes a claimed job under its heartbeat, which is stopped whatever happens. */
    method ProcessClaimed(w: World, event: Event, claim: Claim) returns (verdict: Verdict)
      modifies `calls
      ensures var claimed := Claimed(w, event, claim);
        calls == old(calls) + claimed.calls && verdict == claimed.verdict
    {
      calls := calls + [StartHeartbeat(claim)];
      verdict := RunAndReport(w, event, claim);
      calls := calls + [StopHeartbeat(claim.jobId)];
    }

    /** Claims a job and processes it, or gives it back. */
    method ClaimAndProcess(w: World, event: Event) returns (verdict: Verdict)
      requires maxAttempts >= 1
      modifies `calls
      ensures var processed := ClaimedIfPossible(w, event, maxAttempts, maxBackoff);
        calls == old(calls) + processed.calls && verdict == processed.verdict
    {
      var claimed := WithBackoff(ClaimJob, w.claim);
      if claimed.Fail? {
        return GiveBack;
      }
      verdict := ProcessClaimed(w, event, claimed.value);
      ThreeParts(old(calls), RetryCalls(ClaimJob, LastAttempt(w.claim, 1, maxAttempts), maxBackoff),
                 Claimed(w, event, claimed.value).calls);
    }

    /** Processes a resolved job, unless it is a duplicate of the unbound kind. */
    method ProcessResolved(w: World, event: Event) returns (verdict: Verdict)
      requires maxAttempts >= 1
      modifies `calls
      ensures var resolved := Resolved(w, event, maxAttempts, maxBackoff);
        calls == old(calls) + resolved.calls && verdict == resolved.verdict
    {
      calls := calls + [CheckDuplicate];
      if w.duplicate.Fail? {
        return GiveBack;
      }
      if w.duplicate.value && !IsProfileBound(event) {
        return Acknowledge;
      }
      verdict := ClaimAndProcess(w, event);
    }

    /** Processes one queued job; the verdict says what becomes of its delivery. */
    method Process(w: World) returns (verdict: Verdict)
      requires maxAttempts >= 1
      modifies `calls
      ensures var processed := Processed(w, maxAttempts, maxBackoff);
        calls == old(calls) + processed.calls && verdict == processed.verdict
    {
      var resolved := WithBackoff(Resolve, w.resolve);
      if resolved.Fail? {
        return if IsTerminalRejection(resolved.fault) then Acknowledge else GiveBack;
      }
      verdict := ProcessResolved(w, resolved.value);
    }
  }

  // --- what justifies an acknowledgement ---

  predicate IsAccepted(call: Call) {
    call.PostOutcome? && call.accepted
  }

  predicate IsClaimCall(call: Call) {
    call.StartHeartbeat? || call.RunGraph? || call.EnsureCurrent? || call.PostOutcome? || call.StopHeartbeat?
  }

  function AcceptedOutcomes(calls: seq<Call>): nat {
    if calls == [] then 0 else (if IsAccepted(calls[0]) then 1 else 0) + AcceptedOutcomes(calls[1..])
  }

  lemma {:induction false} AcceptedAppends(a: seq<Call>, b: seq<Call>)
    ensures AcceptedOutcomes(a + b) == AcceptedOutcomes(a) + AcceptedOutcomes(b)
    decreases |a|
  {
    if a == [] {
      assert a + b == b;
    } else {
      assert (a + b)[1..] == a[1..] + b;
      AcceptedAppends(a[1..], b);
    }
  }

  /** Every outcome is posted right after a successful check of the lease, for the same claim. */
  ghost predicate OutcomesAreChecked(calls: seq<Call>) {
    forall i | 0 <= i < |calls| && calls[i].PostOutcome? :: i > 0 && calls[i - 1] == EnsureCurrent(calls[i].claim, true)
  }

  lemma CheckedAppends(a: seq<Call>, b: seq<Call>)
    requires OutcomesAreChecked(a) && OutcomesAreChecked(b)
    ensures OutcomesAreChecked(a + b)
  {
  }

  /** Calls that neither concern a claim nor report anything. */
  ghost predicate IsQuiet(calls: seq<Call>) {
    forall call | call in calls :: !IsClaimCall(call)
  }

  lemma {:induction false} QuietReportsNothing(calls: seq<Call>)
    requires IsQuiet(calls)
    ensures AcceptedOutcomes(calls) == 0 && OutcomesAreChecked(calls)
    decreases |calls|
  {
    if calls != [] {
      assert calls[0] in calls;
      QuietReportsNothing(calls[1..]);
    }
    forall i | 0 <= i < |calls| ensures !calls[i].PostOutcome? {
      assert calls[i] in calls;
    }
  }

  lemma {:induction false} RetriesAreQuiet(call: Call, attempts: nat, maxBackoff: nat)
    requires attempts >= 1 && !IsClaimCall(call)
    ensures IsQuiet(RetryCalls(call, attempts, maxBackoff))
    decreases attempts
  {
    if attempts > 1 {
      RetriesAreQuiet(call, attempts - 1, maxBackoff);
    }
  }

  /** What a report owes its caller: one accepted outcome exactly when the delivery is acknowledged. */
  ghost predicate IsJustified(p: Processing) {
    && OutcomesAreChecked(p.calls)
    && AcceptedOutcomes(p.calls) == (if p.verdict == Acknowledge then 1 else 0)
  }

  lemma FailureReportIsJustified(w: World, claim: Claim, fault: Fault)
    ensures IsJustified(FailureReport(w, claim, fault))
  {
    var calls := FailureReport(w, claim, fault).calls;
    if |calls| == 2 {
      assert calls == [calls[0]] + [calls[1]];
      AcceptedAppends([calls[0]], [calls[1]]);
    }
  }

  lemma SuccessReportIsJustified(w: World, claim: Claim, result: GraphResult)
    ensures IsJustified(SuccessReport(w, claim, result))
  {
    if !IsReportable(result) {
      FailureReportIsJustified(w, claim, CONTRACT_FAULT);
    } else if w.leaseAtSuccess == None {
      var check := EnsureCurrent(claim, true);
      var post := PostOutcome(claim, result.status.value, None, result.pendingApproval, w.success == None);
      assert [check, post] == [check] + [post];
      AcceptedAppends([check], [post]);
      if w.success.Some? && !w.success.value.ApiFault? {
        FailureReportIsJustified(w, claim, w.success.value);
        AcceptedAppends([check, post], FailureReport(w, claim, w.success.value).calls);
        CheckedAppends([check, post], FailureReport(w, claim, w.success.value).calls);
      }
    }
  }

  lemma AddingCalls(before: seq<Call>, report: Processing, after: seq<Call>)
    requires IsJustified(report)
    requires AcceptedOutcomes(before) == AcceptedOutcomes(after) == 0
    requires OutcomesAreChecked(before) && OutcomesAreChecked(after)
    ensures IsJustified(Processing(before + report.calls + after, report.verdict))
  {
    AcceptedAppends(before, report.calls);
    AcceptedAppends(before + report.calls, after);
    CheckedAppends(before, report.calls);
    CheckedAppends(before + report.calls, after);
  }

  lemma ReportedIsJustified(w: World, event: Event, claim: Claim)
    requires IsProfileBound(event)
    ensures IsJustified(Reported(w, event, claim))
  {
    if w.heartbeat.Some? {
      FailureReportIsJustified(w, claim, w.heartbeat.value);
    } else if w.graph.Fail? {
      FailureReportIsJustified(w, claim, w.graph.fault);
      RunningIsJustified(claim, FailureReport(w, claim, w.graph.fault));
    } else {
      SuccessReportIsJustified(w, claim, w.graph.value);
      RunningIsJustified(claim, SuccessReport(w, claim, w.graph.value));
    }
  }

  lemma RunningIsJustified(claim: Claim, report: Processing)
    requires IsJustified(report)
    ensures IsJustified(AfterRunning(claim, report))
  {
  }

  lemma ClaimedIsJustified(w: World, event: Event, claim: Claim)
    requires IsProfileBound(event)
    ensures IsJustified(Claimed(w, event, claim))
  {
    ReportedIsJustified(w, event, claim);
    AddingCalls([StartHeartbeat(claim)], Reported(w, event, claim), [StopHeartbeat(claim.jobId)]);
  }

  /** The claim that processing obtains, if it gets that far. */
  function ClaimObtained(w: World, maxAttempts: nat): Option<Claim>
    requires maxAttempts >= 1
  {
    match w.resolve(LastAttempt(w.resolve, 1, maxAttempts))
    case Fail(_) => None
    case Answer(event) =>
      if w.duplicate.Fail? || (w.duplicate.value && !IsProfileBound(event)) then None
      else
        match w.claim(LastAttempt(w.claim, 1, maxAttempts))
        case Fail(_) => None
        case Answer(claim) => Some(claim)
  }

  /** The event is known to be profile-bound, unless it could not be resolved. */
  predicate ResolvesProfileBound(w: World, maxAttempts: nat)
    requires maxAttempts >= 1
  {
    var resolved := w.resolve(LastAttempt(w.resolve, 1, maxAttempts));
    resolved.Answer? ==> IsProfileBound(resolved.value)
  }

  /**
   Why a profile-bound job is acknowledged: either its resolution was finally rejected as unknown or
   out of date, and nothing was claimed or reported, or exactly one outcome was accepted for its
   claim; and no outcome was ever posted without the lease being current right before.
   */
  lemma AcknowledgementIsJustified(w: World, maxAttempts: nat, maxBackoff: nat)
    requires maxAttempts >= 1 && ResolvesProfileBound(w, maxAttempts)
    ensures var processed := Processed(w, maxAttempts, maxBackoff);
      var resolved := w.resolve(LastAttempt(w.resolve, 1, maxAttempts));
      && OutcomesAreChecked(processed.calls)
      && AcceptedOutcomes(processed.calls) <= 1
      && (processed.verdict == Acknowledge <==>
            || (resolved.Fail? && IsTerminalRejection(resolved.fault))
            || AcceptedOutcomes(processed.calls) == 1)
      && (resolved.Fail? ==> AcceptedOutcomes(processed.calls) == 0)
  {
    var n := LastAttempt(w.resolve, 1, maxAttempts);
    var resolving := RetryCalls(Resolve, n, maxBackoff);
    RetriesAreQuiet(Resolve, n, maxBackoff);
    QuietReportsNothing(resolving);
    if w.resolve(n).Answer? {
      var event := w.resolve(n).value;
      var rest := Resolved(w, event, maxAttempts, maxBackoff);
      ResolvedIsJustified(w, event, maxAttempts, maxBackoff);
      AddingCalls(resolving, rest, []);
      assert resolving + rest.calls + [] == resolving + rest.calls;
    }
  }

  lemma ClaimedIfPossibleIsJustified(w: World, event: Event, maxAttempts: nat, maxBackoff: nat)
    requires maxAttempts >= 1 && IsProfileBound(event)
    ensures IsJustified(ClaimedIfPossible(w, event, maxAttempts, maxBackoff))
  {
    var n := LastAttempt(w.claim, 1, maxAttempts);
    var calls := RetryCalls(ClaimJob, n, maxBackoff);
    RetriesAreQuiet(ClaimJob, n, maxBackoff);
    QuietReportsNothing(calls);
    if w.claim(n).Answer? {
      var rest := Claimed(w, event, w.claim(n).value);
      ClaimedIsJustified(w, event, w.claim(n).value);
      AddingCalls(calls, rest, []);
      assert calls + rest.calls + [] == calls + rest.calls;
    }
  }

  lemma ResolvedIsJustified(w: World, event: Event, maxAttempts: nat, maxBackoff: nat)
    requires maxAttempts >= 1 && IsProfileBound(event)
    ensures IsJustified(Resolved(w, event, maxAttempts, maxBackoff))
  {
    var rest := ClaimedIfPossible(w, event, maxAttempts, maxBackoff);
    ClaimedIfPossibleIsJustified(w, event, maxAttempts, maxBackoff);
    QuietReportsNothing([CheckDuplicate]);
    AddingCalls([CheckDuplicate], rest, []);
    assert [CheckDuplicate] + rest.calls + [] == [CheckDuplicate] + rest.calls;
  }

  /**
   The heartbeat is started exactly when a claim was obtained, and then stopping it for that claim's
   job is the last call; without a claim nothing is started, run, checked or posted.
   */
  lemma HeartbeatIsStopped(w: World, maxAttempts: nat, maxBackoff: nat)
    requires maxAttempts >= 1
    ensures var calls, claim := Processed(w, maxAttempts, maxBackoff).calls, ClaimObtained(w, maxAttempts);
      && (claim == None ==> IsQuiet(calls))
      && (claim.Some? ==> StartHeartbeat(claim.value) in calls
                          && calls[|calls| - 1] == StopHeartbeat(claim.value.jobId))
  {
    var n, m := LastAttempt(w.resolve, 1, maxAttempts), LastAttempt(w.claim, 1, maxAttempts);
    RetriesAreQuiet(Resolve, n, maxBackoff);
    RetriesAreQuiet(ClaimJob, m, maxBackoff);
    if ClaimObtained(w, maxAttempts).Some? {
      var claim := w.claim(m).value;
      var before := RetryCalls(Resolve, n, maxBackoff);
      var waited := [CheckDuplicate] + RetryCalls(ClaimJob, m, maxBackoff);
      var rest := Claimed(w, w.resolve(n).value, claim).calls;
      assert [CheckDuplicate] + (RetryCalls(ClaimJob, m, maxBackoff) + rest) == waited + rest;
      assert Processed(w, maxAttempts, maxBackoff).calls == before + (waited + rest);
      assert rest[0] == StartHeartbeat(claim);
      assert (before + (waited + rest))[|before| + |waited|] == rest[0];
    }
  }

  // --- what outcomes say ---

  /** A fault that processing a claimed job may report. */
  predicate IsReportedFault(w: World, fault: Fault) {
    || w.heartbeat == Some(fault)
    || w.graph == Fail(fault)
    || (w.graph.Answer? && !IsReportable(w.graph.value) && fault == CONTRACT_FAULT)
    || w.success == Some(fault)
  }

  /** The outcome says what happened: the graph's own status, or the class and code of a fault. */
  ghost predicate IsTruthful(w: World, claim: Claim, call: Call) {
    call.PostOutcome? ==>
      && call.claim == claim
      && match call.code
         case None =>
           && w.heartbeat == None && w.graph.Answer? && IsReportable(w.graph.value)
           && w.graph.value.status == Some(call.outcome) && w.graph.value.pendingApproval == call.approval
         case Some(code) =>
           exists fault :: IsReportedFault(w, fault) && Classified(fault).1 == code
             && call.outcome == if Classified(fault).0 then "RETRYABLE_FAILURE" else "PERMANENT_FAILURE"
  }

  ghost predicate AreTruthful(w: World, claim: Claim, calls: seq<Call>) {
    forall call | call in calls :: IsTruthful(w, claim, call)
  }

  lemma FailureReportIsTruthful(w: World, claim: Claim, fault: Fault)
    requires IsReportedFault(w, fault)
    ensures AreTruthful(w, claim, FailureReport(w, claim, fault).calls)
  {
  }

  lemma SuccessReportIsTruthful(w: World, claim: Claim)
    requires w.heartbeat == None && w.graph.Answer?
    ensures AreTruthful(w, claim, SuccessReport(w, claim, w.graph.value).calls)
  {
    if !IsReportable(w.graph.value) {
      FailureReportIsTruthful(w, claim, CONTRACT_FAULT);
    } else if w.success.Some? {
      FailureReportIsTruthful(w, claim, w.success.value);
    }
  }

  lemma ClaimedIsTruthful(w: World, event: Event, claim: Claim)
    ensures AreTruthful(w, claim, Claimed(w, event, claim).calls)
  {
    if w.heartbeat.Some? {
      FailureReportIsTruthful(w, claim, w.heartbeat.value);
    } else if w.graph.Fail? {
      FailureReportIsTruthful(w, claim, w.graph.fault);
    } else if IsProfileBound(event) {
      SuccessReportIsTruthful(w, claim);
    }
  }

  /**
   Every outcome is posted for the claim that was obtained, and says what happened: the graph's own
   status, or the class and code of a fault that occurred.
   */
  lemma OutcomesAreTruthful(w: World, maxAttempts: nat, maxBackoff: nat)
    requires maxAttempts >= 1 && ClaimObtained(w, maxAttempts).Some?
    ensures AreTruthful(w, ClaimObtained(w, maxAttempts).value, Processed(w, maxAttempts, maxBackoff).calls)
  {
    var n, m := LastAttempt(w.resolve, 1, maxAttempts), LastAttempt(w.claim, 1, maxAttempts);
    var event, claim := w.resolve(n).value, w.claim(m).value;
    RetriesAreQuiet(Resolve, n, maxBackoff);
    RetriesAreQuiet(ClaimJob, m, maxBackoff);
    ClaimedIsTruthful(w, event, claim);
    var waited := [CheckDuplicate] + RetryCalls(ClaimJob, m, maxBackoff);
    var rest := Claimed(w, event, claim).calls;
    assert [CheckDuplicate] + (RetryCalls(ClaimJob, m, maxBackoff) + rest) == waited + rest;
    assert Processed(w, maxAttempts, maxBackoff).calls == RetryCalls(Resolve, n, maxBackoff) + (waited + rest);
    forall call | call in Processed(w, maxAttempts, maxBackoff).calls ensures IsTruthful(w, claim, call) {
      if call !in rest {
        assert call in RetryCalls(Resolve, n, maxBackoff) || call in waited;
      }
    }
  }

  // --- a second outcome ---

  ghost predicate PostsNothing(calls: seq<Call>) {
    forall i | 0 <= i < |calls| :: !calls[i].PostOutcome?
  }

  /** An outcome that is followed by another was refused by a crash, not by an answer that may be lost. */
  ghost predicate RepostsAfterCrash(w: World, calls: seq<Call>) {
    forall i, j | 0 <= i < j < |calls| && calls[i].PostOutcome? && calls[j].PostOutcome? ::
      && calls[i].code == None && !calls[i].accepted && calls[j].code.Some?
      && w.success.Some? && !w.success.value.ApiFault?
  }

  lemma FramingKeepsPosts(w: World, before: seq<Call>, calls: seq<Call>, after: seq<Call>)
    requires PostsNothing(before) && PostsNothing(after) && RepostsAfterCrash(w, calls)
    ensures RepostsAfterCrash(w, before + calls + after)
  {
    var all, n := before + calls + after, |before|;
    forall i | 0 <= i < n ensures !all[i].PostOutcome? {
      assert all[i] == before[i];
    }
    forall i | n + |calls| <= i < |all| ensures !all[i].PostOutcome? {
      assert all[i] == after[i - n - |calls|];
    }
    assert forall i | n <= i < n + |calls| :: all[i] == calls[i - n];
  }

  lemma QuietPostsNothing(calls: seq<Call>)
    requires IsQuiet(calls)
    ensures PostsNothing(calls)
  {
    forall i | 0 <= i < |calls| ensures !calls[i].PostOutcome? {
      assert calls[i] in calls;
    }
  }

  lemma SuccessRepostsAfterCrash(w: World, claim: Claim, result: GraphResult)
    ensures RepostsAfterCrash(w, SuccessReport(w, claim, result).calls)
  {
  }

  lemma ReportedRepostsAfterCrash(w: World, event: Event, claim: Claim)
    ensures RepostsAfterCrash(w, Reported(w, event, claim).calls)
  {
    if w.heartbeat == None && w.graph.Answer? && IsProfileBound(event) {
      SuccessRepostsAfterCrash(w, claim, w.graph.value);
      FramingKeepsPosts(w, [RunGraph(claim)], SuccessReport(w, claim, w.graph.value).calls, []);
      assert Reported(w, event, claim).calls == [RunGraph(claim)] + SuccessReport(w, claim, w.graph.value).calls + [];
    }
  }

  /**
   At most one outcome is posted for a claim, unless the graph's outcome was answered by a fault that
   is no API failure: a lost reply, which is one, never leads to a second outcome.
   */
  lemma SecondOutcomeNeedsCrash(w: World, maxAttempts: nat, maxBackoff: nat)
    requires maxAttempts >= 1
    ensures RepostsAfterCrash(w, Processed(w, maxAttempts, maxBackoff).calls)
  {
    var n, m := LastAttempt(w.resolve, 1, maxAttempts), LastAttempt(w.claim, 1, maxAttempts);
    var resolving, claiming := RetryCalls(Resolve, n, maxBackoff), RetryCalls(ClaimJob, m, maxBackoff);
    RetriesAreQuiet(Resolve, n, maxBackoff);
    RetriesAreQuiet(ClaimJob, m, maxBackoff);
    var waited := resolving + ([CheckDuplicate] + claiming);
    QuietPostsNothing(waited);
    var calls := Processed(w, maxAttempts, maxBackoff).calls;
    if ClaimObtained(w, maxAttempts).Some? {
      var event, claim := w.resolve(n).value, w.claim(m).value;
      var report := Reported(w, event, claim).calls;
      ReportedRepostsAfterCrash(w, event, claim);
      FramingKeepsPosts(w, waited + [StartHeartbeat(claim)], report, [StopHeartbeat(claim.jobId)]);
      assert calls == waited + [StartHeartbeat(claim)] + report + [StopHeartbeat(claim.jobId)];
    } else {
      HeartbeatIsStopped(w, maxAttempts, maxBackoff);
      QuietPostsNothing(calls);
    }
  }
}
