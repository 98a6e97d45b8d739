/**
 The whole answer of a coding stage: its demands, its executor's receipt, the workspace and the port,
 and what becomes of the log. A stage handler succeeds exactly when all of them are in order.
 */
module StageOutcomes {
  import opened Wrappers
  import opened CodingStages
  import opened CodingProvenance
  import opened StageAnswers

  // --- ports ---

  /** The ports that a stage's executor may report. */
  predicate MayReport(key: StageKey, port: string) {
    match key
    case Analyze => port == "feasible" || port == "infeasible"
    case Code => port == "completed"
    case Review => port == "passed" || port == "changes_requested"
    case Preview => port == "ready"
    case PrRequest => port == "requested"
    case PrComplete => port == "completed"
    case DevMergeCheck => port == "merged" || port == "not_merged" || port == "blocked"
    case DeployRequest => port == "recorded"
    case Deploy => port == "completed" || port == "blocked"
  }

  /** The node leaves by the executor's port; a configured completion leaves by what its receipt supports. */
  predicate LeavesBy(key: StageKey, configured: bool, o: Outcome, port: string) {
    if key == PrComplete && configured then
      && "deploymentSupported" in o.payload && o.payload["deploymentSupported"].Flag?
      && port == (if o.payload["deploymentSupported"].flag then "completed" else "closed")
    else port == o.port
  }

  function KindFor(key: StageKey): ResultType {
    match key
    case Analyze => Analysis
    case Code => Candidate
    case Review => Reviewed
    case Preview => Diff
    case PrRequest => PullRequest
    case PrComplete => PullRequest
    case DevMergeCheck => DevMerge
    case DeployRequest => DeploymentRequest
    case Deploy => Deployment
  }

  // --- receipts ---

  predicate Carries(p: Payload, name: string, value: Field) {
    name in p && p[name] == value
  }

  predicate CarriesText(p: Payload, name: string) {
    name in p && p[name].Text?
  }

  /** The field repeats an optional text; where there is none it is absent or null. */
  predicate CarriesOptional(p: Payload, name: string, text: Option<string>) {
    if text.Some? then Carries(p, name, Text(text.value)) else name !in p || p[name] == Nil
  }

  predicate PullRequestReceipt(o: Outcome) {
    var p := o.payload;
    && (Carries(p, "repository", Text("backend")) || Carries(p, "repository", Text("frontend")))
    && Carries(p, "base", Text("dev"))
    && CarriesOptional(p, "candidateSha", o.candidate) && CarriesOptional(p, "validationHash", o.validation)
    && o.diffDigest.Some?
    && CarriesText(p, "head") && CarriesText(p, "headSha") && CarriesText(p, "authorLogin")
    && "prNumber" in p && p["prNumber"].Number? && p["prNumber"].number >= 1
    && CarriesText(p, "prUrl") && p["prUrl"].text != ""
    && (Carries(p, "state", Text("OPEN")) || Carries(p, "state", Text("MERGED")))
    && "reused" in p && p["reused"].Flag?
  }

  predicate MergeReceipt(o: Outcome) {
    var p := o.payload;
    && (o.port == "merged" ==> Carries(p, "status", Text("MERGED")) && CarriesText(p, "mergeSha"))
    && (o.port == "not_merged" ==> Carries(p, "status", Text("NOT_MERGED")))
    && (o.port == "blocked" ==> Carries(p, "status", Text("BLOCKED")))
    && CarriesOptional(p, "candidateSha", o.candidate) && CarriesText(p, "head") && CarriesText(p, "headSha")
  }

  /** The receipt names the candidate and the validation of the pull request. */
  predicate NamesPullRequest(p: Payload, r: StageResult) {
    && "candidateSha" in p && CarriesOptional(p, "candidateSha", r.candidate)
    && "sourceValidationHash" in p && CarriesOptional(p, "sourceValidationHash", r.validation)
  }

  predicate NamesJob(a: Attempt, o: Outcome) {
    var p := o.payload;
    && Carries(p, "jobId", Text(a.jobId)) && Carries(p, "pipelineAttempt", Number(a.pipelineAttempt))
    && (Carries(p, "repository", Text("backend")) || Carries(p, "repository", Text("frontend")))
    && CarriesText(p, "deploymentRequestId") && o.validation.Some?
    && "prNumber" in p && "adapterKey" in p && "targetKey" in p && "configDigest" in p && "status" in p
  }

  /** A deploy request after a completed pull request names the job, the attempt and the validated candidate. */
  ghost predicate RequestReceipt(a: Attempt, o: Outcome) {
    NamesJob(a, o) && exists r :: IsLatest(a.results, IsCompleted, r) && NamesPullRequest(o.payload, r)
  }

  predicate DeployReceipt(o: Outcome) {
    var p := o.payload;
    && CarriesText(p, "deploymentRequestId") && CarriesText(p, "deploymentExecutionId") && CarriesText(p, "mergeSha")
    && "port" !in p && "deployedPort" !in p
  }

  ghost predicate HasReceipt(key: StageKey, a: Attempt, o: Outcome) {
    match key
    case PrComplete => PullRequestReceipt(o)
    case DevMergeCheck => MergeReceipt(o)
    case DeployRequest => IsAny(a.results, IsCompleted) ==> RequestReceipt(a, o)
    case Deploy => DeployReceipt(o)
    case _ => true
  }

  lemma PullRequestReceiptIsExact(a: Attempt, o: Outcome)
    requires o.port == "completed"
    ensures ReceiptIsValid(PrComplete, a, o) <==> PullRequestReceipt(o)
  {
  }

  lemma MergeReceiptIsExact(a: Attempt, o: Outcome)
    requires o.port in {"merged", "not_merged", "blocked"}
    ensures ReceiptIsValid(DevMergeCheck, a, o) <==> MergeReceipt(o)
  {
  }

  lemma RequestReceiptOf(a: Attempt, o: Outcome, r: StageResult)
    requires o.port == "recorded" && HasCompletedPullRequest(a)
    requires LatestResult(a, PrComplete, "completed") == Ok(r)
    ensures ReceiptIsValid(DeployRequest, a, o) <==> NamesJob(a, o) && NamesPullRequest(o.payload, r)
  {
  }

  lemma RequestReceiptIsExact(a: Attempt, o: Outcome)
    requires o.port == "recorded" && HasCompletedPullRequest(a)
    ensures ReceiptIsValid(DeployRequest, a, o) <==> RequestReceipt(a, o)
  {
    AnyCompleted(a);
    LatestAgrees(a.results, IsCompleted, Leaving(PrComplete, "completed"));
    LatestIsAny(a.results, IsCompleted);
    var r := Latest(a.results, IsCompleted).value;
    RequestReceiptOf(a, o, r);
    forall other ensures IsLatest(a.results, IsCompleted, other) <==> other == r {
      LatestIsLast(a.results, IsCompleted, other);
    }
  }

  lemma DeployReceiptIsExact(a: Attempt, o: Outcome)
    requires o.port in {"completed", "blocked"}
    ensures ReceiptIsValid(Deploy, a, o) <==> DeployReceipt(o)
  {
  }

  lemma ReportIsExact(key: StageKey, port: string)
    ensures MayReport(key, port) ==> port in PortsOf(key)
    ensures port in PortsOf(key) && key != PrComplete ==> MayReport(key, port)
    ensures key == PrComplete ==> (MayReport(key, port) <==> port == "completed")
  {
  }

  lemma ReceiptIsExact(key: StageKey, a: Attempt, o: Outcome)
    requires MayReport(key, o.port)
    ensures o.port in PortsOf(key) && (ReceiptIsValid(key, a, o) <==> HasReceipt(key, a, o))
  {
    ReportIsExact(key, o.port);
    match key
    case PrComplete => PullRequestReceiptIsExact(a, o);
    case DevMergeCheck => MergeReceiptIsExact(a, o);
    case DeployRequest =>
      AnyCompleted(a);
      if HasCompletedPullRequest(a) {
        RequestReceiptIsExact(a, o);
      }
    case Deploy => DeployReceiptIsExact(a, o);
    case _ =>
  }

  // --- the answer ---

  /** The workspace of the outcome, else of the attempt, else of the invocation, which it may not change. */
  predicate KeepsWorkspace(a: Attempt, o: Outcome, invoked: Option<string>, workspace: Option<string>) {
    && workspace == (if o.workspace.Some? then o.workspace else if a.workspace.Some? then a.workspace else invoked)
    && (invoked.Some? ==> workspace == invoked)
  }

  /** What the stage records: what its executor reported, under the id of this execution. */
  predicate IsRecordOf(key: StageKey, resultId: string, o: Outcome, workspace: Option<string>, r: StageResult) {
    && r.id == resultId && r.key == key && r.kind == KindFor(key) && r.port == o.port && r.payload == o.payload
    && r.workspace == workspace && r.candidate == o.candidate && r.diffDigest == o.diffDigest
    && r.validation == o.validation
  }

  ghost predicate Answers(key: StageKey, configured: bool, resultId: string, invoked: Option<string>,
                          a: Attempt, o: Outcome, r: StageResult, port: string) {
    && Demands(key, a, o) && MayReport(key, o.port) && HasReceipt(key, a, o) && LeavesBy(key, configured, o, port)
    && exists workspace :: KeepsWorkspace(a, o, invoked, workspace) && IsRecordOf(key, resultId, o, workspace, r)
  }

  lemma JudgedByParts(key: StageKey, configured: bool, resultId: string, invoked: Option<string>, a: Attempt, o: Outcome)
    ensures var judged := JudgeStage(key, configured, resultId, invoked, a, o);
      var workspace := ChosenWorkspace(o, a, invoked);
      && (judged.Ok? <==>
            && Required(key, a, o) && o.port in PortsOf(key) && ReceiptIsValid(key, a, o)
            && NodePort(key, configured, o).Ok? && (invoked.Some? ==> workspace == invoked))
      && (judged.Ok? ==>
            judged.value == (StageResult(resultId, key, KindOf(key), o.port, o.payload, workspace,
                                         o.candidate, o.diffDigest, o.validation),
                             NodePort(key, configured, o).value))
  {
  }

  lemma PortIsExact(key: StageKey, configured: bool, o: Outcome, port: string)
    requires o.port in PortsOf(key)
    ensures NodePort(key, configured, o) == Ok(port) <==> MayReport(key, o.port) && LeavesBy(key, configured, o, port)
  {
    ReportIsExact(key, o.port);
  }

  /** A stage succeeds exactly when its demands, receipt, workspace and port are in order. */
  lemma StageIsExact(key: StageKey, configured: bool, resultId: string, invoked: Option<string>,
                     a: Attempt, o: Outcome, r: StageResult, port: string)
    ensures JudgeStage(key, configured, resultId, invoked, a, o) == Ok((r, port))
      <==> Answers(key, configured, resultId, invoked, a, o, r, port)
  {
    JudgedByParts(key, configured, resultId, invoked, a, o);
    DemandsAreExact(key, a, o);
    ReportIsExact(key, o.port);
    if o.port in PortsOf(key) {
      PortIsExact(key, configured, o, port);
    }
    if MayReport(key, o.port) {
      ReceiptIsExact(key, a, o);
    }
    WorkspaceIsExact(key, resultId, invoked, a, o, r);
  }

  lemma WorkspaceIsExact(key: StageKey, resultId: string, invoked: Option<string>, a: Attempt, o: Outcome, r: StageResult)
    ensures (exists workspace :: KeepsWorkspace(a, o, invoked, workspace) && IsRecordOf(key, resultId, o, workspace, r))
      <==>
        && (invoked.Some? ==> ChosenWorkspace(o, a, invoked) == invoked)
        && r == StageResult(resultId, key, KindOf(key), o.port, o.payload, ChosenWorkspace(o, a, invoked),
                            o.candidate, o.diffDigest, o.validation)
  {
    var workspace := ChosenWorkspace(o, a, invoked);
    if invoked.Some? ==> workspace == invoked {
      assert KeepsWorkspace(a, o, invoked, workspace);
    }
  }

  // --- the log ---

  /** The result is stored once: appended under a new id, and left alone when the latest under its id equals it. */
  ghost predicate Stored(log: Log, r: StageResult, after: Log) {
    if IsAny(ResultsOf(log), (other: StageResult) => other.id == r.id) then
      after == log && IsLatest(ResultsOf(log), (other: StageResult) => other.id == r.id, r)
    else after == log + [Recorded(r)]
  }

  lemma PutIsExact(log: Log, r: StageResult, after: Log)
    ensures PutResult(log, r) == Ok(after) <==> Stored(log, r, after)
  {
    var wanted := (other: StageResult) => other.id == r.id;
    LatestIsAny(ResultsOf(log), wanted);
    LatestIsLast(ResultsOf(log), wanted, r);
  }

  /**
   A stage handler that reads an attempt, hears its executor and writes its result succeeds exactly
   when the stage answers and its result can be stored; it leaves by that port, and the log is as the
   result leaves it.
   */
  lemma RunIsExact(log: Log, e: Event, after: Log, port: string)
    requires e.RunStage?
    ensures RunOn(log, e) == Ok((after, port)) <==>
      exists r :: Answers(e.key, e.configured, e.resultId, e.invoked, AttemptSeen(log, e), e.outcome, r, port)
                  && Stored(log, r, after)
  {
    var judged := JudgeStage(e.key, e.configured, e.resultId, e.invoked, AttemptSeen(log, e), e.outcome);
    forall r ensures judged == Ok((r, port))
      <==> Answers(e.key, e.configured, e.resultId, e.invoked, AttemptSeen(log, e), e.outcome, r, port)
    {
      StageIsExact(e.key, e.configured, e.resultId, e.invoked, AttemptSeen(log, e), e.outcome, r, port);
    }
    if judged.Ok? {
      PutIsExact(log, judged.value.0, after);
    }
    forall r | Answers(e.key, e.configured, e.resultId, e.invoked, AttemptSeen(log, e), e.outcome, r, port)
      ensures PutResult(log, r) == Ok(after) <==> Stored(log, r, after)
    {
      PutIsExact(log, r, after);
    }
  }
}
