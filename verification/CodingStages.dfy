/**
 The coding stage handlers: what each stage demands of the results and decisions recorded so
 far, and what it records itself.
 */
module CodingStages {
  import opened Wrappers

  datatype StageKey =
    Analyze | Code | Review | Preview | PrRequest | PrComplete | DevMergeCheck | DeployRequest | Deploy

  datatype ResultType =
    Analysis | Candidate | Reviewed | Diff | PullRequest | DevMerge | DeploymentRequest | Deployment

  datatype ApprovalStage = SCOPE | CANDIDATE | GITHUB | CMS | DEPLOY

  /** One payload value, as far as the handlers distinguish them. */
  datatype Field = Nil | Text(text: string) | Number(number: int) | Flag(flag: bool) | Other

  type Payload = map<string, Field>

  /** The candidate commit and the hash of its validation. */
  type Subject = (string, string)

  datatype StageResult = StageResult(
    id: string, key: StageKey, kind: ResultType, port: string, payload: Payload, workspace: Option<string>,
    candidate: Option<string>, diffDigest: Option<string>, validation: Option<string>)

  datatype Decision = Decision(
    stage: ApprovalStage, approved: bool, candidate: Option<string>, validation: Option<string>)

  /** What the stage's executor reports. */
  datatype Outcome = Outcome(
    port: string, payload: Payload, workspace: Option<string>,
    candidate: Option<string>, diffDigest: Option<string>, validation: Option<string>)

  /** The attempt as one read of the domain shows it. */
  datatype Attempt = Attempt(
    jobId: string, pipelineAttempt: int, workspace: Option<string>, results: seq<StageResult>, decisions: seq<Decision>)

  datatype Refusal =
    | NoCandidate | NoReview | ReviewChangedCandidate | NoPreview | NoPrerequisite | NoSubject | NotApproved
    | PullRequestMismatch | MergeChangedCandidate | UndeclaredPort | SubjectChanged | CandidateChanged
    | InvalidReceipt | NoDeploymentCapability | WorkspaceChanged | RecordConflict

  function KindOf(key: StageKey): ResultType {
    match key
    case Analyze => Analysis
    case Code => Candidate
    case Review => Reviewed
    case Preview => Diff
    case PrRequest => PullRequest
    case PrComplete => PullRequest
    case DevMergeCheck => DevMerge
    case DeployRequest => DeploymentRequest
    case Deploy => Deployment
  }

  /** The registered name of a stage's handler. */
  function HandlerKey(key: StageKey): string {
    match key
    case Analyze => "coding.analyze"
    case Code => "coding.code"
    case Review => "coding.review"
    case Preview => "coding.preview"
    case PrRequest => "coding.pr_request"
    case PrComplete => "coding.pr_complete"
    case DevMergeCheck => "coding.dev_merge_check"
    case DeployRequest => "coding.deploy_request"
    case Deploy => "coding.deploy"
  }

  function PortsOf(key: StageKey): set<string> {
    match key
    case Analyze => {"feasible", "infeasible"}
    case Code => {"completed"}
    case Review => {"passed", "changes_requested"}
    case Preview => {"ready"}
    case PrRequest => {"requested"}
    case PrComplete => {"completed", "closed"}
    case DevMergeCheck => {"merged", "not_merged", "blocked"}
    case DeployRequest => {"recorded"}
    case Deploy => {"completed", "blocked"}
  }

  // --- reading the log ---

  /** The last item that satisfies a condition. */
  function Latest<T>(items: seq<T>, wanted: T -> bool): (found: Option<T>)
    ensures found.Some? ==> found.value in items && wanted(found.value)
    ensures found == None ==> forall item | item in items :: !wanted(item)
  {
    if items == [] then None
    else
      var front, last := items[..|items| - 1], items[|items| - 1];
      assert items == front + [last];
      if wanted(last) then Some(last) else Latest(front, wanted)
  }

  function Get(payload: Payload, key: string): Field {
    if key in payload then payload[key] else Nil
  }

  function AsField(text: Option<string>): Field {
    match text
    case None => Nil
    case Some(t) => Text(t)
  }

  predicate Is(r: StageResult, key: StageKey, kind: ResultType, port: string) {
    r.key == key && r.kind == kind && r.port == port
  }

  /** The results of a stage that left by a port. */
  function Leaving(key: StageKey, port: string): StageResult -> bool {
    r => Is(r, key, KindOf(key), port)
  }

  function LatestResult(a: Attempt, key: StageKey, port: string): Result<StageResult, Refusal> {
    match Latest(a.results, Leaving(key, port))
    case None => Err(NoPrerequisite)
    case Some(r) => Ok(r)
  }

  function SubjectOf(candidate: Option<string>, validation: Option<string>): Result<Subject, Refusal> {
    if candidate == None || validation == None then Err(NoSubject) else Ok((candidate.value, validation.value))
  }

  function LatestSubject(a: Attempt, key: StageKey, port: string): Result<Subject, Refusal> {
    match LatestResult(a, key, port)
    case Err(refusal) => Err(refusal)
    case Ok(r) => SubjectOf(r.candidate, r.validation)
  }

  function LatestCodeCandidate(a: Attempt): Result<string, Refusal> {
    match Latest(a.results, (r: StageResult) => r.key == Code)
    case None => Err(NoCandidate)
    case Some(r) =>
      if r.kind != Candidate || r.port != "completed" || r.candidate == None then Err(NoCandidate)
      else Ok(r.candidate.value)
  }

  function LatestPreviewSubject(a: Attempt): Result<Subject, Refusal> {
    LatestSubject(a, Preview, "ready")
  }

  predicate IsText(field: Field) {
    field.Text?
  }

  /** A deploy request that carries its own request id. */
  predicate IsIdentifiedDeployRequest(r: StageResult) {
    Is(r, DeployRequest, DeploymentRequest, "recorded") && IsText(Get(r.payload, "deploymentRequestId"))
  }

  function LatestDeployRequest(a: Attempt): Result<StageResult, Refusal> {
    match Latest(a.results, IsIdentifiedDeployRequest)
    case None => Err(NoPrerequisite)
    case Some(r) => Ok(r)
  }

  predicate HasCompletedPullRequest(a: Attempt) {
    exists r | r in a.results :: Is(r, PrComplete, PullRequest, "completed")
  }

  predicate HasIdentifiedDeployRequest(a: Attempt) {
    exists r | r in a.results :: IsIdentifiedDeployRequest(r)
  }

  predicate NamesRepository(payload: Payload) {
    Get(payload, "repository") in {Text("backend"), Text("frontend")}
  }

  predicate SamePullRequest(pullRequest: StageResult, deployRequest: StageResult) {
    && NamesRepository(pullRequest.payload)
    && NamesRepository(deployRequest.payload)
    && pullRequest.candidate == deployRequest.candidate
    && Get(pullRequest.payload, "repository") == Get(deployRequest.payload, "repository")
    && Get(pullRequest.payload, "prNumber") == Get(deployRequest.payload, "prNumber")
  }

  /** The latest decision of a stage approves exactly this subject. */
  predicate IsApproved(a: Attempt, stage: ApprovalStage, subject: Subject) {
    var latest := Latest(a.decisions, (d: Decision) => d.stage == stage);
    latest.Some? && latest.value.approved
    && latest.value.candidate == Some(subject.0) && latest.value.validation == Some(subject.1)
  }

  function Approved(a: Attempt, stage: ApprovalStage, subject: Subject): Result<Subject, Refusal> {
    if IsApproved(a, stage, subject) then Ok(subject) else Err(NotApproved)
  }

  // --- what a stage demands before it runs ---

  /** The approved subject that the stage's result must repeat, if it is bound to one. */
  function RequiredSubject(key: StageKey, a: Attempt): Result<Option<Subject>, Refusal> {
    match key
    case PrRequest => PreviewSubjectApproved(a, CANDIDATE)
    case PrComplete =>
      (match LatestSubject(a, PrRequest, "requested")
       case Err(refusal) => Err(refusal)
       case Ok(subject) => Bound(Approved(a, GITHUB, subject)))
    case DevMergeCheck =>
      (match (LatestResult(a, PrComplete, "completed"), LatestDeployRequest(a))
       case (Err(refusal), _) => Err(refusal)
       case (_, Err(refusal)) => Err(refusal)
       case (Ok(pullRequest), Ok(request)) =>
         if !SamePullRequest(pullRequest, request) then Err(PullRequestMismatch)
         else
           match SubjectOf(request.candidate, request.validation)
           case Err(refusal) => Err(refusal)
           case Ok(subject) =>
             if !IsApproved(a, DEPLOY, subject) then Err(NotApproved)
             else Bound(SubjectOf(pullRequest.candidate, pullRequest.validation)))
    case DeployRequest =>
      if HasCompletedPullRequest(a) then
        (match LatestResult(a, PrComplete, "completed")
         case Err(refusal) => Err(refusal)
         case Ok(pullRequest) =>
           if !NamesRepository(pullRequest.payload) then Err(PullRequestMismatch)
           else
             match SubjectOf(pullRequest.candidate, pullRequest.validation)
             case Err(refusal) => Err(refusal)
             case Ok(subject) => if IsApproved(a, GITHUB, subject) then Ok(None) else Err(NotApproved))
      else
        (match PreviewSubjectApproved(a, DEPLOY)
         case Err(refusal) => Err(refusal)
         case Ok(subject) => if DeployDecisionStands(a, subject) then Ok(subject) else Err(SubjectChanged))
    case Deploy =>
      (match (LatestDeployRequest(a), LatestResult(a, PrComplete, "completed"))
       case (Err(refusal), _) => Err(refusal)
       case (_, Err(refusal)) => Err(refusal)
       case (Ok(request), Ok(pullRequest)) =>
         if !SamePullRequest(pullRequest, request) then Err(PullRequestMismatch)
         else
           match (SubjectOf(request.candidate, request.validation), LatestSubject(a, DevMergeCheck, "merged"))
           case (Err(refusal), _) => Err(refusal)
           case (Ok(subject), merged) =>
             if !IsApproved(a, DEPLOY, subject) then Err(NotApproved)
             else if merged.Err? then Err(merged.error)
             else if merged.value.0 != subject.0 then Err(MergeChangedCandidate)
             else Ok(Some(subject)))
    case _ => Ok(None)
  }

  function Bound(subject: Result<Subject, Refusal>): Result<Option<Subject>, Refusal> {
    match subject
    case Err(refusal) => Err(refusal)
    case Ok(s) => Ok(Some(s))
  }

  function PreviewSubjectApproved(a: Attempt, stage: ApprovalStage): Result<Option<Subject>, Refusal> {
    match LatestPreviewSubject(a)
    case Err(refusal) => Err(refusal)
    case Ok(subject) => Bound(Approved(a, stage, subject))
  }

  /** A deploy decision taken on the preview still names the subject that is to be deployed. */
  predicate DeployDecisionStands(a: Attempt, subject: Option<Subject>) {
    var current := if HasIdentifiedDeployRequest(a) then LatestDeploySubject(a) else LatestPreviewSubject(a);
    current.Ok? && subject == Some(current.value)
  }

  function LatestDeploySubject(a: Attempt): Result<Subject, Refusal> {
    match LatestDeployRequest(a)
    case Err(refusal) => Err(refusal)
    case Ok(r) => SubjectOf(r.candidate, r.validation)
  }

  /** The reviewed candidate that the stage's result must repeat, if it is bound to one. */
  function RequiredCandidate(key: StageKey, a: Attempt): Result<Option<string>, Refusal> {
    match key
    case Review => JustCandidate(LatestCodeCandidate(a))
    case Preview =>
      (match (LatestCodeCandidate(a), Latest(a.results, (r: StageResult) => r.key == Review))
       case (Err(refusal), _) => Err(refusal)
       case (Ok(_), None) => Err(NoReview)
       case (Ok(coded), Some(review)) =>
         if review.kind != Reviewed || review.port != "passed" then Err(NoReview)
         else if review.candidate != Some(coded) then Err(ReviewChangedCandidate)
         else Ok(Some(coded)))
    case DeployRequest =>
      if !HasCompletedPullRequest(a) then Ok(None)
      else
        (match LatestSubject(a, PrComplete, "completed")
         case Err(refusal) => Err(refusal)
         case Ok(subject) => Ok(Some(subject.0)))
    case _ => Ok(None)
  }

  function JustCandidate(candidate: Result<string, Refusal>): Result<Option<string>, Refusal> {
    match candidate
    case Err(refusal) => Err(refusal)
    case Ok(c) => Ok(Some(c))
  }

  // --- what a stage's outcome must look like ---

  predicate ReceiptIsValid(key: StageKey, a: Attempt, o: Outcome)
    requires o.port in PortsOf(key)
  {
    match key
    case PrComplete =>
      && NamesRepository(o.payload) && Get(o.payload, "base") == Text("dev")
      && Get(o.payload, "candidateSha") == AsField(o.candidate)
      && Get(o.payload, "validationHash") == AsField(o.validation)
      && o.diffDigest.Some? && IsText(Get(o.payload, "head")) && IsText(Get(o.payload, "headSha"))
      && Get(o.payload, "prNumber").Number? && Get(o.payload, "prNumber").number >= 1
      && IsText(Get(o.payload, "prUrl")) && Get(o.payload, "prUrl").text != ""
      && Get(o.payload, "state") in {Text("OPEN"), Text("MERGED")}
      && IsText(Get(o.payload, "authorLogin")) && Get(o.payload, "reused").Flag?
    case DevMergeCheck =>
      && Get(o.payload, "status") == Text(if o.port == "merged" then "MERGED"
                                         else if o.port == "not_merged" then "NOT_MERGED" else "BLOCKED")
      && Get(o.payload, "candidateSha") == AsField(o.candidate)
      && IsText(Get(o.payload, "head")) && IsText(Get(o.payload, "headSha"))
      && (o.port == "merged" ==> IsText(Get(o.payload, "mergeSha")))
    case DeployRequest =>
      if !HasCompletedPullRequest(a) then true
      else
        var pullRequest := LatestResult(a, PrComplete, "completed");
        && pullRequest.Ok?
        && {"deploymentRequestId", "jobId", "pipelineAttempt", "repository", "prNumber", "candidateSha",
            "sourceValidationHash", "adapterKey", "targetKey", "configDigest", "status"} <= o.payload.Keys
        && Get(o.payload, "jobId") == Text(a.jobId)
        && Get(o.payload, "pipelineAttempt") == Number(a.pipelineAttempt)
        && Get(o.payload, "candidateSha") == AsField(pullRequest.value.candidate)
        && Get(o.payload, "sourceValidationHash") == AsField(pullRequest.value.validation)
        && NamesRepository(o.payload)
        && IsText(Get(o.payload, "deploymentRequestId")) && o.validation.Some?
    case Deploy =>
      && IsText(Get(o.payload, "deploymentRequestId")) && IsText(Get(o.payload, "deploymentExecutionId"))
      && IsText(Get(o.payload, "mergeSha"))
      && "port" !in o.payload && "deployedPort" !in o.payload
    case _ => true
  }

  /** The first workspace that is known: the outcome's, the attempt's, the invocation's. */
  function ChosenWorkspace(o: Outcome, a: Attempt, invoked: Option<string>): Option<string> {
    if o.workspace.Some? then o.workspace else if a.workspace.Some? then a.workspace else invoked
  }

  /** The port the node leaves by, which for a completed PR depends on its deployment capability. */
  function NodePort(key: StageKey, configured: bool, o: Outcome): Result<string, Refusal> {
    if key != PrComplete then Ok(o.port)
    else if o.port != "completed" then Err(InvalidReceipt)
    else if !configured then Ok("completed")
    else if !Get(o.payload, "deploymentSupported").Flag? then Err(NoDeploymentCapability)
    else Ok(if Get(o.payload, "deploymentSupported").flag then "completed" else "closed")
  }

  /** A stage that has read an attempt and heard its executor: the result it records, and its port. */
  function JudgeStage(key: StageKey, configured: bool, resultId: string, invoked: Option<string>, a: Attempt, o: Outcome)
    : Result<(StageResult, string), Refusal>
  {
    var subject, candidate := RequiredSubject(key, a), RequiredCandidate(key, a);
    if subject.Err? then Err(subject.error)
    else if candidate.Err? then Err(candidate.error)
    else if o.port !in PortsOf(key) then Err(UndeclaredPort)
    else if subject.value.Some?
      && (o.candidate != Some(subject.value.value.0) || o.validation != Some(subject.value.value.1)) then
      Err(SubjectChanged)
    else if candidate.value.Some? && o.candidate != candidate.value then Err(CandidateChanged)
    else if !ReceiptIsValid(key, a, o) then Err(InvalidReceipt)
    else
      var port := NodePort(key, configured, o);
      var workspace := ChosenWorkspace(o, a, invoked);
      if port.Err? then Err(port.error)
      else if invoked.Some? && workspace != invoked then Err(WorkspaceChanged)
      else Ok((StageResult(resultId, key, KindOf(key), o.port, o.payload, workspace,
                           o.candidate, o.diffDigest, o.validation),
               port.value))
  }
}
