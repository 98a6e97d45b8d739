/**
 The append-only log of one pipeline attempt, and the provenance of what it deploys: every
 deployed candidate was coded, reviewed, previewed, approved, proposed, merged and approved again.
 */
module CodingProvenance {
  import opened Wrappers
  import opened CodingStages

  /** The attempt's history: results recorded by stage handlers, decisions recorded by people. */
  datatype Entry = Recorded(result: StageResult) | Decided(decision: Decision)

  type Log = seq<Entry>

  function ResultsOf(log: Log): seq<StageResult> {
    if log == [] then []
    else
      var last := log[|log| - 1];
      ResultsOf(log[..|log| - 1]) + (if last.Recorded? then [last.result] else [])
  }

  function DecisionsOf(log: Log): seq<Decision> {
    if log == [] then []
    else
      var last := log[|log| - 1];
      DecisionsOf(log[..|log| - 1]) + (if last.Decided? then [last.decision] else [])
  }

  /**
   One event of the attempt: a decision, or a stage handler that reads some prefix of the
   results and some prefix of the decisions, hears its executor and writes its result.
   */
  datatype Event =
    | Decide(decision: Decision)
    | RunStage(key: StageKey, configured: bool, resultId: string, invoked: Option<string>, jobId: string,
               pipelineAttempt: int, workspace: Option<string>, resultsSeen: nat, decisionsSeen: nat, outcome: Outcome)

  function Seen(log: Log, n: nat): Log {
    if n <= |log| then log[..n] else log
  }

  function AttemptSeen(log: Log, e: Event): Attempt
    requires e.RunStage?
  {
    Attempt(e.jobId, e.pipelineAttempt, e.workspace,
            ResultsOf(Seen(log, e.resultsSeen)), DecisionsOf(Seen(log, e.decisionsSeen)))
  }

  /** The write is idempotent by result id: the same result again is a no-op, another one is refused. */
  function PutResult(log: Log, r: StageResult): Result<Log, Refusal> {
    match Latest(ResultsOf(log), (other: StageResult) => other.id == r.id)
    case None => Ok(log + [Recorded(r)])
    case Some(other) => if other == r then Ok(log) else Err(RecordConflict)
  }

  function RunOn(log: Log, e: Event): Result<(Log, string), Refusal>
    requires e.RunStage?
  {
    match JudgeStage(e.key, e.configured, e.resultId, e.invoked, AttemptSeen(log, e), e.outcome)
    case Err(refusal) => Err(refusal)
    case Ok((result, port)) =>
      match PutResult(log, result)
      case Err(refusal) => Err(refusal)
      case Ok(after) => Ok((after, port))
  }

  function Apply(log: Log, e: Event): Log {
    match e
    case Decide(decision) => log + [Decided(decision)]
    case RunStage(_, _, _, _, _, _, _, _, _, _) =>
      match RunOn(log, e)
      case Err(_) => log
      case Ok((after, _)) => after
  }

  /** The log after any sequence of events. */
  function History(events: seq<Event>): Log {
    if events == [] then [] else Apply(History(events[..|events| - 1]), events[|events| - 1])
  }

  lemma ResultIsKept(log: Log, r: StageResult)
    ensures PutResult(log, r).Ok? ==> r in ResultsOf(PutResult(log, r).value)
  {
    if Latest(ResultsOf(log), (other: StageResult) => other.id == r.id) == None {
      assert (log + [Recorded(r)])[..|log|] == log;
    }
  }

  /** The domain's attempt as the handlers use it: a log that they append to. */
  class AttemptLog {
    var entries: Log

    constructor ()
      ensures entries == History([])
    {
      entries := [];
    }

    method RecordDecision(decision: Decision)
      modifies this
      ensures entries == Apply(old(entries), Decide(decision))
    {
      entries := entries + [Decided(decision)];
    }

    /** Runs one stage handler; a refusal leaves the log as it was. */
    method HandleStage(e: Event) returns (port: Result<string, Refusal>)
      requires e.RunStage?
      modifies this
      ensures entries == Apply(old(entries), e)
      ensures port.Err? ==> entries == old(entries)
      ensures port.Ok? <==> RunOn(old(entries), e).Ok?
      ensures port.Ok? ==> port.value == RunOn(old(entries), e).value.1
      ensures port.Ok? && e.key != PrComplete ==> port.value == e.outcome.port
      ensures port.Ok? && e.key == PrComplete ==>
        (port.value == "closed" <==> e.configured && Get(e.outcome.payload, "deploymentSupported") == Flag(false))
        && port.value in {"completed", "closed"}
      ensures port.Ok? ==> exists r :: r in ResultsOf(entries) && r.id == e.resultId && r.port == e.outcome.port
    {
      var attempt := AttemptSeen(entries, e);
      var judged := JudgeStage(e.key, e.configured, e.resultId, e.invoked, attempt, e.outcome);
      if judged.Err? {
        return Err(judged.error);
      }
      var earlier := Latest(ResultsOf(entries), (other: StageResult) => other.id == e.resultId);
      if earlier == None {
        entries := entries + [Recorded(judged.value.0)];
      } else if earlier.value != judged.value.0 {
        return Err(RecordConflict);
      }
      ResultIsKept(old(entries), judged.value.0);
      port := Ok(judged.value.1);
    }
  }

  // --- finding the entries behind a read ---

  ghost predicate RecordedAt(log: Log, n: nat, r: StageResult) {
    n < |log| && log[n] == Recorded(r)
  }

  ghost predicate ApprovedAt(log: Log, n: nat, stage: ApprovalStage, subject: Subject) {
    n < |log| && log[n].Decided? && log[n].decision.stage == stage && log[n].decision.approved
    && log[n].decision.candidate == Some(subject.0) && log[n].decision.validation == Some(subject.1)
  }

  ghost predicate ResultAt(log: Log, n: nat, key: StageKey, port: string, candidate: string) {
    n < |log| && log[n].Recorded? && log[n].result.key == key && log[n].result.port == port
    && log[n].result.candidate == Some(candidate)
  }

  ghost predicate SubjectAt(log: Log, n: nat, key: StageKey, port: string, subject: Subject) {
    ResultAt(log, n, key, port, subject.0) && log[n].result.validation == Some(subject.1)
  }

  lemma {:induction false} FindResult(log: Log, r: StageResult) returns (n: nat)
    requires r in ResultsOf(log)
    ensures RecordedAt(log, n, r)
    decreases |log|
  {
    var front, last := log[..|log| - 1], log[|log| - 1];
    if last.Recorded? && last.result == r {
      n := |log| - 1;
    } else {
      n := FindResult(front, r);
    }
  }

  lemma {:induction false} FindDecision(log: Log, d: Decision) returns (n: nat)
    requires d in DecisionsOf(log)
    ensures n < |log| && log[n] == Decided(d)
    decreases |log|
  {
    var front, last := log[..|log| - 1], log[|log| - 1];
    if last.Decided? && last.decision == d {
      n := |log| - 1;
    } else {
      n := FindDecision(front, d);
    }
  }

  /** A result read from a prefix sits in the log. */
  lemma FindSeen(log: Log, seen: nat, r: StageResult) returns (n: nat)
    requires r in ResultsOf(Seen(log, seen))
    ensures RecordedAt(log, n, r)
  {
    n := FindResult(Seen(log, seen), r);
  }

  lemma FindApproval(log: Log, e: Event, stage: ApprovalStage, subject: Subject) returns (n: nat)
    requires e.RunStage? && IsApproved(AttemptSeen(log, e), stage, subject)
    ensures ApprovedAt(log, n, stage, subject)
  {
    var decision := Latest(AttemptSeen(log, e).decisions, (d: Decision) => d.stage == stage).value;
    n := FindDecision(Seen(log, e.decisionsSeen), decision);
  }

  lemma FindSubject(log: Log, e: Event, key: StageKey, port: string) returns (n: nat)
    requires e.RunStage? && LatestSubject(AttemptSeen(log, e), key, port).Ok?
    ensures SubjectAt(log, n, key, port, LatestSubject(AttemptSeen(log, e), key, port).value)
  {
    n := FindSeen(log, e.resultsSeen, LatestResult(AttemptSeen(log, e), key, port).value);
  }

  // --- what stands behind each kind of result ---

  ghost predicate CodeBehind(log: Log, candidate: string) {
    exists n :: ResultAt(log, n, Code, "completed", candidate)
  }

  ghost predicate ReviewBehind(log: Log, candidate: string) {
    exists n :: ResultAt(log, n, Review, "passed", candidate)
  }

  ghost predicate SubjectBehind(log: Log, key: StageKey, port: string, subject: Subject) {
    exists n :: SubjectAt(log, n, key, port, subject)
  }

  ghost predicate ApprovalBehind(log: Log, stage: ApprovalStage, subject: Subject) {
    exists n :: ApprovedAt(log, n, stage, subject)
  }

  ghost predicate HasSubject(r: StageResult, subject: Subject) {
    r.candidate == Some(subject.0) && r.validation == Some(subject.1)
  }

  /** A completed pull request and a deploy request in the log that name the same pull request. */
  ghost predicate OnePullRequest(log: Log, p: nat, q: nat, request: Subject) {
    && ResultAt(log, p, PrComplete, "completed", request.0)
    && SubjectAt(log, q, DeployRequest, "recorded", request)
    && SamePullRequest(log[p].result, log[q].result)
  }

  /** The deploy request names the validated subject of a completed and approved pull request. */
  ghost predicate RequestedAfterPr(before: Log, r: StageResult, subject: Subject) {
    && r.candidate == Some(subject.0)
    && SubjectBehind(before, PrComplete, "completed", subject) && ApprovalBehind(before, GITHUB, subject)
    && Get(r.payload, "candidateSha") == Text(subject.0) && Get(r.payload, "sourceValidationHash") == Text(subject.1)
  }

  /** The deploy request was made on an approved preview, before any pull request was seen. */
  ghost predicate RequestedOnPreview(before: Log, r: StageResult, subject: Subject) {
    && HasSubject(r, subject)
    && SubjectBehind(before, Preview, "ready", subject) && ApprovalBehind(before, DEPLOY, subject)
  }

  ghost predicate RequestIsJustified(before: Log, r: StageResult) {
    || (exists subject :: RequestedAfterPr(before, r, subject))
    || (exists subject :: RequestedOnPreview(before, r, subject))
  }

  /** A completed pull request, and an approved deploy request for it, stand behind a merge check. */
  ghost predicate MergeBehind(before: Log, subject: Subject, requested: Subject) {
    && (exists p, q :: SubjectAt(before, p, PrComplete, "completed", subject) && OnePullRequest(before, p, q, requested))
    && ApprovalBehind(before, DEPLOY, requested)
  }

  /** An approved deploy request for a completed pull request, and its merge, stand behind a deployment. */
  ghost predicate DeploymentBehind(before: Log, subject: Subject, merged: Subject) {
    && (exists p, q :: OnePullRequest(before, p, q, subject))
    && ApprovalBehind(before, DEPLOY, subject)
    && merged.0 == subject.0 && SubjectBehind(before, DevMergeCheck, "merged", merged)
  }

  /** The entries that must precede a recorded result, given the log before it. */
  ghost predicate Justified(before: Log, r: StageResult) {
    match r.key
    case Analyze => true
    case Code => true
    case Review => r.candidate.Some? && CodeBehind(before, r.candidate.value)
    case Preview => r.candidate.Some? && ReviewBehind(before, r.candidate.value)
    case PrRequest =>
      exists subject :: HasSubject(r, subject) && SubjectBehind(before, Preview, "ready", subject)
                        && ApprovalBehind(before, CANDIDATE, subject)
    case PrComplete =>
      exists subject :: HasSubject(r, subject) && SubjectBehind(before, PrRequest, "requested", subject)
                        && ApprovalBehind(before, GITHUB, subject)
    case DeployRequest => RequestIsJustified(before, r)
    case DevMergeCheck =>
      exists subject, requested: Subject :: HasSubject(r, subject) && MergeBehind(before, subject, requested)
    case Deploy =>
      exists subject, merged: Subject :: HasSubject(r, subject) && DeploymentBehind(before, subject, merged)
  }

  ghost predicate AllJustified(log: Log) {
    forall n | 0 <= n < |log| && log[n].Recorded? :: Justified(log[..n], log[n].result)
  }

  lemma JudgedReview(log: Log, e: Event)
    requires e.RunStage? && e.key == Review && RequiredCandidate(Review, AttemptSeen(log, e)).Ok?
    ensures RequiredCandidate(Review, AttemptSeen(log, e)).value.Some?
    ensures CodeBehind(log, RequiredCandidate(Review, AttemptSeen(log, e)).value.value)
  {
    var a := AttemptSeen(log, e);
    var r := Latest(a.results, (r: StageResult) => r.key == Code).value;
    var n := FindSeen(log, e.resultsSeen, r);
    assert ResultAt(log, n, Code, "completed", r.candidate.value);
  }

  lemma JudgedPreview(log: Log, e: Event)
    requires e.RunStage? && e.key == Preview && RequiredCandidate(Preview, AttemptSeen(log, e)).Ok?
    ensures RequiredCandidate(Preview, AttemptSeen(log, e)).value.Some?
    ensures ReviewBehind(log, RequiredCandidate(Preview, AttemptSeen(log, e)).value.value)
  {
    var a := AttemptSeen(log, e);
    var r := Latest(a.results, (r: StageResult) => r.key == Review).value;
    var n := FindSeen(log, e.resultsSeen, r);
    assert ResultAt(log, n, Review, "passed", r.candidate.value);
  }

  lemma JudgedPrRequest(log: Log, e: Event) returns (subject: Subject)
    requires e.RunStage? && e.key == PrRequest && RequiredSubject(PrRequest, AttemptSeen(log, e)).Ok?
    ensures RequiredSubject(PrRequest, AttemptSeen(log, e)) == Ok(Some(subject))
    ensures SubjectBehind(log, Preview, "ready", subject) && ApprovalBehind(log, CANDIDATE, subject)
  {
    subject := LatestPreviewSubject(AttemptSeen(log, e)).value;
    var n := FindSubject(log, e, Preview, "ready");
    var m := FindApproval(log, e, CANDIDATE, subject);
  }

  lemma JudgedPrComplete(log: Log, e: Event) returns (subject: Subject)
    requires e.RunStage? && e.key == PrComplete && RequiredSubject(PrComplete, AttemptSeen(log, e)).Ok?
    ensures RequiredSubject(PrComplete, AttemptSeen(log, e)) == Ok(Some(subject))
    ensures SubjectBehind(log, PrRequest, "requested", subject) && ApprovalBehind(log, GITHUB, subject)
  {
    subject := LatestSubject(AttemptSeen(log, e), PrRequest, "requested").value;
    var n := FindSubject(log, e, PrRequest, "requested");
    var m := FindApproval(log, e, GITHUB, subject);
  }

  lemma JudgedMerge(log: Log, e: Event) returns (subject: Subject, requested: Subject)
    requires e.RunStage? && e.key == DevMergeCheck && RequiredSubject(DevMergeCheck, AttemptSeen(log, e)).Ok?
    ensures RequiredSubject(DevMergeCheck, AttemptSeen(log, e)) == Ok(Some(subject))
    ensures MergeBehind(log, subject, requested)
  {
    var a := AttemptSeen(log, e);
    subject, requested := LatestSubject(a, PrComplete, "completed").value, LatestDeploySubject(a).value;
    var p := FindSubject(log, e, PrComplete, "completed");
    var p', q := FindPullRequestAndRequest(log, e);
    var m := FindApproval(log, e, DEPLOY, requested);
    assert SubjectAt(log, p', PrComplete, "completed", subject) && OnePullRequest(log, p', q, requested);
  }

  /** The pull request and the deploy request that a stage compared are in the log. */
  lemma FindPullRequestAndRequest(log: Log, e: Event) returns (p: nat, q: nat)
    requires e.RunStage?
    requires var a := AttemptSeen(log, e);
      && LatestResult(a, PrComplete, "completed").Ok? && LatestDeploySubject(a).Ok?
      && SamePullRequest(LatestResult(a, PrComplete, "completed").value, LatestDeployRequest(a).value)
    ensures var a := AttemptSeen(log, e);
      && OnePullRequest(log, p, q, LatestDeploySubject(a).value)
      && RecordedAt(log, p, LatestResult(a, PrComplete, "completed").value)
  {
    var a := AttemptSeen(log, e);
    p := FindSeen(log, e.resultsSeen, LatestResult(a, PrComplete, "completed").value);
    q := FindSeen(log, e.resultsSeen, LatestDeployRequest(a).value);
  }

  lemma JudgedDeploy(log: Log, e: Event) returns (subject: Subject, merged: Subject)
    requires e.RunStage? && e.key == Deploy && RequiredSubject(Deploy, AttemptSeen(log, e)).Ok?
    ensures RequiredSubject(Deploy, AttemptSeen(log, e)) == Ok(Some(subject))
    ensures DeploymentBehind(log, subject, merged)
  {
    var a := AttemptSeen(log, e);
    subject, merged := LatestDeploySubject(a).value, LatestSubject(a, DevMergeCheck, "merged").value;
    var p, q := FindPullRequestAndRequest(log, e);
    var m := FindApproval(log, e, DEPLOY, subject);
    var k := FindSubject(log, e, DevMergeCheck, "merged");
  }

  lemma JudgedAfterPr(log: Log, e: Event, r: StageResult)
    requires e.RunStage? && e.key == DeployRequest && HasCompletedPullRequest(AttemptSeen(log, e))
    requires var judged := JudgeStage(e.key, e.configured, e.resultId, e.invoked, AttemptSeen(log, e), e.outcome);
      judged.Ok? && judged.value.0 == r
    ensures RequestIsJustified(log, r)
  {
    var subject := LatestSubject(AttemptSeen(log, e), PrComplete, "completed").value;
    var n := FindSubject(log, e, PrComplete, "completed");
    var m := FindApproval(log, e, GITHUB, subject);
    assert RequestedAfterPr(log, r, subject);
  }

  lemma JudgedOnPreview(log: Log, e: Event, r: StageResult)
    requires e.RunStage? && e.key == DeployRequest && !HasCompletedPullRequest(AttemptSeen(log, e))
    requires var judged := JudgeStage(e.key, e.configured, e.resultId, e.invoked, AttemptSeen(log, e), e.outcome);
      judged.Ok? && judged.value.0 == r
    ensures RequestIsJustified(log, r)
  {
    var subject := LatestPreviewSubject(AttemptSeen(log, e)).value;
    var n := FindSubject(log, e, Preview, "ready");
    var m := FindApproval(log, e, DEPLOY, subject);
    assert RequestedOnPreview(log, r, subject);
  }

  /** A deploy request is bound to the latest completed pull request, or to the preview if there is none. */
  lemma JudgedDeployRequest(log: Log, e: Event, r: StageResult)
    requires e.RunStage? && e.key == DeployRequest
    requires var judged := JudgeStage(e.key, e.configured, e.resultId, e.invoked, AttemptSeen(log, e), e.outcome);
      judged.Ok? && judged.value.0 == r
    ensures RequestIsJustified(log, r)
  {
    if HasCompletedPullRequest(AttemptSeen(log, e)) {
      JudgedAfterPr(log, e, r);
    } else {
      JudgedOnPreview(log, e, r);
    }
  }

  /** A handler only records results whose prerequisites are in the log. */
  lemma RecordedIsJustified(log: Log, e: Event)
    requires e.RunStage?
    requires JudgeStage(e.key, e.configured, e.resultId, e.invoked, AttemptSeen(log, e), e.outcome).Ok?
    ensures Justified(log, JudgeStage(e.key, e.configured, e.resultId, e.invoked, AttemptSeen(log, e), e.outcome).value.0)
  {
    var r := JudgeStage(e.key, e.configured, e.resultId, e.invoked, AttemptSeen(log, e), e.outcome).value.0;
    match e.key
    case Analyze =>
    case Code =>
    case Review => JudgedReview(log, e);
    case Preview => JudgedPreview(log, e);
    case PrRequest => var subject := JudgedPrRequest(log, e);
    case PrComplete => var subject := JudgedPrComplete(log, e);
    case DeployRequest => JudgedDeployRequest(log, e, r);
    case DevMergeCheck => var subject, requested := JudgedMerge(log, e);
    case Deploy => var subject, merged := JudgedDeploy(log, e);
  }

  lemma {:induction false} HistoryIsJustified(events: seq<Event>)
    ensures AllJustified(History(events))
    decreases |events|
  {
    if events != [] {
      var before, e := History(events[..|events| - 1]), events[|events| - 1];
      HistoryIsJustified(events[..|events| - 1]);
      var after := History(events);
      if after != before {
        if e.RunStage? {
          RecordedIsJustified(before, e);
        }
        assert after[..|before|] == before;
        forall n | 0 <= n < |after| && after[n].Recorded? ensures Justified(after[..n], after[n].result) {
          if n < |before| {
            assert after[..n] == before[..n] && after[n] == before[n];
          }
        }
      }
    }
  }

  // --- the chain behind a deployment ---

  /** Where in the log each step behind a deployment happened. */
  datatype Chain = Chain(
    code: nat, review: nat, preview: nat, candidateApproval: nat, prRequest: nat, githubApproval: nat, prComplete: nat,
    mergeRequest: nat, mergeApproval: nat, merge: nat, deployedPr: nat, deployRequest: nat, deployApproval: nat)

  /**
   The chain behind the deployment of `deployed` at position n. `proposed` is the subject that
   was previewed, approved and merged, and `requested` the one whose deployment had been
   requested and approved by the time of the merge check; all three have the same candidate. Each
   deploy request names the same pull request as a completed one, and was itself justified.
   */
  ghost predicate Supports(log: Log, n: nat, deployed: Subject, proposed: Subject, requested: Subject, c: Chain) {
    && deployed.0 == proposed.0 == requested.0
    && c.code < c.review < c.preview < c.prRequest < c.prComplete < c.merge < n
    && c.candidateApproval < c.prRequest && c.githubApproval < c.prComplete
    && c.mergeRequest < c.merge && c.mergeApproval < c.merge
    && c.deployedPr < n && c.deployRequest < n && c.deployApproval < n
    && ResultAt(log, c.code, Code, "completed", deployed.0)
    && ResultAt(log, c.review, Review, "passed", deployed.0)
    && SubjectAt(log, c.preview, Preview, "ready", proposed)
    && ApprovedAt(log, c.candidateApproval, CANDIDATE, proposed)
    && SubjectAt(log, c.prRequest, PrRequest, "requested", proposed)
    && ApprovedAt(log, c.githubApproval, GITHUB, proposed)
    && SubjectAt(log, c.prComplete, PrComplete, "completed", proposed)
    && OnePullRequest(log, c.prComplete, c.mergeRequest, requested)
    && RequestIsJustified(log[..c.mergeRequest], log[c.mergeRequest].result)
    && ApprovedAt(log, c.mergeApproval, DEPLOY, requested)
    && SubjectAt(log, c.merge, DevMergeCheck, "merged", proposed)
    && OnePullRequest(log, c.deployedPr, c.deployRequest, deployed)
    && RequestIsJustified(log[..c.deployRequest], log[c.deployRequest].result)
    && ApprovedAt(log, c.deployApproval, DEPLOY, deployed)
  }

  /** From a pull request back to the code it started from. */
  lemma ChainOfPullRequest(log: Log, prComplete: nat, proposed: Subject)
    returns (code: nat, review: nat, preview: nat, candidateApproval: nat, prRequest: nat, githubApproval: nat)
    requires AllJustified(log) && SubjectAt(log, prComplete, PrComplete, "completed", proposed)
    ensures code < review < preview < prRequest < prComplete
    ensures candidateApproval < prRequest && githubApproval < prComplete
    ensures ResultAt(log, code, Code, "completed", proposed.0) && ResultAt(log, review, Review, "passed", proposed.0)
    ensures SubjectAt(log, preview, Preview, "ready", proposed) && ApprovedAt(log, candidateApproval, CANDIDATE, proposed)
    ensures SubjectAt(log, prRequest, PrRequest, "requested", proposed) && ApprovedAt(log, githubApproval, GITHUB, proposed)
  {
    assert Justified(log[..prComplete], log[prComplete].result);
    prRequest :| SubjectAt(log[..prComplete], prRequest, PrRequest, "requested", proposed);
    githubApproval :| ApprovedAt(log[..prComplete], githubApproval, GITHUB, proposed);
    assert Justified(log[..prRequest], log[prRequest].result);
    preview :| SubjectAt(log[..prRequest], preview, Preview, "ready", proposed);
    candidateApproval :| ApprovedAt(log[..prRequest], candidateApproval, CANDIDATE, proposed);
    assert Justified(log[..preview], log[preview].result);
    review :| ResultAt(log[..preview], review, Review, "passed", proposed.0);
    assert Justified(log[..review], log[review].result);
    code :| ResultAt(log[..review], code, Code, "completed", proposed.0);
  }

  /** What stands directly behind a merge check. */
  lemma BehindMerge(log: Log, merge: nat, proposed: Subject)
    returns (requested: Subject, prComplete: nat, mergeRequest: nat, mergeApproval: nat)
    requires AllJustified(log) && SubjectAt(log, merge, DevMergeCheck, "merged", proposed)
    ensures prComplete < merge && mergeRequest < merge && mergeApproval < merge && requested.0 == proposed.0
    ensures SubjectAt(log, prComplete, PrComplete, "completed", proposed)
    ensures OnePullRequest(log, prComplete, mergeRequest, requested)
    ensures RequestIsJustified(log[..mergeRequest], log[mergeRequest].result)
    ensures ApprovedAt(log, mergeApproval, DEPLOY, requested)
  {
    var before := log[..merge];
    assert Justified(before, log[merge].result);
    var subject: Subject;
    subject, requested :| HasSubject(log[merge].result, subject) && MergeBehind(before, subject, requested);
    prComplete, mergeRequest :| SubjectAt(before, prComplete, PrComplete, "completed", subject)
      && OnePullRequest(before, prComplete, mergeRequest, requested);
    mergeApproval :| ApprovedAt(before, mergeApproval, DEPLOY, requested);
    assert Justified(log[..mergeRequest], log[mergeRequest].result);
  }

  /** What stands directly behind a deployment. */
  lemma BehindDeployment(log: Log, n: nat)
    returns (deployed: Subject, proposed: Subject, deployedPr: nat, deployRequest: nat, deployApproval: nat, merge: nat)
    requires AllJustified(log) && n < |log| && log[n].Recorded? && log[n].result.key == Deploy
    ensures HasSubject(log[n].result, deployed) && deployed.0 == proposed.0
    ensures deployedPr < n && deployRequest < n && deployApproval < n && merge < n
    ensures OnePullRequest(log, deployedPr, deployRequest, deployed)
    ensures RequestIsJustified(log[..deployRequest], log[deployRequest].result)
    ensures ApprovedAt(log, deployApproval, DEPLOY, deployed)
    ensures SubjectAt(log, merge, DevMergeCheck, "merged", proposed)
  {
    var before := log[..n];
    assert Justified(before, log[n].result);
    deployed, proposed :| HasSubject(log[n].result, deployed) && DeploymentBehind(before, deployed, proposed);
    deployedPr, deployRequest :| OnePullRequest(before, deployedPr, deployRequest, deployed);
    deployApproval :| ApprovedAt(before, deployApproval, DEPLOY, deployed);
    merge :| SubjectAt(before, merge, DevMergeCheck, "merged", proposed);
    assert Justified(log[..deployRequest], log[deployRequest].result);
  }

  /**
   Deployment provenance: in every history of an attempt, behind every recorded deployment lies
   the whole chain, with the deployed candidate at each step.
   */
  lemma DeploymentProvenance(events: seq<Event>, n: nat)
    returns (deployed: Subject, proposed: Subject, requested: Subject, c: Chain)
    requires n < |History(events)| && History(events)[n].Recorded? && History(events)[n].result.key == Deploy
    ensures HasSubject(History(events)[n].result, deployed)
    ensures Supports(History(events), n, deployed, proposed, requested, c)
  {
    var log := History(events);
    HistoryIsJustified(events);
    var deployedPr, deployRequest, deployApproval, merge;
    deployed, proposed, deployedPr, deployRequest, deployApproval, merge := BehindDeployment(log, n);
    var prComplete, mergeRequest, mergeApproval;
    requested, prComplete, mergeRequest, mergeApproval := BehindMerge(log, merge, proposed);
    var code, review, preview, candidateApproval, prRequest, githubApproval :=
      ChainOfPullRequest(log, prComplete, proposed);
    c := Chain(code, review, preview, candidateApproval, prRequest, githubApproval, prComplete,
               mergeRequest, mergeApproval, merge, deployedPr, deployRequest, deployApproval);
  }

  // --- one result per id ---

  lemma {:induction false} InResults(log: Log, n: nat)
    requires n < |log| && log[n].Recorded?
    ensures log[n].result in ResultsOf(log)
    decreases |log|
  {
    if n < |log| - 1 {
      InResults(log[..|log| - 1], n);
    }
  }

  ghost predicate OneResultPerId(log: Log) {
    forall i, j | 0 <= i < j < |log| && log[i].Recorded? && log[j].Recorded? :: log[i].result.id != log[j].result.id
  }

  lemma PutKeepsIdsUnique(log: Log, r: StageResult)
    requires OneResultPerId(log)
    ensures PutResult(log, r).Ok? ==> OneResultPerId(PutResult(log, r).value)
  {
    if Latest(ResultsOf(log), (other: StageResult) => other.id == r.id) == None {
      forall i | 0 <= i < |log| && log[i].Recorded? ensures log[i].result.id != r.id {
        InResults(log, i);
      }
    }
  }
}
