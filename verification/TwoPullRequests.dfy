/**
 A history of up-to-date reads that deploys another pull request than the one whose merge was checked:
 after the merge check a second pull request of the same candidate is completed, its deployment is
 requested and approved, and the deployment finds the candidate of the old merge receipt.
 */
module TwoPullRequests {
  import opened Wrappers
  import opened CodingStages
  import opened CodingProvenance
  import opened DeployedPullRequest

  // --- what the results carry ---

  /** The attempt, its one candidate, and the validations of the candidate and of its deployment. */
  datatype Facts = Facts(
    jobId: string, attempt: int, candidate: string, diff: string, validation: string, deployValidation: string)

  predicate IsPullRequestReceipt(f: Facts, p: Payload, number: int) {
    && number >= 1 && Get(p, "repository") == Text("backend") && Get(p, "prNumber") == Number(number)
    && Get(p, "base") == Text("dev") && Get(p, "state") == Text("OPEN")
    && Get(p, "candidateSha") == Text(f.candidate) && Get(p, "validationHash") == Text(f.validation)
    && IsText(Get(p, "head")) && IsText(Get(p, "headSha")) && IsText(Get(p, "authorLogin"))
    && IsText(Get(p, "prUrl")) && Get(p, "prUrl").text != "" && Get(p, "reused").Flag?
  }

  predicate IsRequestReceipt(f: Facts, p: Payload, number: int) {
    && {"deploymentRequestId", "jobId", "pipelineAttempt", "repository", "prNumber", "candidateSha",
        "sourceValidationHash", "adapterKey", "targetKey", "configDigest", "status"} <= p.Keys
    && IsText(Get(p, "deploymentRequestId"))
    && Get(p, "repository") == Text("backend") && Get(p, "prNumber") == Number(number)
    && Get(p, "jobId") == Text(f.jobId) && Get(p, "pipelineAttempt") == Number(f.attempt)
    && Get(p, "candidateSha") == Text(f.candidate) && Get(p, "sourceValidationHash") == Text(f.validation)
  }

  predicate IsMergeReceipt(f: Facts, p: Payload) {
    && Get(p, "status") == Text("MERGED") && Get(p, "candidateSha") == Text(f.candidate)
    && IsText(Get(p, "head")) && IsText(Get(p, "headSha")) && IsText(Get(p, "mergeSha"))
  }

  predicate IsDeployReceipt(p: Payload) {
    && IsText(Get(p, "deploymentRequestId")) && IsText(Get(p, "deploymentExecutionId")) && IsText(Get(p, "mergeSha"))
    && "port" !in p && "deployedPort" !in p
  }

  function PortOf(key: StageKey): string {
    match key
    case Review => "passed"
    case Preview => "ready"
    case PrRequest => "requested"
    case DevMergeCheck => "merged"
    case DeployRequest => "recorded"
    case _ => "completed"
  }

  function SubjectFor(f: Facts, key: StageKey): Subject {
    (f.candidate, if key in {DeployRequest, Deploy} then f.deployValidation else f.validation)
  }

  function ResultOf(f: Facts, id: string, key: StageKey, payload: Payload): StageResult {
    StageResult(id, key, KindOf(key), PortOf(key), payload, None,
                Some(f.candidate), Some(f.diff), Some(SubjectFor(f, key).1))
  }

  // --- one more event ---

  function AttemptOf(f: Facts, log: Log): Attempt {
    Attempt(f.jobId, f.attempt, None, ResultsOf(log), DecisionsOf(log))
  }

  /** A stage that reads an attempt records exactly this result. */
  ghost predicate Records(a: Attempt, r: StageResult) {
    var judged := JudgeStage(r.key, false, r.id, None, a,
                             Outcome(r.port, r.payload, None, r.candidate, r.diffDigest, r.validation));
    judged.Ok? && judged.value.0 == r
  }

  /** All ids in the log are shorter than this. */
  ghost predicate IdsBelow(log: Log, n: nat) {
    forall i | 0 <= i < |log| && log[i].Recorded? :: |log[i].result.id| < n
  }

  lemma HistoryGrows(events: seq<Event>, e: Event)
    requires ReadsAll(events) && (e.RunStage? ==> e.resultsSeen >= |History(events)|)
    ensures ReadsAll(events + [e]) && History(events + [e]) == Apply(History(events), e)
  {
    var all := events + [e];
    assert all[..|events|] == events;
    forall k | 0 <= k < |all| && all[k].RunStage? ensures all[k].resultsSeen >= |History(all[..k])| {
      if k < |events| {
        assert all[..k] == events[..k];
      }
    }
  }

  lemma NewIdIsPut(log: Log, r: StageResult, n: nat)
    requires IdsBelow(log, n) && |r.id| == n
    ensures PutResult(log, r) == Ok(log + [Recorded(r)]) && IdsBelow(log + [Recorded(r)], n + 1)
  {
    var earlier := Latest(ResultsOf(log), (other: StageResult) => other.id == r.id);
    if earlier.Some? {
      var i := FindResult(log, earlier.value);
    }
  }

  function RunFor(f: Facts, log: Log, r: StageResult): Event {
    RunStage(r.key, false, r.id, None, f.jobId, f.attempt, None, |log|, |log|,
             Outcome(r.port, r.payload, None, r.candidate, r.diffDigest, r.validation))
  }

  lemma RunAppends(f: Facts, log: Log, r: StageResult, n: nat)
    requires Records(AttemptOf(f, log), r) && IdsBelow(log, n) && |r.id| == n
    ensures Apply(log, RunFor(f, log, r)) == log + [Recorded(r)] && IdsBelow(log + [Recorded(r)], n + 1)
  {
    assert log[..|log|] == log;
    assert AttemptSeen(log, RunFor(f, log, r)) == AttemptOf(f, log);
    NewIdIsPut(log, r, n);
  }

  // --- what has happened so far ---

  /** The latest merge check, pull request and deploy request. */
  datatype Marks = Marks(merge: Option<nat>, pullRequest: Option<nat>, request: Option<nat>)

  ghost predicate Marked(log: Log, marks: Marks) {
    && LastAt(log, |log|, MERGED) == marks.merge
    && LastAt(log, |log|, COMPLETED) == marks.pullRequest
    && LastAt(log, |log|, IsIdentifiedDeployRequest) == marks.request
  }

  lemma {:induction false} LastAtPrefix(log: Log, more: Log, n: nat, wanted: StageResult -> bool)
    requires n <= |log|
    ensures LastAt(log + more, n, wanted) == LastAt(log, n, wanted)
    decreases n
  {
    if n > 0 {
      LastAtPrefix(log, more, n - 1, wanted);
    }
  }

  lemma LastAtAppends(log: Log, x: Entry, wanted: StageResult -> bool)
    ensures LastAt(log + [x], |log| + 1, wanted)
      == if x.Recorded? && wanted(x.result) then Some(|log|) else LastAt(log, |log|, wanted)
  {
    LastAtPrefix(log, [x], |log|, wanted);
  }

  function MarksAfter(marks: Marks, at: nat, x: Entry): Marks {
    if x.Decided? then marks
    else
      Marks(if MERGED(x.result) then Some(at) else marks.merge,
            if COMPLETED(x.result) then Some(at) else marks.pullRequest,
            if IsIdentifiedDeployRequest(x.result) then Some(at) else marks.request)
  }

  lemma MarksAppend(log: Log, x: Entry, marks: Marks)
    requires Marked(log, marks)
    ensures Marked(log + [x], MarksAfter(marks, |log|, x))
  {
    LastAtAppends(log, x, MERGED);
    LastAtAppends(log, x, COMPLETED);
    LastAtAppends(log, x, IsIdentifiedDeployRequest);
  }

  lemma LatestAppends(log: Log, x: Entry, wanted: StageResult -> bool)
    ensures Latest(ResultsOf(log + [x]), wanted)
      == if x.Recorded? && wanted(x.result) then Some(x.result) else Latest(ResultsOf(log), wanted)
  {
    assert (log + [x])[..|log|] == log;
    if x.Recorded? {
      assert (ResultsOf(log) + [x.result])[..|ResultsOf(log)|] == ResultsOf(log);
    } else {
      assert ResultsOf(log) + [] == ResultsOf(log);
    }
  }

  lemma ApprovalAppends(f: Facts, log: Log, x: Entry, stage: ApprovalStage, subject: Subject)
    ensures IsApproved(AttemptOf(f, log + [x]), stage, subject)
      == if x.Decided? && x.decision.stage == stage
         then x.decision.approved && x.decision.candidate == Some(subject.0) && x.decision.validation == Some(subject.1)
         else IsApproved(AttemptOf(f, log), stage, subject)
  {
    assert (log + [x])[..|log|] == log;
    if x.Decided? {
      assert (DecisionsOf(log) + [x.decision])[..|DecisionsOf(log)|] == DecisionsOf(log);
    } else {
      assert DecisionsOf(log) + [] == DecisionsOf(log);
    }
  }

  /** The stage's subject is approved by the latest decision. */
  ghost predicate Approves(f: Facts, log: Log, stage: ApprovalStage, key: StageKey) {
    IsApproved(AttemptOf(f, log), stage, SubjectFor(f, key))
  }

  // --- what each stage makes of what it reads ---

  ghost predicate Finds(a: Attempt, f: Facts, wanted: StageResult -> bool, key: StageKey) {
    var found := Latest(a.results, wanted);
    && a.workspace == None && found.Some? && HasSubject(found.value, SubjectFor(f, key))
    && found.value.port == PortOf(key) && found.value.kind == KindOf(key)
  }

  lemma RecordsCode(f: Facts, a: Attempt, id: string)
    requires a.workspace == None
    ensures Records(a, ResultOf(f, id, Code, map[]))
  {
  }

  lemma RecordsReview(f: Facts, a: Attempt, id: string)
    requires Finds(a, f, (r: StageResult) => r.key == Code, Code)
    ensures Records(a, ResultOf(f, id, Review, map[]))
  {
  }

  lemma RecordsPreview(f: Facts, a: Attempt, id: string)
    requires Finds(a, f, (r: StageResult) => r.key == Code, Code)
    requires Finds(a, f, (r: StageResult) => r.key == Review, Review)
    ensures Records(a, ResultOf(f, id, Preview, map[]))
  {
  }

  lemma RecordsPrRequest(f: Facts, a: Attempt, id: string)
    requires Finds(a, f, Leaving(Preview, "ready"), Preview)
    requires IsApproved(a, CANDIDATE, SubjectFor(f, Preview))
    ensures Records(a, ResultOf(f, id, PrRequest, map[]))
  {
  }

  lemma RecordsPullRequest(f: Facts, a: Attempt, id: string, receipt: Payload, number: int)
    requires Finds(a, f, Leaving(PrRequest, "requested"), PrRequest)
    requires IsApproved(a, GITHUB, SubjectFor(f, PrRequest)) && IsPullRequestReceipt(f, receipt, number)
    ensures Records(a, ResultOf(f, id, PrComplete, receipt))
  {
  }

  lemma RecordsDeployRequest(f: Facts, a: Attempt, id: string, receipt: Payload, number: int)
    requires Finds(a, f, COMPLETED, PrComplete) && NamesRepository(Latest(a.results, COMPLETED).value.payload)
    requires IsApproved(a, GITHUB, SubjectFor(f, PrRequest)) && IsRequestReceipt(f, receipt, number)
    requires a.jobId == f.jobId && a.pipelineAttempt == f.attempt
    ensures Records(a, ResultOf(f, id, DeployRequest, receipt))
  {
    assert HasCompletedPullRequest(a);
  }

  /** The latest pull request, and an approved deploy request for it. */
  ghost predicate FindsRequest(a: Attempt, f: Facts) {
    && Finds(a, f, COMPLETED, PrComplete) && Finds(a, f, IsIdentifiedDeployRequest, DeployRequest)
    && SamePullRequest(Latest(a.results, COMPLETED).value, Latest(a.results, IsIdentifiedDeployRequest).value)
    && IsApproved(a, DEPLOY, SubjectFor(f, DeployRequest))
  }

  lemma MergeIsDemanded(f: Facts, a: Attempt)
    requires FindsRequest(a, f)
    ensures RequiredSubject(DevMergeCheck, a) == Ok(Some(SubjectFor(f, PrComplete)))
  {
  }

  lemma RecordsMerge(f: Facts, a: Attempt, id: string, receipt: Payload)
    requires FindsRequest(a, f) && IsMergeReceipt(f, receipt)
    ensures Records(a, ResultOf(f, id, DevMergeCheck, receipt))
  {
    MergeIsDemanded(f, a);
  }

  lemma DeployIsDemanded(f: Facts, a: Attempt)
    requires FindsRequest(a, f) && Finds(a, f, MERGED, DevMergeCheck)
    ensures RequiredSubject(Deploy, a) == Ok(Some(SubjectFor(f, Deploy)))
  {
  }

  lemma RecordsDeploy(f: Facts, a: Attempt, id: string, receipt: Payload)
    requires FindsRequest(a, f) && Finds(a, f, MERGED, DevMergeCheck) && IsDeployReceipt(receipt)
    ensures Records(a, ResultOf(f, id, Deploy, receipt))
  {
    DeployIsDemanded(f, a);
  }

  // --- putting the history together ---

  /** A history so far, with ids up to a length. */
  ghost predicate IsSoFar(events: seq<Event>, n: nat) {
    ReadsAll(events) && IdsBelow(History(events), n)
  }

  function Id(n: nat): string {
    seq(n, _ => 'x')
  }

  lemma RunNext(f: Facts, events: seq<Event>, n: nat, key: StageKey, receipt: Payload) returns (more: seq<Event>)
    requires IsSoFar(events, n) && Records(AttemptOf(f, History(events)), ResultOf(f, Id(n), key, receipt))
    ensures IsSoFar(more, n + 1)
    ensures History(more) == History(events) + [Recorded(ResultOf(f, Id(n), key, receipt))]
  {
    var log, r := History(events), ResultOf(f, Id(n), key, receipt);
    RunAppends(f, log, r, n);
    HistoryGrows(events, RunFor(f, log, r));
    more := events + [RunFor(f, log, r)];
  }

  function Approval(f: Facts, stage: ApprovalStage, key: StageKey): Decision {
    Decision(stage, true, Some(SubjectFor(f, key).0), Some(SubjectFor(f, key).1))
  }

  lemma ApproveNext(f: Facts, events: seq<Event>, n: nat, stage: ApprovalStage, key: StageKey)
    returns (more: seq<Event>)
    requires IsSoFar(events, n)
    ensures IsSoFar(more, n) && History(more) == History(events) + [Decided(Approval(f, stage, key))]
    ensures Approves(f, History(more), stage, key)
  {
    HistoryGrows(events, Decide(Approval(f, stage, key)));
    more := events + [Decide(Approval(f, stage, key))];
    ApprovalAppends(f, History(events), Decided(Approval(f, stage, key)), stage, SubjectFor(f, key));
  }

  /** A pull request was requested and approved. */
  ghost predicate Proposed(f: Facts, log: Log) {
    Finds(AttemptOf(f, log), f, Leaving(PrRequest, "requested"), PrRequest) && Approves(f, log, GITHUB, PrRequest)
  }

  /** Later results and deploy decisions leave the proposal standing. */
  lemma StillProposed(f: Facts, log: Log, x: Entry)
    requires Proposed(f, log)
    requires if x.Recorded? then x.result.key != PrRequest else x.decision.stage == DEPLOY
    ensures Proposed(f, log + [x])
  {
    LatestAppends(log, x, Leaving(PrRequest, "requested"));
    ApprovalAppends(f, log, x, GITHUB, SubjectFor(f, PrRequest));
  }

  const NOTHING := Marks(None, None, None)

  /** A history before any pull request, of so many entries. */
  ghost predicate IsEarly(events: seq<Event>, n: nat, length: nat) {
    IsSoFar(events, n) && |History(events)| == length && Marked(History(events), NOTHING)
  }

  lemma EarlyNext(f: Facts, events: seq<Event>, n: nat, length: nat, key: StageKey) returns (more: seq<Event>)
    requires IsEarly(events, n, length) && key in {Code, Review, Preview, PrRequest}
    requires Records(AttemptOf(f, History(events)), ResultOf(f, Id(n), key, map[]))
    ensures IsEarly(more, n + 1, length + 1)
    ensures History(more) == History(events) + [Recorded(ResultOf(f, Id(n), key, map[]))]
  {
    more := RunNext(f, events, n, key, map[]);
    MarksAppend(History(events), Recorded(ResultOf(f, Id(n), key, map[])), NOTHING);
  }

  lemma CodeNext(f: Facts) returns (events: seq<Event>)
    ensures IsEarly(events, 1, 1)
    ensures Finds(AttemptOf(f, History(events)), f, (r: StageResult) => r.key == Code, Code)
  {
    RecordsCode(f, AttemptOf(f, []), Id(0));
    events := EarlyNext(f, [], 0, 0, Code);
    LatestAppends([], Recorded(ResultOf(f, Id(0), Code, map[])), (r: StageResult) => r.key == Code);
  }

  lemma ReviewNext(f: Facts) returns (events: seq<Event>)
    ensures IsEarly(events, 2, 2)
    ensures Finds(AttemptOf(f, History(events)), f, (r: StageResult) => r.key == Code, Code)
    ensures Finds(AttemptOf(f, History(events)), f, (r: StageResult) => r.key == Review, Review)
  {
    var before := CodeNext(f);
    var x := Recorded(ResultOf(f, Id(1), Review, map[]));
    RecordsReview(f, AttemptOf(f, History(before)), Id(1));
    events := EarlyNext(f, before, 1, 1, Review);
    LatestAppends(History(before), x, (r: StageResult) => r.key == Code);
    LatestAppends(History(before), x, (r: StageResult) => r.key == Review);
  }

  lemma PreviewNext(f: Facts) returns (events: seq<Event>)
    ensures IsEarly(events, 3, 3)
    ensures Finds(AttemptOf(f, History(events)), f, Leaving(Preview, "ready"), Preview)
  {
    var before := ReviewNext(f);
    RecordsPreview(f, AttemptOf(f, History(before)), Id(2));
    events := EarlyNext(f, before, 2, 2, Preview);
    LatestAppends(History(before), Recorded(ResultOf(f, Id(2), Preview, map[])), Leaving(Preview, "ready"));
  }

  lemma CandidateNext(f: Facts) returns (events: seq<Event>)
    ensures IsEarly(events, 3, 4) && Approves(f, History(events), CANDIDATE, Preview)
    ensures Finds(AttemptOf(f, History(events)), f, Leaving(Preview, "ready"), Preview)
  {
    var previewed := PreviewNext(f);
    var approval := Decided(Approval(f, CANDIDATE, Preview));
    events := ApproveNext(f, previewed, 3, CANDIDATE, Preview);
    LatestAppends(History(previewed), approval, Leaving(Preview, "ready"));
    MarksAppend(History(previewed), approval, NOTHING);
  }

  lemma ProposalNext(f: Facts) returns (events: seq<Event>)
    ensures IsEarly(events, 4, 5)
    ensures Finds(AttemptOf(f, History(events)), f, Leaving(PrRequest, "requested"), PrRequest)
  {
    var approved := CandidateNext(f);
    RecordsPrRequest(f, AttemptOf(f, History(approved)), Id(3));
    events := EarlyNext(f, approved, 3, 4, PrRequest);
    LatestAppends(History(approved), Recorded(ResultOf(f, Id(3), PrRequest, map[])), Leaving(PrRequest, "requested"));
  }

  /** The request was approved: everything up to the first pull request. */
  lemma Begun(f: Facts) returns (events: seq<Event>)
    ensures IsEarly(events, 4, 6) && Proposed(f, History(events))
  {
    var requested := ProposalNext(f);
    var approval := Decided(Approval(f, GITHUB, PrRequest));
    events := ApproveNext(f, requested, 4, GITHUB, PrRequest);
    LatestAppends(History(requested), approval, Leaving(PrRequest, "requested"));
    MarksAppend(History(requested), approval, NOTHING);
  }

  // --- from the proposal to the deployment ---

  ghost predicate InState(f: Facts, events: seq<Event>, n: nat, marks: Marks) {
    IsSoFar(events, n) && Proposed(f, History(events)) && Marked(History(events), marks)
  }

  /** A mark is what a stage finds. */
  lemma MarkIsFound(log: Log, at: nat, wanted: StageResult -> bool)
    requires LastAt(log, |log|, wanted) == Some(at)
    ensures at < |log| && log[at].Recorded? && Latest(ResultsOf(log), wanted) == Some(log[at].result)
  {
    assert log[..|log|] == log;
    LatestIsLast(log, |log|, wanted);
  }

  lemma StateAfter(f: Facts, events: seq<Event>, n: nat, marks: Marks, key: StageKey, receipt: Payload)
    returns (more: seq<Event>)
    requires InState(f, events, n, marks) && key != PrRequest
    requires Records(AttemptOf(f, History(events)), ResultOf(f, Id(n), key, receipt))
    ensures var x := Recorded(ResultOf(f, Id(n), key, receipt));
      && History(more) == History(events) + [x]
      && InState(f, more, n + 1, MarksAfter(marks, |History(events)|, x))
  {
    var x := Recorded(ResultOf(f, Id(n), key, receipt));
    more := RunNext(f, events, n, key, receipt);
    StillProposed(f, History(events), x);
    MarksAppend(History(events), x, marks);
  }

  lemma PullRequestNext(f: Facts, events: seq<Event>, n: nat, marks: Marks, receipt: Payload, number: int)
    returns (more: seq<Event>)
    requires InState(f, events, n, marks) && IsPullRequestReceipt(f, receipt, number)
    ensures History(more) == History(events) + [Recorded(ResultOf(f, Id(n), PrComplete, receipt))]
    ensures InState(f, more, n + 1, marks.(pullRequest := Some(|History(events)|)))
  {
    RecordsPullRequest(f, AttemptOf(f, History(events)), Id(n), receipt, number);
    more := StateAfter(f, events, n, marks, PrComplete, receipt);
  }

  /** The marked pull request carries this receipt. */
  ghost predicate Carries(f: Facts, log: Log, at: Option<nat>, key: StageKey, receipt: Payload) {
    && at.Some? && at.value < |log| && log[at.value].Recorded?
    && log[at.value].result == ResultOf(f, log[at.value].result.id, key, receipt)
  }

  lemma CarriesOn(f: Facts, log: Log, more: Log, at: Option<nat>, key: StageKey, receipt: Payload)
    requires log <= more && Carries(f, log, at, key, receipt)
    ensures Carries(f, more, at, key, receipt)
  {
  }

  lemma DeployRequestNext(f: Facts, events: seq<Event>, n: nat, marks: Marks,
                          pullRequest: Payload, receipt: Payload, number: int)
    returns (more: seq<Event>)
    requires InState(f, events, n, marks) && Carries(f, History(events), marks.pullRequest, PrComplete, pullRequest)
    requires IsPullRequestReceipt(f, pullRequest, number) && IsRequestReceipt(f, receipt, number)
    ensures History(more) == History(events) + [Recorded(ResultOf(f, Id(n), DeployRequest, receipt))]
    ensures InState(f, more, n + 1, marks.(request := Some(|History(events)|)))
  {
    MarkIsFound(History(events), marks.pullRequest.value, COMPLETED);
    RecordsDeployRequest(f, AttemptOf(f, History(events)), Id(n), receipt, number);
    more := StateAfter(f, events, n, marks, DeployRequest, receipt);
  }

  lemma ApprovalNext(f: Facts, events: seq<Event>, n: nat, marks: Marks) returns (more: seq<Event>)
    requires InState(f, events, n, marks)
    ensures History(more) == History(events) + [Decided(Approval(f, DEPLOY, DeployRequest))]
    ensures InState(f, more, n, marks) && Approves(f, History(more), DEPLOY, DeployRequest)
  {
    var x := Decided(Approval(f, DEPLOY, DeployRequest));
    more := ApproveNext(f, events, n, DEPLOY, DeployRequest);
    StillProposed(f, History(events), x);
    MarksAppend(History(events), x, marks);
  }

  /** A pull request is completed, and its deployment requested and approved. */
  ghost predicate InRound(f: Facts, events: seq<Event>, n: nat, marks: Marks,
                          pullRequest: Payload, request: Payload, number: int) {
    && InState(f, events, n, marks) && Approves(f, History(events), DEPLOY, DeployRequest)
    && Carries(f, History(events), marks.pullRequest, PrComplete, pullRequest)
    && Carries(f, History(events), marks.request, DeployRequest, request)
    && IsPullRequestReceipt(f, pullRequest, number) && IsRequestReceipt(f, request, number)
  }

  lemma RequestRound(f: Facts, events: seq<Event>, n: nat, marks: Marks,
                     pullRequest: Payload, request: Payload, number: int)
    returns (more: seq<Event>)
    requires InState(f, events, n, marks) && Carries(f, History(events), marks.pullRequest, PrComplete, pullRequest)
    requires IsPullRequestReceipt(f, pullRequest, number) && IsRequestReceipt(f, request, number)
    ensures var at := |History(events)|;
      && History(events) <= History(more) && |History(more)| == at + 2
      && InRound(f, more, n + 1, marks.(request := Some(at)), pullRequest, request, number)
  {
    var at := |History(events)|;
    var requested := DeployRequestNext(f, events, n, marks, pullRequest, request, number);
    assert Carries(f, History(requested), Some(at), DeployRequest, request);
    CarriesOn(f, History(events), History(requested), marks.pullRequest, PrComplete, pullRequest);
    more := ApprovalNext(f, requested, n + 1, marks.(request := Some(at)));
    CarriesOn(f, History(requested), History(more), marks.pullRequest, PrComplete, pullRequest);
    CarriesOn(f, History(requested), History(more), Some(at), DeployRequest, request);
  }

  lemma RoundNext(f: Facts, events: seq<Event>, n: nat, marks: Marks,
                  pullRequest: Payload, request: Payload, number: int)
    returns (more: seq<Event>)
    requires InState(f, events, n, marks)
    requires IsPullRequestReceipt(f, pullRequest, number) && IsRequestReceipt(f, request, number)
    ensures var at := |History(events)|;
      && History(events) <= History(more) && |History(more)| == at + 3
      && InRound(f, more, n + 2, Marks(marks.merge, Some(at), Some(at + 1)), pullRequest, request, number)
  {
    var at := |History(events)|;
    var completed := PullRequestNext(f, events, n, marks, pullRequest, number);
    more := RequestRound(f, completed, n + 1, marks.(pullRequest := Some(at)), pullRequest, request, number);
  }

  lemma RoundFindsRequest(f: Facts, events: seq<Event>, n: nat, marks: Marks,
                          pullRequest: Payload, request: Payload, number: int)
    requires InRound(f, events, n, marks, pullRequest, request, number)
    ensures FindsRequest(AttemptOf(f, History(events)), f)
  {
    MarkIsFound(History(events), marks.pullRequest.value, COMPLETED);
    MarkIsFound(History(events), marks.request.value, IsIdentifiedDeployRequest);
  }

  lemma MergeNext(f: Facts, events: seq<Event>, n: nat, marks: Marks,
                  pullRequest: Payload, request: Payload, number: int, receipt: Payload)
    returns (more: seq<Event>)
    requires InRound(f, events, n, marks, pullRequest, request, number) && IsMergeReceipt(f, receipt)
    ensures History(more) == History(events) + [Recorded(ResultOf(f, Id(n), DevMergeCheck, receipt))]
    ensures InState(f, more, n + 1, marks.(merge := Some(|History(events)|)))
  {
    RoundFindsRequest(f, events, n, marks, pullRequest, request, number);
    RecordsMerge(f, AttemptOf(f, History(events)), Id(n), receipt);
    more := StateAfter(f, events, n, marks, DevMergeCheck, receipt);
  }

  lemma DeployNext(f: Facts, events: seq<Event>, n: nat, marks: Marks,
                   pullRequest: Payload, request: Payload, number: int, merge: Payload, receipt: Payload)
    returns (more: seq<Event>)
    requires InRound(f, events, n, marks, pullRequest, request, number) && IsDeployReceipt(receipt)
    requires Carries(f, History(events), marks.merge, DevMergeCheck, merge)
    ensures ReadsAll(more)
    ensures History(more) == History(events) + [Recorded(ResultOf(f, Id(n), Deploy, receipt))]
  {
    RoundFindsRequest(f, events, n, marks, pullRequest, request, number);
    MarkIsFound(History(events), marks.merge.value, MERGED);
    RecordsDeploy(f, AttemptOf(f, History(events)), Id(n), receipt);
    more := StateAfter(f, events, n, marks, Deploy, receipt);
  }

  // --- receipts ---

  /** One receipt of each kind; the two pull requests differ in nothing but their numbers. */
  datatype Receipts = Receipts(
    firstPr: Payload, firstRequest: Payload, merge: Payload, secondPr: Payload, secondRequest: Payload, deploy: Payload)

  ghost predicate ReceiptsAreValid(f: Facts, r: Receipts, first: int, second: int) {
    && IsPullRequestReceipt(f, r.firstPr, first) && IsRequestReceipt(f, r.firstRequest, first)
    && IsMergeReceipt(f, r.merge)
    && IsPullRequestReceipt(f, r.secondPr, second) && IsRequestReceipt(f, r.secondRequest, second)
    && IsDeployReceipt(r.deploy)
  }

  lemma PullRequestReceipts(number: int) returns (f: Facts, p: Payload)
    requires number >= 1
    ensures f == Facts("x", 1, "x", "x", "x", "x") && IsPullRequestReceipt(f, p, number)
  {
    var x := Text("x");
    f := Facts("x", 1, "x", "x", "x", "x");
    p := map["repository" := Text("backend"), "base" := Text("dev"), "prNumber" := Number(number),
             "candidateSha" := x, "validationHash" := x, "head" := x, "headSha" := x, "prUrl" := x,
             "state" := Text("OPEN"), "authorLogin" := x, "reused" := Flag(false)];
  }

  lemma RequestReceipts(number: int) returns (f: Facts, p: Payload)
    ensures f == Facts("x", 1, "x", "x", "x", "x") && IsRequestReceipt(f, p, number)
  {
    var x := Text("x");
    f := Facts("x", 1, "x", "x", "x", "x");
    p := map["deploymentRequestId" := x, "jobId" := x, "pipelineAttempt" := Number(1), "repository" := Text("backend"),
             "prNumber" := Number(number), "candidateSha" := x, "sourceValidationHash" := x, "adapterKey" := Other,
             "targetKey" := Other, "configDigest" := Other, "status" := Other];
  }

  lemma OtherReceipts() returns (f: Facts, merge: Payload, deploy: Payload)
    ensures f == Facts("x", 1, "x", "x", "x", "x") && IsMergeReceipt(f, merge) && IsDeployReceipt(deploy)
  {
    var x := Text("x");
    f := Facts("x", 1, "x", "x", "x", "x");
    merge := map["status" := Text("MERGED"), "candidateSha" := x, "head" := x, "headSha" := x, "mergeSha" := x];
    deploy := map["deploymentRequestId" := x, "deploymentExecutionId" := x, "mergeSha" := x];
  }

  /** There are such receipts for any two numbers. */
  lemma ReceiptsExist(first: int, second: int) returns (f: Facts, r: Receipts)
    requires first >= 1 && second >= 1
    ensures ReceiptsAreValid(f, r, first, second)
  {
    var firstPr, secondPr, firstRequest, secondRequest, merge, deploy;
    f, firstPr := PullRequestReceipts(first);
    f, secondPr := PullRequestReceipts(second);
    f, firstRequest := RequestReceipts(first);
    f, secondRequest := RequestReceipts(second);
    f, merge, deploy := OtherReceipts();
    r := Receipts(firstPr, firstRequest, merge, secondPr, secondRequest, deploy);
  }

  // --- the history ---

  lemma FirstRound(f: Facts, r: Receipts, first: int, second: int) returns (events: seq<Event>)
    requires ReceiptsAreValid(f, r, first, second)
    ensures InRound(f, events, 6, Marks(None, Some(6), Some(7)), r.firstPr, r.firstRequest, first)
    ensures |History(events)| == 9
  {
    var begun := Begun(f);
    events := RoundNext(f, begun, 4, NOTHING, r.firstPr, r.firstRequest, first);
  }

  /** Everything up to the merge check, which is about the first pull request. */
  lemma MergedHistory(f: Facts, r: Receipts, first: int, second: int) returns (events: seq<Event>)
    requires ReceiptsAreValid(f, r, first, second)
    ensures InState(f, events, 7, Marks(Some(9), Some(6), Some(7))) && |History(events)| == 10
    ensures Carries(f, History(events), Some(9), DevMergeCheck, r.merge)
    ensures Carries(f, History(events), Some(6), PrComplete, r.firstPr)
    ensures LastAt(History(events), 9, COMPLETED) == Some(6)
  {
    var requested := FirstRound(f, r, first, second);
    var log, marks := History(requested), Marks(None, Some(6), Some(7));
    events := MergeNext(f, requested, 6, marks, r.firstPr, r.firstRequest, first, r.merge);
    CarriesOn(f, log, History(events), Some(6), PrComplete, r.firstPr);
    LastAtPrefix(log, [Recorded(ResultOf(f, Id(6), DevMergeCheck, r.merge))], 9, COMPLETED);
  }

  /** The second round and the deployment. */
  lemma DeployedHistory(f: Facts, r: Receipts, first: int, second: int) returns (events: seq<Event>)
    requires ReceiptsAreValid(f, r, first, second)
    ensures ReadsAll(events) && |History(events)| == 14
    ensures History(events)[13].Recorded? && History(events)[13].result.key == Deploy
    ensures Stands(History(events), 13, 9, 6, 10)
    ensures Carries(f, History(events), Some(6), PrComplete, r.firstPr)
    ensures Carries(f, History(events), Some(10), PrComplete, r.secondPr)
  {
    var merged := MergedHistory(f, r, first, second);
    var marks := Marks(Some(9), Some(10), Some(11));
    var requested := RoundNext(f, merged, 7, Marks(Some(9), Some(6), Some(7)), r.secondPr, r.secondRequest, second);
    assert History(requested)[9] == History(merged)[9];
    events := DeployNext(f, requested, 9, marks, r.secondPr, r.secondRequest, second, r.merge, r.deploy);
    StandsStill(History(merged), History(requested), History(events));
  }

  lemma StandsStill(merged: Log, requested: Log, log: Log)
    requires |merged| == 10 && |requested| == 13 && merged <= requested <= log
    requires LastAt(merged, 9, COMPLETED) == Some(6) && Marked(requested, Marks(Some(9), Some(10), Some(11)))
    ensures Stands(log, 13, 9, 6, 10)
  {
    assert log == requested + log[13..] && log == merged + log[10..];
    LastAtPrefix(requested, log[13..], 13, MERGED);
    LastAtPrefix(requested, log[13..], 13, COMPLETED);
    LastAtPrefix(merged, log[10..], 9, COMPLETED);
  }

  /**
   Whatever one candidate's receipts carry, and whichever two numbers they name, there is a history of
   up-to-date reads that deploys the pull request with the second number, although its last merge
   check was about the pull request with the first.
   */
  lemma AnotherIsDeployed(f: Facts, r: Receipts, first: int, second: int) returns (events: seq<Event>)
    requires ReceiptsAreValid(f, r, first, second)
    ensures var log := History(events);
      && ReadsAll(events) && |log| == 14 && log[13].Recorded? && log[13].result.key == Deploy
      && Stands(log, 13, 9, 6, 10)
      && log[6].result.payload == r.firstPr && Get(r.firstPr, "prNumber") == Number(first)
      && log[10].result.payload == r.secondPr && Get(r.secondPr, "prNumber") == Number(second)
  {
    events := DeployedHistory(f, r, first, second);
  }

  /** So the checked pull request can be overtaken by any other. */
  lemma CheckedIsOvertaken(first: int, second: int) returns (events: seq<Event>)
    requires first >= 1 && second >= 1 && first != second
    ensures var log := History(events);
      && ReadsAll(events) && |log| == 14 && log[13].Recorded? && log[13].result.key == Deploy
      && Stands(log, 13, 9, 6, 10) && IsOvertaken(log, 13, 9, 6)
      && !SameNumber(log[10].result, log[6].result)
  {
    var f, r := ReceiptsExist(first, second);
    events := AnotherIsDeployed(f, r, first, second);
  }
}
