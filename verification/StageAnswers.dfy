/**
 When a coding stage succeeds, what it records and by which port its node leaves: told stage by stage
 from the latest results and decisions that it read and from what its executor reported.
 */
module StageAnswers {
  import opened Wrappers
  import opened CodingStages
  import opened CodingProvenance

  // --- the latest of a list ---

  ghost predicate LatestAt<T>(items: seq<T>, wanted: T -> bool, i: int) {
    0 <= i < |items| && wanted(items[i]) && forall j | i < j < |items| :: !wanted(items[j])
  }

  /** The last item that satisfies a condition. */
  ghost predicate IsLatest<T>(items: seq<T>, wanted: T -> bool, item: T) {
    exists i :: LatestAt(items, wanted, i) && items[i] == item
  }

  ghost predicate IsAny<T>(items: seq<T>, wanted: T -> bool) {
    exists item :: item in items && wanted(item)
  }

  lemma {:induction false} LatestIsLast<T>(items: seq<T>, wanted: T -> bool, item: T)
    ensures Latest(items, wanted) == Some(item) <==> IsLatest(items, wanted, item)
    decreases |items|
  {
    if items != [] {
      var front, last := items[..|items| - 1], items[|items| - 1];
      assert items == front + [last];
      if wanted(last) {
        assert LatestAt(items, wanted, |items| - 1);
      } else {
        LatestIsLast(front, wanted, item);
        if i :| LatestAt(front, wanted, i) && front[i] == item {
          assert LatestAt(items, wanted, i) && items[i] == item;
        }
        if i :| LatestAt(items, wanted, i) && items[i] == item {
          assert LatestAt(front, wanted, i) && front[i] == item;
        }
      }
    }
  }

  lemma LatestIsAny<T>(items: seq<T>, wanted: T -> bool)
    ensures Latest(items, wanted).Some? <==> IsAny(items, wanted)
  {
  }

  // --- what stages look for ---

  predicate IsCoded(r: StageResult) {
    r.key == Code
  }

  predicate IsReviewed(r: StageResult) {
    r.key == Review
  }

  predicate IsPreviewed(r: StageResult) {
    r.key == Preview && r.kind == Diff && r.port == "ready"
  }

  predicate IsProposed(r: StageResult) {
    r.key == PrRequest && r.kind == PullRequest && r.port == "requested"
  }

  predicate IsCompleted(r: StageResult) {
    r.key == PrComplete && r.kind == PullRequest && r.port == "completed"
  }

  predicate IsMerged(r: StageResult) {
    r.key == DevMergeCheck && r.kind == DevMerge && r.port == "merged"
  }

  predicate IsRequested(r: StageResult) {
    && r.key == DeployRequest && r.kind == DeploymentRequest && r.port == "recorded"
    && "deploymentRequestId" in r.payload && r.payload["deploymentRequestId"].Text?
  }

  /** The latest result of this kind has this subject. */
  ghost predicate Finds(a: Attempt, wanted: StageResult -> bool, subject: Subject) {
    exists r :: IsLatest(a.results, wanted, r) && HasSubject(r, subject)
  }

  /** The latest decision of the stage approves exactly this subject. */
  ghost predicate Approves(a: Attempt, stage: ApprovalStage, subject: Subject) {
    exists d :: IsLatest(a.decisions, (d: Decision) => d.stage == stage, d)
      && d.approved && d.candidate == Some(subject.0) && d.validation == Some(subject.1)
  }

  predicate Repeats(o: Outcome, subject: Subject) {
    o.candidate == Some(subject.0) && o.validation == Some(subject.1)
  }

  predicate IsRepository(payload: Payload) {
    "repository" in payload && payload["repository"] in {Text("backend"), Text("frontend")}
  }

  /** A field of one payload is that of another, absent counting as null. */
  predicate SameField(p: Payload, q: Payload, name: string) {
    (if name in p then p[name] else Nil) == (if name in q then q[name] else Nil)
  }

  /** The latest pull request and the latest deploy request, which name one pull request and candidate. */
  ghost predicate FindsPair(a: Attempt, pullRequest: StageResult, request: StageResult) {
    && IsLatest(a.results, IsCompleted, pullRequest) && IsLatest(a.results, IsRequested, request)
    && IsRepository(pullRequest.payload) && IsRepository(request.payload)
    && pullRequest.candidate == request.candidate
    && SameField(pullRequest.payload, request.payload, "repository")
    && SameField(pullRequest.payload, request.payload, "prNumber")
  }

  // --- what each stage demands of the attempt and of its executor's subject ---

  ghost predicate ReviewDemands(a: Attempt, o: Outcome) {
    exists code :: IsLatest(a.results, IsCoded, code)
      && code.kind == Candidate && code.port == "completed" && code.candidate.Some? && o.candidate == code.candidate
  }

  ghost predicate PreviewDemands(a: Attempt, o: Outcome) {
    exists code, review :: IsLatest(a.results, IsCoded, code) && IsLatest(a.results, IsReviewed, review)
      && code.kind == Candidate && code.port == "completed" && code.candidate.Some?
      && review.kind == Reviewed && review.port == "passed" && review.candidate == code.candidate
      && o.candidate == code.candidate
  }

  ghost predicate PrRequestDemands(a: Attempt, o: Outcome) {
    exists subject :: Finds(a, IsPreviewed, subject) && Approves(a, CANDIDATE, subject) && Repeats(o, subject)
  }

  ghost predicate PrCompleteDemands(a: Attempt, o: Outcome) {
    exists subject :: Finds(a, IsProposed, subject) && Approves(a, GITHUB, subject) && Repeats(o, subject)
  }

  ghost predicate MergeDemands(a: Attempt, o: Outcome) {
    exists pullRequest, request, subject, deployed: Subject :: FindsPair(a, pullRequest, request)
      && HasSubject(request, deployed) && Approves(a, DEPLOY, deployed)
      && HasSubject(pullRequest, subject) && Repeats(o, subject)
  }

  ghost predicate RequestAfterPrDemands(a: Attempt, o: Outcome) {
    exists pullRequest, subject: Subject :: IsLatest(a.results, IsCompleted, pullRequest)
      && IsRepository(pullRequest.payload) && HasSubject(pullRequest, subject) && Approves(a, GITHUB, subject)
      && o.candidate == Some(subject.0)
  }

  ghost predicate RequestOnPreviewDemands(a: Attempt, o: Outcome) {
    exists subject :: Finds(a, IsPreviewed, subject) && Approves(a, DEPLOY, subject) && Repeats(o, subject)
      && (IsAny(a.results, IsRequested) ==> Finds(a, IsRequested, subject))
  }

  ghost predicate DeployDemands(a: Attempt, o: Outcome) {
    exists pullRequest, request, subject, merged: Subject :: FindsPair(a, pullRequest, request)
      && HasSubject(request, subject) && Approves(a, DEPLOY, subject) && Repeats(o, subject)
      && Finds(a, IsMerged, merged) && merged.0 == subject.0
  }

  ghost predicate Demands(key: StageKey, a: Attempt, o: Outcome) {
    match key
    case Analyze => true
    case Code => true
    case Review => ReviewDemands(a, o)
    case Preview => PreviewDemands(a, o)
    case PrRequest => PrRequestDemands(a, o)
    case PrComplete => PrCompleteDemands(a, o)
    case DevMergeCheck => MergeDemands(a, o)
    case DeployRequest =>
      if IsAny(a.results, IsCompleted) then RequestAfterPrDemands(a, o) else RequestOnPreviewDemands(a, o)
    case Deploy => DeployDemands(a, o)
  }

  /** What the handler demands, as it computes it. */
  predicate Required(key: StageKey, a: Attempt, o: Outcome) {
    var subject, candidate := RequiredSubject(key, a), RequiredCandidate(key, a);
    && subject.Ok? && candidate.Ok?
    && (subject.value.Some? ==> Repeats(o, subject.value.value))
    && (candidate.value.Some? ==> o.candidate == candidate.value)
  }

  lemma LatestAgrees<T>(items: seq<T>, f: T -> bool, g: T -> bool)
    requires forall item | item in items :: f(item) == g(item)
    ensures Latest(items, f) == Latest(items, g)
  {
  }

  // --- the handler demands exactly that ---

  lemma FoundSubject(a: Attempt, wanted: StageResult -> bool, subject: Subject)
    ensures Finds(a, wanted, subject)
      <==> Latest(a.results, wanted).Some? && HasSubject(Latest(a.results, wanted).value, subject)
  {
    if Latest(a.results, wanted).Some? {
      LatestIsLast(a.results, wanted, Latest(a.results, wanted).value);
    }
    if r :| IsLatest(a.results, wanted, r) && HasSubject(r, subject) {
      LatestIsLast(a.results, wanted, r);
    }
  }

  lemma ApprovesAgrees(a: Attempt, stage: ApprovalStage, subject: Subject)
    ensures Approves(a, stage, subject) <==> IsApproved(a, stage, subject)
  {
    var wanted := (d: Decision) => d.stage == stage;
    var latest := Latest(a.decisions, wanted);
    if latest.Some? {
      LatestIsLast(a.decisions, wanted, latest.value);
    }
    if Approves(a, stage, subject) {
      var d :| IsLatest(a.decisions, (d: Decision) => d.stage == stage, d)
        && d.approved && d.candidate == Some(subject.0) && d.validation == Some(subject.1);
      LatestIsLast(a.decisions, (d: Decision) => d.stage == stage, d);
    }
  }

  /** The subject that a latest result must carry. */
  lemma SubjectIsFound(a: Attempt, key: StageKey, port: string, wanted: StageResult -> bool, subject: Subject)
    requires forall r :: wanted(r) == Is(r, key, KindOf(key), port)
    ensures LatestSubject(a, key, port) == Ok(subject) <==> Finds(a, wanted, subject)
  {
    FoundSubject(a, wanted, subject);
    LatestAgrees(a.results, wanted, Leaving(key, port));
  }

  lemma ReviewIsExact(a: Attempt, o: Outcome)
    ensures Required(Review, a, o) <==> ReviewDemands(a, o)
  {
    LatestAgrees(a.results, IsCoded, (r: StageResult) => r.key == Code);
    if Latest(a.results, IsCoded).Some? {
      LatestIsLast(a.results, IsCoded, Latest(a.results, IsCoded).value);
    }
    if ReviewDemands(a, o) {
      var code :| IsLatest(a.results, IsCoded, code)
        && code.kind == Candidate && code.port == "completed" && code.candidate.Some? && o.candidate == code.candidate;
      LatestIsLast(a.results, IsCoded, code);
    }
  }

  lemma PreviewIsExact(a: Attempt, o: Outcome)
    ensures Required(Preview, a, o) <==> PreviewDemands(a, o)
  {
    LatestAgrees(a.results, IsCoded, (r: StageResult) => r.key == Code);
    LatestAgrees(a.results, IsReviewed, (r: StageResult) => r.key == Review);
    if Latest(a.results, IsCoded).Some? && Latest(a.results, IsReviewed).Some? {
      LatestIsLast(a.results, IsCoded, Latest(a.results, IsCoded).value);
      LatestIsLast(a.results, IsReviewed, Latest(a.results, IsReviewed).value);
    }
    if PreviewDemands(a, o) {
      var code, review :| IsLatest(a.results, IsCoded, code) && IsLatest(a.results, IsReviewed, review)
        && code.kind == Candidate && code.port == "completed" && code.candidate.Some?
        && review.kind == Reviewed && review.port == "passed" && review.candidate == code.candidate
        && o.candidate == code.candidate;
      LatestIsLast(a.results, IsCoded, code);
      LatestIsLast(a.results, IsReviewed, review);
    }
  }

  lemma PrRequestIsExact(a: Attempt, o: Outcome)
    ensures Required(PrRequest, a, o) <==> PrRequestDemands(a, o)
  {
    forall subject ensures LatestSubject(a, Preview, "ready") == Ok(subject) <==> Finds(a, IsPreviewed, subject) {
      SubjectIsFound(a, Preview, "ready", IsPreviewed, subject);
    }
    forall subject ensures Approves(a, CANDIDATE, subject) <==> IsApproved(a, CANDIDATE, subject) {
      ApprovesAgrees(a, CANDIDATE, subject);
    }
  }

  lemma PrCompleteIsExact(a: Attempt, o: Outcome)
    ensures Required(PrComplete, a, o) <==> PrCompleteDemands(a, o)
  {
    forall subject ensures LatestSubject(a, PrRequest, "requested") == Ok(subject) <==> Finds(a, IsProposed, subject) {
      SubjectIsFound(a, PrRequest, "requested", IsProposed, subject);
    }
    forall subject ensures Approves(a, GITHUB, subject) <==> IsApproved(a, GITHUB, subject) {
      ApprovesAgrees(a, GITHUB, subject);
    }
  }

  /** The pull request and the deploy request that a stage compares. */
  lemma PairIsExact(a: Attempt, pullRequest: StageResult, request: StageResult)
    ensures FindsPair(a, pullRequest, request) <==>
      && LatestResult(a, PrComplete, "completed") == Ok(pullRequest) && LatestDeployRequest(a) == Ok(request)
      && SamePullRequest(pullRequest, request)
  {
    LatestAgrees(a.results, IsCompleted, Leaving(PrComplete, "completed"));
    LatestAgrees(a.results, IsRequested, IsIdentifiedDeployRequest);
    LatestIsLast(a.results, IsCompleted, pullRequest);
    LatestIsLast(a.results, IsRequested, request);
  }

  lemma MergeIsExact(a: Attempt, o: Outcome)
    ensures Required(DevMergeCheck, a, o) <==> MergeDemands(a, o)
  {
    forall p, q ensures FindsPair(a, p, q) <==>
      LatestResult(a, PrComplete, "completed") == Ok(p) && LatestDeployRequest(a) == Ok(q) && SamePullRequest(p, q)
    {
      PairIsExact(a, p, q);
    }
    forall subject ensures Approves(a, DEPLOY, subject) <==> IsApproved(a, DEPLOY, subject) {
      ApprovesAgrees(a, DEPLOY, subject);
    }
  }

  /** What a deployment looks up: the compared pair, the approved subject and the merged one. */
  ghost predicate DeployLookups(a: Attempt, p: StageResult, q: StageResult, subject: Subject, merged: Subject) {
    && LatestResult(a, PrComplete, "completed") == Ok(p) && LatestDeployRequest(a) == Ok(q) && SamePullRequest(p, q)
    && HasSubject(q, subject) && IsApproved(a, DEPLOY, subject)
    && LatestSubject(a, DevMergeCheck, "merged") == Ok(merged) && merged.0 == subject.0
  }

  lemma DeployLooksUp(a: Attempt, o: Outcome)
    ensures Required(Deploy, a, o)
      <==> exists p, q, subject, merged :: DeployLookups(a, p, q, subject, merged) && Repeats(o, subject)
  {
    if Required(Deploy, a, o) {
      var p, q := LatestResult(a, PrComplete, "completed").value, LatestDeployRequest(a).value;
      var subject := SubjectOf(q.candidate, q.validation).value;
      var merged := LatestSubject(a, DevMergeCheck, "merged").value;
      assert DeployLookups(a, p, q, subject, merged) && Repeats(o, subject);
    }
  }

  lemma LookupsAgree(a: Attempt, p: StageResult, q: StageResult, subject: Subject, merged: Subject)
    ensures DeployLookups(a, p, q, subject, merged) <==>
      && FindsPair(a, p, q) && HasSubject(q, subject) && Approves(a, DEPLOY, subject)
      && Finds(a, IsMerged, merged) && merged.0 == subject.0
  {
    PairIsExact(a, p, q);
    ApprovesAgrees(a, DEPLOY, subject);
    SubjectIsFound(a, DevMergeCheck, "merged", IsMerged, merged);
  }

  lemma DeployIsExact(a: Attempt, o: Outcome)
    ensures Required(Deploy, a, o) <==> DeployDemands(a, o)
  {
    DeployLooksUp(a, o);
    forall p, q, subject, merged
      ensures DeployLookups(a, p, q, subject, merged) <==>
        && FindsPair(a, p, q) && HasSubject(q, subject) && Approves(a, DEPLOY, subject)
        && Finds(a, IsMerged, merged) && merged.0 == subject.0
    {
      LookupsAgree(a, p, q, subject, merged);
    }
  }

  lemma AnyCompleted(a: Attempt)
    ensures IsAny(a.results, IsCompleted) <==> HasCompletedPullRequest(a)
    ensures IsAny(a.results, IsRequested) <==> HasIdentifiedDeployRequest(a)
  {
    if HasCompletedPullRequest(a) {
      var r :| r in a.results && Is(r, PrComplete, PullRequest, "completed");
      assert IsCompleted(r);
    }
    if IsAny(a.results, IsCompleted) {
      var r :| r in a.results && IsCompleted(r);
      assert Is(r, PrComplete, PullRequest, "completed");
    }
    if HasIdentifiedDeployRequest(a) {
      var r :| r in a.results && IsIdentifiedDeployRequest(r);
      assert IsRequested(r);
    }
    if IsAny(a.results, IsRequested) {
      var r :| r in a.results && IsRequested(r);
      assert IsIdentifiedDeployRequest(r);
    }
  }

  lemma RequestAfterPrIsDemanded(a: Attempt, o: Outcome)
    requires HasCompletedPullRequest(a) && Required(DeployRequest, a, o)
    ensures RequestAfterPrDemands(a, o)
  {
    var p := LatestResult(a, PrComplete, "completed").value;
    var subject := SubjectOf(p.candidate, p.validation).value;
    LatestAgrees(a.results, IsCompleted, Leaving(PrComplete, "completed"));
    LatestIsLast(a.results, IsCompleted, p);
    ApprovesAgrees(a, GITHUB, subject);
    assert HasSubject(p, subject);
  }

  lemma RequestAfterPrIsMet(a: Attempt, o: Outcome)
    requires HasCompletedPullRequest(a) && RequestAfterPrDemands(a, o)
    ensures Required(DeployRequest, a, o)
  {
    var p, subject: Subject :| IsLatest(a.results, IsCompleted, p)
      && IsRepository(p.payload) && HasSubject(p, subject) && Approves(a, GITHUB, subject)
      && o.candidate == Some(subject.0);
    LatestAgrees(a.results, IsCompleted, Leaving(PrComplete, "completed"));
    LatestIsLast(a.results, IsCompleted, p);
    ApprovesAgrees(a, GITHUB, subject);
  }

  lemma LatestRequestSubject(a: Attempt, subject: Subject)
    ensures LatestDeploySubject(a) == Ok(subject) <==> Finds(a, IsRequested, subject)
  {
    FoundSubject(a, IsRequested, subject);
    LatestAgrees(a.results, IsRequested, IsIdentifiedDeployRequest);
  }

  lemma RequestOnPreviewIsExact(a: Attempt, o: Outcome)
    requires !HasCompletedPullRequest(a)
    ensures Required(DeployRequest, a, o) <==> RequestOnPreviewDemands(a, o)
  {
    AnyCompleted(a);
    if Required(DeployRequest, a, o) {
      var subject := LatestPreviewSubject(a).value;
      SubjectIsFound(a, Preview, "ready", IsPreviewed, subject);
      ApprovesAgrees(a, DEPLOY, subject);
      LatestRequestSubject(a, subject);
    }
    if RequestOnPreviewDemands(a, o) {
      var subject :| Finds(a, IsPreviewed, subject) && Approves(a, DEPLOY, subject) && Repeats(o, subject)
        && (IsAny(a.results, IsRequested) ==> Finds(a, IsRequested, subject));
      SubjectIsFound(a, Preview, "ready", IsPreviewed, subject);
      ApprovesAgrees(a, DEPLOY, subject);
      LatestRequestSubject(a, subject);
    }
  }

  lemma RequestIsExact(a: Attempt, o: Outcome)
    ensures Required(DeployRequest, a, o) <==> Demands(DeployRequest, a, o)
  {
    AnyCompleted(a);
    if !HasCompletedPullRequest(a) {
      RequestOnPreviewIsExact(a, o);
    } else if Required(DeployRequest, a, o) {
      RequestAfterPrIsDemanded(a, o);
    } else if RequestAfterPrDemands(a, o) {
      RequestAfterPrIsMet(a, o);
    }
  }

  lemma DemandsAreExact(key: StageKey, a: Attempt, o: Outcome)
    ensures Required(key, a, o) <==> Demands(key, a, o)
  {
    match key
    case Analyze =>
    case Code =>
    case Review => ReviewIsExact(a, o);
    case Preview => PreviewIsExact(a, o);
    case PrRequest => PrRequestIsExact(a, o);
    case PrComplete => PrCompleteIsExact(a, o);
    case DevMergeCheck => MergeIsExact(a, o);
    case DeployRequest => RequestIsExact(a, o);
    case Deploy => DeployIsExact(a, o);
  }
}
