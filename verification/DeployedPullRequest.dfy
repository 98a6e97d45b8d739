/**
 Whether the pull request that is deployed is the one that was seen merged. A deployment compares the
 candidate of the merge receipt only, so it need not be: two pull requests of one candidate can stand
 behind it. With up-to-date reads they are the same exactly when the last pull request completed after
 the merge check, if there is one, is the one that was checked.
 */
module DeployedPullRequest {
  import opened Wrappers
  import opened CodingStages
  import opened CodingProvenance

  // --- the latest entries of a log ---

  /** The last place before n with a result that satisfies a condition. */
  function LastAt(log: Log, n: nat, wanted: StageResult -> bool): (at: Option<nat>)
    requires n <= |log|
    ensures at.Some? ==> at.value < n && log[at.value].Recorded? && wanted(log[at.value].result)
    ensures at.Some? ==> forall i | at.value < i < n && log[i].Recorded? :: !wanted(log[i].result)
    ensures at == None ==> forall i | 0 <= i < n && log[i].Recorded? :: !wanted(log[i].result)
  {
    if n == 0 then None
    else if log[n - 1].Recorded? && wanted(log[n - 1].result) then Some(n - 1)
    else LastAt(log, n - 1, wanted)
  }

  /** What a handler with an up-to-date read finds is the result at that place. */
  lemma {:induction false} LatestIsLast(log: Log, n: nat, wanted: StageResult -> bool)
    requires n <= |log|
    ensures Latest(ResultsOf(log[..n]), wanted)
      == match LastAt(log, n, wanted) case None => None case Some(at) => Some(log[at].result)
    decreases n
  {
    if n > 0 {
      var front, last := ResultsOf(log[..n - 1]), log[n - 1];
      LatestIsLast(log, n - 1, wanted);
      assert log[..n][..n - 1] == log[..n - 1];
      if last.Recorded? {
        assert (front + [last.result])[..|front|] == front;
      } else {
        assert front + [] == front;
      }
    }
  }

  // --- histories of up-to-date reads ---

  /** Every stage handler reads all results that are recorded when it runs. */
  ghost predicate ReadsAll(events: seq<Event>) {
    forall k | 0 <= k < |events| && events[k].RunStage? :: events[k].resultsSeen >= |History(events[..k])|
  }

  /** The result at a place met its stage's demands on everything before it. */
  ghost predicate IsGrounded(log: Log, n: nat)
    requires n < |log| && log[n].Recorded?
  {
    exists a: Attempt :: a.results == ResultsOf(log[..n]) && Meets(a, log[n].result)
  }

  /** The demands of the result's stage are met, and the result repeats the subject it is bound to. */
  ghost predicate Meets(a: Attempt, r: StageResult) {
    var subject := RequiredSubject(r.key, a);
    subject.Ok? && (subject.value.Some? ==> HasSubject(r, subject.value.value))
  }

  ghost predicate AllGrounded(log: Log) {
    forall n | 0 <= n < |log| && log[n].Recorded? :: IsGrounded(log, n)
  }

  /** One more event leaves what was recorded grounded, and what it records itself. */
  lemma EventIsGrounded(before: Log, e: Event)
    requires AllGrounded(before) && (e.RunStage? ==> e.resultsSeen >= |before|)
    ensures AllGrounded(Apply(before, e))
  {
    var after := Apply(before, e);
    forall n | 0 <= n < |after| && after[n].Recorded? ensures IsGrounded(after, n) {
      if n < |before| {
        assert after[..n] == before[..n] && after[n] == before[n];
        assert IsGrounded(before, n);
      } else {
        assert after[..n] == before;
        assert Seen(before, e.resultsSeen) == before;
        assert Meets(AttemptSeen(before, e), after[n].result);
      }
    }
  }

  lemma {:induction false} HistoryIsGrounded(events: seq<Event>)
    requires ReadsAll(events)
    ensures AllGrounded(History(events))
    decreases |events|
  {
    if events != [] {
      var front, e := events[..|events| - 1], events[|events| - 1];
      forall k | 0 <= k < |front| && front[k].RunStage? ensures front[k].resultsSeen >= |History(front[..k])| {
        assert front[..k] == events[..k];
      }
      HistoryIsGrounded(front);
      assert e.RunStage? ==> e.resultsSeen >= |History(front)|;
      EventIsGrounded(History(front), e);
    }
  }

  // --- the checked and the deployed pull request ---

  const COMPLETED := Leaving(PrComplete, "completed")
  const MERGED := Leaving(DevMergeCheck, "merged")

  predicate SameNumber(a: StageResult, b: StageResult) {
    && Get(a.payload, "repository") == Get(b.payload, "repository")
    && Get(a.payload, "prNumber") == Get(b.payload, "prNumber")
  }

  /** At a place of the log: the last merge check, the pull request it was about, and the last one completed. */
  ghost predicate Stands(log: Log, n: nat, merge: nat, checked: nat, deployed: nat)
    requires n <= |log|
  {
    && LastAt(log, n, MERGED) == Some(merge)
    && LastAt(log, merge, COMPLETED) == Some(checked)
    && LastAt(log, n, COMPLETED) == Some(deployed)
  }

  /** The last deploy request before a place names the pull request and its candidate. */
  ghost predicate IsRequested(log: Log, n: nat, pullRequest: nat)
    requires pullRequest < n <= |log| && log[pullRequest].Recorded?
  {
    var request := LastAt(log, n, IsIdentifiedDeployRequest);
    request.Some? && SamePullRequest(log[pullRequest].result, log[request.value].result)
  }

  /** A merge check or a deployment is about the latest pull request, and the latest deploy request names it. */
  lemma MeetsPullRequest(a: Attempt, r: StageResult)
    requires Meets(a, r) && r.key in {DevMergeCheck, Deploy}
    ensures var pullRequest, request := Latest(a.results, COMPLETED), Latest(a.results, IsIdentifiedDeployRequest);
      && pullRequest.Some? && request.Some? && SamePullRequest(pullRequest.value, request.value)
      && r.candidate == pullRequest.value.candidate
  {
  }

  /** What an up-to-date merge check or deployment found. */
  lemma FoundRequest(log: Log, n: nat) returns (pullRequest: nat)
    requires n < |log| && log[n].Recorded? && IsGrounded(log, n) && log[n].result.key in {DevMergeCheck, Deploy}
    ensures LastAt(log, n, COMPLETED) == Some(pullRequest) && IsRequested(log, n, pullRequest)
    ensures log[n].result.candidate == log[pullRequest].result.candidate
  {
    var a: Attempt :| a.results == ResultsOf(log[..n]) && Meets(a, log[n].result);
    MeetsPullRequest(a, log[n].result);
    LatestIsLast(log, n, COMPLETED);
    LatestIsLast(log, n, IsIdentifiedDeployRequest);
    pullRequest := LastAt(log, n, COMPLETED).value;
  }

  lemma FoundMerge(log: Log, n: nat) returns (merge: nat)
    requires n < |log| && log[n].Recorded? && IsGrounded(log, n) && log[n].result.key == Deploy
    ensures LastAt(log, n, MERGED) == Some(merge)
  {
    LatestIsLast(log, n, MERGED);
    merge := LastAt(log, n, MERGED).value;
  }

  /** Another pull request than the checked one is the last to complete between the merge check and a place. */
  ghost predicate IsOvertaken(log: Log, n: nat, merge: nat, checked: nat)
    requires checked < merge < n <= |log| && log[checked].Recorded?
  {
    exists k :: merge < k < n && LastAt(log, n, COMPLETED) == Some(k) && !SameNumber(log[k].result, log[checked].result)
  }

  /** The last pull request either completed before the merge check, or overtook the checked one, or names it. */
  lemma SameUnlessOvertaken(log: Log, n: nat, merge: nat, checked: nat, deployed: nat)
    requires merge < n <= |log| && Stands(log, n, merge, checked, deployed)
    ensures SameNumber(log[deployed].result, log[checked].result) <==> !IsOvertaken(log, n, merge, checked)
  {
    if deployed < merge {
      assert deployed == checked;
    }
  }

  /**
   In every history of up-to-date reads a deployment is requested for the last completed pull request,
   the last merge check was about the last one completed before it, and these are the same pull
   request if and only if none with another number completed last after the merge check.
   */
  lemma DeploysCheckedPullRequest(events: seq<Event>, n: nat) returns (merge: nat, checked: nat, deployed: nat)
    requires ReadsAll(events)
    requires n < |History(events)| && History(events)[n].Recorded? && History(events)[n].result.key == Deploy
    ensures var log := History(events);
      && Stands(log, n, merge, checked, deployed)
      && IsRequested(log, n, deployed) && IsRequested(log, merge, checked)
      && log[n].result.candidate == log[deployed].result.candidate
      && log[merge].result.candidate == log[checked].result.candidate
      && (SameNumber(log[deployed].result, log[checked].result) <==> !IsOvertaken(log, n, merge, checked))
  {
    var log := History(events);
    HistoryIsGrounded(events);
    assert IsGrounded(log, n);
    deployed := FoundRequest(log, n);
    merge := FoundMerge(log, n);
    assert IsGrounded(log, merge);
    checked := FoundRequest(log, merge);
    SameUnlessOvertaken(log, n, merge, checked, deployed);
  }

  ghost predicate CompletedFor(log: Log, i: nat, candidate: string) {
    ResultAt(log, i, PrComplete, "completed", candidate)
  }

  /** All pull requests completed for a candidate are the same one. */
  ghost predicate OneNumberFor(log: Log, candidate: string) {
    forall i: nat, j: nat | CompletedFor(log, i, candidate) && CompletedFor(log, j, candidate) ::
      SameNumber(log[i].result, log[j].result)
  }

  /** Whatever its handlers read: where a candidate has one pull request, the checked one is deployed. */
  lemma OneNumberIsDeployed(events: seq<Event>, n: nat)
    returns (deployed: Subject, proposed: Subject, requested: Subject, c: Chain)
    requires n < |History(events)| && History(events)[n].Recorded? && History(events)[n].result.key == Deploy
    ensures Supports(History(events), n, deployed, proposed, requested, c)
    ensures OneNumberFor(History(events), deployed.0) ==>
      SameNumber(History(events)[c.prComplete].result, History(events)[c.deployedPr].result)
  {
    deployed, proposed, requested, c := DeploymentProvenance(events, n);
    assert CompletedFor(History(events), c.prComplete, deployed.0);
    assert CompletedFor(History(events), c.deployedPr, deployed.0);
  }
}
