/**
 What holds of a natural CMS job over any sequence of deliveries, failures, resumes and recoveries:
 nothing is applied without its approval, and versions move with decisions only.
 */
module NaturalCmsRuns {
  import opened Wrappers
  import opened NaturalCms
  import opened NaturalCmsRunner
  import Identity

  datatype Delivery = Delivery(job: Job, digest: string, world: World)

  function EffectOf(thread: Option<Checkpoint>, d: Delivery): Effect {
    Deliver(thread, d.job, d.digest, d.world)
  }

  function ThreadAfter(run: seq<Delivery>): Option<Checkpoint> {
    if run == [] then None else EffectOf(ThreadAfter(run[..|run| - 1]), run[|run| - 1]).thread
  }

  function LogAfter(run: seq<Delivery>): seq<Entry> {
    if run == [] then []
    else LogAfter(run[..|run| - 1]) + EffectOf(ThreadAfter(run[..|run| - 1]), run[|run| - 1]).log
  }

  // --- nothing is applied without its approval ---

  /** The last entry that moved the thread on. */
  function LatestCompletion(log: seq<Entry>): Option<Entry> {
    if log == [] then None
    else if log[|log| - 1].Began? then LatestCompletion(log[..|log| - 1])
    else Some(log[|log| - 1])
  }

  /** The entry is an approval that saw a recorded APPROVED for exactly what the checkpoint carries. */
  predicate ApprovedFor(entry: Option<Entry>, cp: Checkpoint) {
    && entry.Some? && entry.value.Finished?
    && entry.value.node == Approval && entry.value.port == "approved"
    && entry.value.seen.Some?
    && var job := entry.value.seen.value;
    && job.decision == Some(Approve) && job.status == WaitingApproval && job.previewIsValid
    && job.preview.Some? && job.preview == CurrentSubject(cp.context)
    && MatchesBinding(job, cp.binding)
  }

  ghost predicate EntryIsSafe(log: seq<Entry>, i: nat)
    requires i < |log|
  {
    log[i].Began? && log[i].node == Apply ==> ApprovedFor(LatestCompletion(log[..i]), log[i].before)
  }

  ghost predicate LogIsSafe(log: seq<Entry>) {
    forall i | 0 <= i < |log| :: EntryIsSafe(log, i)
  }

  /** A thread about to apply has just been approved, and only approvals wait. */
  ghost predicate ThreadIsSafe(cp: Checkpoint, log: seq<Entry>) {
    && (cp.next == Some(Apply) ==> ApprovedFor(LatestCompletion(log), cp))
    && (cp.isWaiting ==> cp.next == Some(Approval))
  }

  lemma SafeAppends(log: seq<Entry>, entry: Entry)
    requires LogIsSafe(log)
    requires entry.Began? && entry.node == Apply ==> ApprovedFor(LatestCompletion(log), entry.before)
    ensures LogIsSafe(log + [entry])
    ensures LatestCompletion(log + [entry]) == if entry.Began? then LatestCompletion(log) else Some(entry)
  {
    var longer := log + [entry];
    assert longer[..|log|] == log;
    forall i | 0 <= i < |longer| ensures EntryIsSafe(longer, i) {
      if i < |log| {
        assert EntryIsSafe(log, i);
        assert longer[..i] == log[..i];
      }
    }
  }

  /** Only an approval leads to the apply stage, and only one that matched the checkpoint. */
  lemma ApplyFollowsApproval(cp: Checkpoint, reply: Reply)
    requires cp.next.Some? && AttemptNode(cp, reply).Done?
    ensures var attempted := AttemptNode(cp, reply);
      && !attempted.after.isWaiting
      && (attempted.after.next == Some(Apply) ==>
            ApprovedFor(Some(Finished(cp.next.value, cp, attempted.port, reply.job)), attempted.after))
  {
  }

  lemma AttemptStaysSafe(cp: Checkpoint, reply: Reply, log: seq<Entry>)
    requires cp.next.Some? && LogIsSafe(log) && ThreadIsSafe(cp, log)
    ensures LogIsSafe(log + EntriesOf(cp, reply))
    ensures ThreadIsSafe(AttemptNode(cp, reply).after, log + EntriesOf(cp, reply))
  {
    var began := Began(cp.next.value, cp);
    var attempted := AttemptNode(cp, reply);
    SafeAppends(log, began);
    if attempted.Done? {
      var finished := Finished(cp.next.value, cp, attempted.port, reply.job);
      SafeAppends(log + [began], finished);
      assert log + EntriesOf(cp, reply) == (log + [began]) + [finished];
      ApplyFollowsApproval(cp, reply);
    } else {
      assert log + EntriesOf(cp, reply) == log + [began];
      FailureKeepsPlace(cp, reply);
    }
  }

  /** An attempt that does not complete leaves the thread where it was; only an approval may wait. */
  lemma FailureKeepsPlace(cp: Checkpoint, reply: Reply)
    requires cp.next.Some? && !AttemptNode(cp, reply).Done?
    ensures var after := AttemptNode(cp, reply).after;
      after == cp || (cp.next == Some(Approval) && after == cp.(isWaiting := after.isWaiting))
  {
  }

  lemma {:induction false} RunStaysSafe(cp: Checkpoint, replies: seq<Reply>, log: seq<Entry>)
    requires LogIsSafe(log) && ThreadIsSafe(cp, log)
    ensures var run := RunNodes(cp, replies);
      LogIsSafe(log + run.log) && ThreadIsSafe(run.cp, log + run.log)
    decreases |replies|
  {
    if replies == [] || cp.next == None {
      assert log + [] == log;
    } else {
      var attempted, entries := AttemptNode(cp, replies[0]), EntriesOf(cp, replies[0]);
      AttemptStaysSafe(cp, replies[0], log);
      if attempted.Done? {
        RunStaysSafe(attempted.after, replies[1..], log + entries);
        var rest := RunNodes(attempted.after, replies[1..]);
        assert log + (entries + rest.log) == (log + entries) + rest.log;
      }
    }
  }

  /** The same, for a log whose latest entries are this delivery's. */
  lemma RunExtendsSafely(cp: Checkpoint, replies: seq<Reply>, log: seq<Entry>, added: seq<Entry>)
    requires LogIsSafe(log + added) && ThreadIsSafe(cp, log + added)
    ensures var run := RunNodes(cp, replies);
      LogIsSafe(log + (added + run.log)) && ThreadIsSafe(run.cp, log + (added + run.log))
  {
    RunStaysSafe(cp, replies, log + added);
    assert log + (added + RunNodes(cp, replies).log) == (log + added) + RunNodes(cp, replies).log;
  }

  lemma RecoveryStaysSafe(start: Checkpoint, job: Job, w: World, log: seq<Entry>)
    requires LogIsSafe(log) && start.next == Some(Approval)
    ensures var effect := RunRecovered(start, job, w);
      effect.thread.Some? && LogIsSafe(log + effect.log) && ThreadIsSafe(effect.thread.value, log + effect.log)
  {
    var entry := RecoveredPreview(start);
    var one := RunNodes(start, w.first);
    SafeAppends(log, entry);
    RunExtendsSafely(start, w.first, log, [entry]);
    SettlingStaysSafe(one.cp, job, w, log, [entry] + one.log);
  }

  lemma SettlingStaysSafe(cp: Checkpoint, job: Job, w: World, log: seq<Entry>, added: seq<Entry>)
    requires LogIsSafe(log + added) && ThreadIsSafe(cp, log + added)
    ensures var rest := Settled(cp, job, w);
      && rest.thread.Some? && LogIsSafe(log + (added + rest.log))
      && ThreadIsSafe(rest.thread.value, log + (added + rest.log))
  {
    if PhaseOf(cp) != PhaseRunning && job.decision.Some? {
      RunExtendsSafely(cp.(binding := Bind(job), isWaiting := false), w.second, log, added);
    } else {
      assert added + [] == added;
    }
  }

  ghost predicate StateIsSafe(thread: Option<Checkpoint>, log: seq<Entry>) {
    LogIsSafe(log) && (thread.Some? ==> ThreadIsSafe(thread.value, log))
  }

  lemma DeliveryStaysSafe(thread: Option<Checkpoint>, d: Delivery, log: seq<Entry>)
    requires StateIsSafe(thread, log)
    ensures StateIsSafe(EffectOf(thread, d).thread, log + EffectOf(thread, d).log)
  {
    assert log + [] == log;
    if IsTerminal(d.job) {
    } else if NeedsRecovery(thread, d.job, d.digest) {
      if CanRecover(d.job) && RoundOf(RecoveryBase(thread, d.job, d.digest), Preview) >= 1 {
        RecoveryStaysSafe(RecoveredThread(thread, d.job, d.digest), d.job, d.world, log);
      }
    } else {
      PlainDeliveryStaysSafe(thread, d, log);
    }
  }

  lemma PlainDeliveryStaysSafe(thread: Option<Checkpoint>, d: Delivery, log: seq<Entry>)
    requires StateIsSafe(thread, log) && !IsTerminal(d.job) && !NeedsRecovery(thread, d.job, d.digest)
    ensures StateIsSafe(EffectOf(thread, d).thread, log + EffectOf(thread, d).log)
  {
    assert log + [] == log;
    match thread
    case None =>
      RunStaysSafe(Checkpoint(Bind(d.job), d.digest, InitialContext(d.job, d.digest), Some(Start), false, 0),
                   d.world.first, log);
    case Some(cp) =>
      if SameIdentity(cp, d.job, d.digest) {
        if PhaseOf(cp) == PhaseWaiting {
          RunStaysSafe(cp.(binding := Bind(d.job), isWaiting := false), d.world.first, log);
        } else if PhaseOf(cp) == PhaseRunning && Retries(cp, d.job) {
          assert Bind(d.job) == cp.binding;
          RunStaysSafe(cp, d.world.first, log);
        }
      }
  }

  lemma {:induction false} RunsAreSafe(run: seq<Delivery>)
    ensures StateIsSafe(ThreadAfter(run), LogAfter(run))
    decreases |run|
  {
    if run != [] {
      RunsAreSafe(run[..|run| - 1]);
      DeliveryStaysSafe(ThreadAfter(run[..|run| - 1]), run[|run| - 1], LogAfter(run[..|run| - 1]));
    }
  }

  /**
   Apply safety: in every run, recoveries included, whenever the apply stage begins, the last thing
   that completed was an approval that saw APPROVED recorded for exactly the preview id and hash in
   the checkpoint, under the checkpoint's own state version and pipeline attempt.
   */
  lemma ApplyIsApproved(run: seq<Delivery>, i: nat)
    requires i < |LogAfter(run)| && LogAfter(run)[i].Began? && LogAfter(run)[i].node == Apply
    ensures ApprovedFor(LatestCompletion(LogAfter(run)[..i]), LogAfter(run)[i].before)
  {
    RunsAreSafe(run);
    assert EntryIsSafe(LogAfter(run), i);
  }

  // --- versions move with decisions ---

  /** The delivery resumes the waiting thread with a decision. */
  predicate IsDecision(thread: Option<Checkpoint>, d: Delivery) {
    && thread.Some? && SameIdentity(thread.value, d.job, d.digest)
    && PhaseOf(thread.value) == PhaseWaiting && Resumes(thread.value, d.job)
  }

  /** A decision that sends the job back for another attempt. */
  predicate IsNewAttempt(thread: Option<Checkpoint>, d: Delivery) {
    && IsDecision(thread, d) && d.job.decision == Some(Reject)
    && thread.value.binding.pipelineAttempt < MAX_ATTEMPTS
  }

  function Decisions(thread: Option<Checkpoint>, run: seq<Delivery>): nat
    decreases |run|
  {
    if run == [] then 0
    else (if IsDecision(thread, run[0]) then 1 else 0) + Decisions(EffectOf(thread, run[0]).thread, run[1..])
  }

  function NewAttempts(thread: Option<Checkpoint>, run: seq<Delivery>): nat
    decreases |run|
  {
    if run == [] then 0
    else (if IsNewAttempt(thread, run[0]) then 1 else 0) + NewAttempts(EffectOf(thread, run[0]).thread, run[1..])
  }

  function ThreadFrom(thread: Option<Checkpoint>, run: seq<Delivery>): Option<Checkpoint>
    decreases |run|
  {
    if run == [] then thread else ThreadFrom(EffectOf(thread, run[0]).thread, run[1..])
  }

  predicate NeverRecovers(thread: Option<Checkpoint>, run: seq<Delivery>)
    decreases |run|
  {
    run != [] ==>
      && !NeedsRecovery(thread, run[0].job, run[0].digest)
      && NeverRecovers(EffectOf(thread, run[0]).thread, run[1..])
  }

  lemma {:induction false} NodesKeepBinding(cp: Checkpoint, replies: seq<Reply>)
    ensures RunNodes(cp, replies).cp.binding == cp.binding
    decreases |replies|
  {
    if replies != [] && cp.next.Some? {
      assert AttemptNode(cp, replies[0]).after.binding == cp.binding;
      if AttemptNode(cp, replies[0]).Done? {
        NodesKeepBinding(AttemptNode(cp, replies[0]).after, replies[1..]);
      }
    }
  }

  lemma DeliveryMovesVersions(thread: Option<Checkpoint>, d: Delivery)
    requires thread.Some? && !NeedsRecovery(thread, d.job, d.digest)
    ensures var was, after := thread.value.binding, EffectOf(thread, d).thread;
      && after.Some?
      && after.value.binding.stateVersion == was.stateVersion + (if IsDecision(thread, d) then 1 else 0)
      && after.value.binding.pipelineAttempt == was.pipelineAttempt + (if IsNewAttempt(thread, d) then 1 else 0)
  {
    var cp := thread.value;
    NodesKeepBinding(cp.(binding := Bind(d.job), isWaiting := false), d.world.first);
    NodesKeepBinding(cp.(binding := Bind(d.job)), d.world.first);
  }

  /**
   Off the recovery path the state version counts the consumed decisions exactly, and the pipeline
   attempt rises exactly with the rejections below the maximum, so it never exceeds it.
   */
  lemma {:induction false} VersionsCountDecisions(thread: Option<Checkpoint>, run: seq<Delivery>)
    requires thread.Some? && NeverRecovers(thread, run)
    ensures var was, after := thread.value.binding, ThreadFrom(thread, run);
      && after.Some?
      && after.value.binding.stateVersion == was.stateVersion + Decisions(thread, run)
      && after.value.binding.pipelineAttempt == was.pipelineAttempt + NewAttempts(thread, run)
      && (was.pipelineAttempt <= MAX_ATTEMPTS ==> after.value.binding.pipelineAttempt <= MAX_ATTEMPTS)
    decreases |run|
  {
    if run != [] {
      DeliveryMovesVersions(thread, run[0]);
      VersionsCountDecisions(EffectOf(thread, run[0]).thread, run[1..]);
    }
  }

  // --- recovery ---

  /**
   Recovery rebuilds what was lost: when a thread stopped in its preview node, the recovered thread
   is the very checkpoint that the completed node would have left, result id included.
   */
  lemma RecoveryRebuildsPreview(cp: Checkpoint, job: Job, digest: string, reply: Reply)
    requires cp.next == Some(Preview) && !cp.isWaiting && StageSucceeds(Preview, cp, reply)
    requires SameIdentity(cp, job, digest) && MatchesBinding(job, cp.binding)
    requires cp.context.policyHash == digest && cp.context.requestText == job.requestText
    requires cp.context.resource == job.resource == reply.job.value.resource
    requires Analyze in cp.context.rounds
    requires reply.outcome.value.preview == job.preview
    ensures AttemptNode(cp, reply) == Done(RecoveredThread(Some(cp), job, digest), "ready")
  {
  }

  lemma NodeIdsDiffer(a: Node, b: Node)
    ensures NodeId(a) == NodeId(b) <==> a == b
    ensures ':' !in NodeId(a) && ':' !in "cms." + NodeId(a)
  {
  }

  /** A result name determines the job, the pipeline attempt, the node and its round. */
  lemma ResultNameIsInjective(a: Binding, node: Node, round: nat, b: Binding, node': Node, round': nat)
    requires ':' !in a.jobId && ':' !in b.jobId
    ensures ResultName(a, node, round) == ResultName(b, node', round') <==>
      (a.jobId, a.pipelineAttempt, node, round) == (b.jobId, b.pipelineAttempt, node', round')
  {
    if ResultName(a, node, round) == ResultName(b, node', round') {
      var x := ["axms", "natural-cms-result", a.jobId, Identity.Decimal(a.pipelineAttempt), NodeId(node),
                "cms." + NodeId(node), Identity.Decimal(round)];
      var y := ["axms", "natural-cms-result", b.jobId, Identity.Decimal(b.pipelineAttempt), NodeId(node'),
                "cms." + NodeId(node'), Identity.Decimal(round')];
      NodeIdsDiffer(node, node');
      NodeIdsDiffer(node', node);
      Identity.DecimalIsNonempty(a.pipelineAttempt);
      Identity.DecimalIsNonempty(b.pipelineAttempt);
      Identity.DecimalIsNonempty(round);
      Identity.DecimalIsNonempty(round');
      Identity.JoinedIsInjective(x, y);
      assert x[2] == y[2] && x[3] == y[3] && x[4] == y[4] && x[6] == y[6];
      Identity.DecimalIsInjective(a.pipelineAttempt, b.pipelineAttempt);
      Identity.DecimalIsInjective(round, round');
    }
  }

  // --- how many nodes complete ---

  const LONGEST_RUN := 15

  /** The nodes on the longest way from here to the end without another retry. */
  function Distance(node: Node): nat {
    match node
    case Start => 7
    case Guardrail => 6
    case Analyze => 5
    case Preview => 4
    case Approval => 3
    case Discard => 2
    case Apply => 2
    case End => 1
  }

  /** The completions that a thread still has before it; a retry adds four nodes and is used up. */
  function Remaining(cp: Checkpoint): int {
    if cp.next == None then 0 else Distance(cp.next.value) + 4 * (MAX_RETRIES - cp.retries)
  }

  function Ahead(thread: Option<Checkpoint>): int {
    if thread == None then LONGEST_RUN else Remaining(thread.value)
  }

  function Completions(log: seq<Entry>): nat {
    if log == [] then 0 else Completions(log[..|log| - 1]) + (if log[|log| - 1].Finished? then 1 else 0)
  }

  function Recoveries(log: seq<Entry>): nat {
    if log == [] then 0 else Recoveries(log[..|log| - 1]) + (if log[|log| - 1].RecoveredPreview? then 1 else 0)
  }

  lemma {:induction false} CountsConcatenate(a: seq<Entry>, b: seq<Entry>)
    ensures Completions(a + b) == Completions(a) + Completions(b)
    ensures Recoveries(a + b) == Recoveries(a) + Recoveries(b)
    decreases |b|
  {
    if b == [] {
      assert a + b == a;
    } else {
      assert (a + b)[..|a + b| - 1] == a + b[..|b| - 1];
      CountsConcatenate(a, b[..|b| - 1]);
    }
  }

  predicate RetriesFit(thread: Option<Checkpoint>) {
    thread.Some? ==> thread.value.retries <= MAX_RETRIES
  }

  /** The log entries and the new thread together use no more than the old thread had before it. */
  ghost predicate Uses(ahead: int, log: seq<Entry>, after: Option<Checkpoint>) {
    RetriesFit(after) && Completions(log) + Ahead(after) <= ahead + 2 * Recoveries(log)
  }

  lemma LeavingUses(cp: Checkpoint, port: string, context: Context)
    requires cp.next.Some? && cp.next.value != End && cp.retries <= MAX_RETRIES
    ensures var attempted := Leave(cp, cp.next.value, port, context);
      && attempted.after.retries <= MAX_RETRIES
      && Remaining(attempted.after) + (if attempted.Done? then 1 else 0) <= Remaining(cp)
  {
  }

  lemma AttemptUses(cp: Checkpoint, reply: Reply)
    requires cp.next.Some? && cp.retries <= MAX_RETRIES
    ensures var attempted := AttemptNode(cp, reply);
      && attempted.after.retries <= MAX_RETRIES
      && Remaining(attempted.after) + (if attempted.Done? then 1 else 0) <= Remaining(cp)
  {
    var attempted := AttemptNode(cp, reply);
    if attempted.Done? && cp.next.value != End {
      LeavingUses(cp, attempted.port, attempted.after.context);
      assert attempted == Leave(cp, cp.next.value, attempted.port, attempted.after.context);
    }
  }

  lemma OneEntryCounts(entry: Entry)
    ensures Completions([entry]) == (if entry.Finished? then 1 else 0)
    ensures Recoveries([entry]) == (if entry.RecoveredPreview? then 1 else 0)
  {
    assert [entry][..0] == [];
  }

  lemma EntriesCount(cp: Checkpoint, reply: Reply)
    requires cp.next.Some?
    ensures Completions(EntriesOf(cp, reply)) == (if AttemptNode(cp, reply).Done? then 1 else 0)
    ensures Recoveries(EntriesOf(cp, reply)) == 0
  {
    var attempted, began := AttemptNode(cp, reply), Began(cp.next.value, cp);
    OneEntryCounts(began);
    if attempted.Done? {
      var finished := Finished(cp.next.value, cp, attempted.port, reply.job);
      OneEntryCounts(finished);
      CountsConcatenate([began], [finished]);
    } else {
      assert EntriesOf(cp, reply) == [began];
    }
  }

  lemma {:induction false} RunUses(cp: Checkpoint, replies: seq<Reply>)
    requires cp.retries <= MAX_RETRIES
    ensures var run := RunNodes(cp, replies);
      Uses(Remaining(cp), run.log, Some(run.cp)) && Recoveries(run.log) == 0
    decreases |replies|
  {
    if replies != [] && cp.next.Some? {
      var attempted, entries := AttemptNode(cp, replies[0]), EntriesOf(cp, replies[0]);
      AttemptUses(cp, replies[0]);
      EntriesCount(cp, replies[0]);
      if attempted.Done? {
        RunUses(attempted.after, replies[1..]);
        CountsConcatenate(entries, RunNodes(attempted.after, replies[1..]).log);
      }
    }
  }

  lemma SettlingUses(cp: Checkpoint, job: Job, w: World)
    requires cp.retries <= MAX_RETRIES
    ensures var rest := Settled(cp, job, w);
      rest.thread.Some? && Uses(Remaining(cp), rest.log, rest.thread) && Recoveries(rest.log) == 0
  {
    if PhaseOf(cp) != PhaseRunning && job.decision.Some? {
      RunUses(cp.(binding := Bind(job), isWaiting := false), w.second);
    }
  }

  lemma RecoveryUses(thread: Option<Checkpoint>, job: Job, digest: string, w: World)
    requires RetriesFit(thread) && NeedsRecovery(thread, job, digest)
    ensures var effect := Recovered(thread, job, digest, w); Uses(Ahead(thread), effect.log, effect.thread)
  {
    var effect := Recovered(thread, job, digest, w);
    if CanRecover(job) && RoundOf(RecoveryBase(thread, job, digest), Preview) >= 1 && w.updates {
      var start := RecoveredThread(thread, job, digest);
      var run, entry := RunNodes(start, w.first), [RecoveredPreview(start)];
      RunUses(start, w.first);
      SettlingUses(run.cp, job, w);
      var rest := Settled(run.cp, job, w);
      assert entry[..0] == [];
      CountsConcatenate(entry, run.log);
      CountsConcatenate(entry + run.log, rest.log);
      RunningIsNotDone(thread);
    }
  }

  /** A thread that recovery rewinds had at least one node before it. */
  lemma RunningIsNotDone(thread: Option<Checkpoint>)
    requires RetriesFit(thread) && (thread.Some? ==> PhaseOf(thread.value) == PhaseRunning)
    ensures Ahead(thread) >= 1 + 4 * (MAX_RETRIES - (if thread.Some? then thread.value.retries else 0))
  {
  }

  lemma DeliveryUses(thread: Option<Checkpoint>, d: Delivery)
    requires RetriesFit(thread)
    ensures var effect := EffectOf(thread, d); Uses(Ahead(thread), effect.log, effect.thread)
  {
    if IsTerminal(d.job) {
    } else if NeedsRecovery(thread, d.job, d.digest) {
      RecoveryUses(thread, d.job, d.digest, d.world);
    } else {
      match thread
      case None =>
        RunUses(Checkpoint(Bind(d.job), d.digest, InitialContext(d.job, d.digest), Some(Start), false, 0), d.world.first);
      case Some(cp) =>
        RunUses(cp.(binding := Bind(d.job), isWaiting := false), d.world.first);
        RunUses(cp.(binding := Bind(d.job)), d.world.first);
    }
  }

  /**
   The bound of a natural CMS job: all its deliveries together complete at most fifteen nodes, and two
   more for each preview that was recovered.
   */
  lemma {:induction false} CompletionsAreBounded(run: seq<Delivery>)
    ensures Uses(LONGEST_RUN, LogAfter(run), ThreadAfter(run))
    decreases |run|
  {
    if run != [] {
      var front, last := run[..|run| - 1], run[|run| - 1];
      CompletionsAreBounded(front);
      DeliveryUses(ThreadAfter(front), last);
      CountsConcatenate(LogAfter(front), EffectOf(ThreadAfter(front), last).log);
    }
  }
}
