/**
 The natural CMS runner: one delivery of a job against its thread, including the recovery of a
 preview that the control plane recorded but the thread did not.
 */
module NaturalCmsRunner {
  import opened Wrappers
  import opened NaturalCms

  /** What the world answers during one delivery. */
  datatype World = World(updates: bool, first: seq<Reply>, second: seq<Reply>, confirmed: Option<Job>)

  datatype Outcome = Waiting | Ended | Conflict | TerminalPending | Interrupted

  /** The thread after a delivery, what was added to its log, and the outcome. */
  datatype Effect = Effect(thread: Option<Checkpoint>, log: seq<Entry>, outcome: Outcome)

  predicate SameIdentity(cp: Checkpoint, job: Job, digest: string) {
    && cp.binding.jobId == job.jobId && cp.binding.traceId == job.traceId
    && cp.binding.profileVersionId == job.profileVersionId && cp.digest == digest
  }

  function InitialContext(job: Job, digest: string): Context {
    Context(digest, job.requestText, job.resource, map[], None)
  }

  predicate IsTerminal(job: Job) {
    job.status in {Status.Completed, Rejected}
  }

  /** A finished graph counts only once the control plane has reached a terminal state too. */
  function Confirm(w: World): Outcome {
    if w.confirmed == None then Interrupted
    else if IsTerminal(w.confirmed.value) then Ended
    else TerminalPending
  }

  function AfterRun(cp: Checkpoint, w: World): Outcome {
    match PhaseOf(cp)
    case PhaseWaiting => Waiting
    case PhaseCompleted => Confirm(w)
    case PhaseRunning => Interrupted
  }

  /** Whether the thread is behind the control plane's preview. */
  predicate NeedsRecovery(thread: Option<Checkpoint>, job: Job, digest: string) {
    && job.status == WaitingApproval
    && match thread
       case None => true
       case Some(cp) => SameIdentity(cp, job, digest) && PhaseOf(cp) == PhaseRunning
  }

  predicate CanRecover(job: Job) {
    job.previewIsValid && job.preview.Some?
  }

  /** The context that recovery continues from. */
  function RecoveryBase(thread: Option<Checkpoint>, job: Job, digest: string): Context {
    match thread
    case None => InitialContext(job, digest)
    case Some(cp) => cp.context
  }

  /** The thread as if the preview node had just completed with the recorded preview. */
  function RecoveredThread(thread: Option<Checkpoint>, job: Job, digest: string): Checkpoint
    requires job.preview.Some? && RoundOf(RecoveryBase(thread, job, digest), Preview) >= 1
  {
    var base := RecoveryBase(thread, job, digest);
    var round := RoundOf(base, Preview);
    var rounds := (if Analyze in base.rounds then base.rounds else base.rounds[Analyze := 1])[Preview := round];
    var last := Reference(ResultName(Bind(job), Preview, round), Preview, "ready", job.resource, job.preview);
    Checkpoint(Bind(job), digest, Context(digest, job.requestText, job.resource, rounds, Some(last)),
               Some(Approval), false, if thread.Some? then thread.value.retries else 0)
  }

  /** A rebuilt thread that reached its approval goes past it when a decision is already recorded. */
  function Settled(cp: Checkpoint, job: Job, w: World): Effect {
    if PhaseOf(cp) == PhaseRunning then Effect(Some(cp), [], Interrupted)
    else if job.decision == None then Effect(Some(cp), [], if PhaseOf(cp) == PhaseWaiting then Waiting else Ended)
    else
      var run := RunNodes(cp.(binding := Bind(job), isWaiting := false), w.second);
      Effect(Some(run.cp), run.log, AfterRun(run.cp, w))
  }

  function RunRecovered(start: Checkpoint, job: Job, w: World): Effect {
    var run := RunNodes(start, w.first);
    var rest := Settled(run.cp, job, w);
    Effect(rest.thread, [RecoveredPreview(start)] + run.log + rest.log, rest.outcome)
  }

  function Recovered(thread: Option<Checkpoint>, job: Job, digest: string, w: World): Effect {
    if !CanRecover(job) || RoundOf(RecoveryBase(thread, job, digest), Preview) < 1 then Effect(thread, [], Conflict)
    else if !w.updates then Effect(thread, [], Interrupted)
    else RunRecovered(RecoveredThread(thread, job, digest), job, w)
  }

  /** The pipeline attempt that a decision leads to. */
  function AttemptAfter(attempt: int, decision: ApprovalDecision): int {
    if decision == Reject && attempt < MAX_ATTEMPTS then attempt + 1 else attempt
  }

  /** A waiting thread is resumed by a decision that advanced the version once. */
  predicate Resumes(cp: Checkpoint, job: Job) {
    && job.status == WaitingApproval && job.decision.Some?
    && job.stateVersion == cp.binding.stateVersion + 1
    && job.pipelineAttempt == AttemptAfter(cp.binding.pipelineAttempt, job.decision.value)
  }

  predicate StillWaits(cp: Checkpoint, job: Job) {
    && job.status == WaitingApproval && job.decision == None
    && job.stateVersion == cp.binding.stateVersion && job.pipelineAttempt == cp.binding.pipelineAttempt
  }

  predicate Retries(cp: Checkpoint, job: Job) {
    && job.status == Active && job.decision == None
    && job.stateVersion == cp.binding.stateVersion && job.pipelineAttempt == cp.binding.pipelineAttempt
  }

  function RunFrom(start: Checkpoint, w: World): Effect {
    var run := RunNodes(start, w.first);
    Effect(Some(run.cp), run.log, AfterRun(run.cp, w))
  }

  /** What one delivery does. */
  function Deliver(thread: Option<Checkpoint>, job: Job, digest: string, w: World): Effect {
    if IsTerminal(job) then Effect(thread, [], Ended)
    else if NeedsRecovery(thread, job, digest) then Recovered(thread, job, digest, w)
    else
      match thread
      case None =>
        if job.decision.Some? then Effect(None, [], Conflict)
        else RunFrom(Checkpoint(Bind(job), digest, InitialContext(job, digest), Some(Start), false, 0), w)
      case Some(cp) =>
        if !SameIdentity(cp, job, digest) then Effect(thread, [], Conflict)
        else
          match PhaseOf(cp)
          case PhaseCompleted => Effect(thread, [], Confirm(w))
          case PhaseWaiting =>
            if StillWaits(cp, job) then Effect(thread, [], Waiting)
            else if Resumes(cp, job) then RunFrom(cp.(binding := Bind(job), isWaiting := false), w)
            else Effect(thread, [], Conflict)
          case PhaseRunning =>
            if !Retries(cp, job) then Effect(thread, [], Conflict)
            else if !w.updates then Effect(thread, [], Interrupted)
            else RunFrom(cp.(binding := Bind(job)), w)
  }

  /** What a run that stands here still does, if it has not stopped. */
  function RestOf(cp: Checkpoint, replies: seq<Reply>, stopped: bool): Trace {
    if stopped then Trace(cp, []) else RunNodes(cp, replies)
  }

  lemma ThreeParts(log: seq<Entry>, a: seq<Entry>, b: seq<Entry>, c: seq<Entry>)
    ensures log + a + b + c == log + (a + b + c)
  {
  }

  class NaturalCmsSnapshotRunner {
    var thread: Option<Checkpoint>
    var log: seq<Entry>

    constructor ()
      ensures thread == None && log == []
    {
      thread, log := None, [];
    }

    /** Attempts the next node of a run and logs it. */
    method AttemptNext(cp: Checkpoint, replies: seq<Reply>) returns (after: Checkpoint, stopped: bool)
      requires replies != [] && cp.next.Some?
      modifies this`log
      ensures var rest := RestOf(after, replies[1..], stopped);
        RunNodes(cp, replies).cp == rest.cp && old(log) + RunNodes(cp, replies).log == log + rest.log
    {
      var attempted := AttemptNode(cp, replies[0]);
      log := log + EntriesOf(cp, replies[0]);
      return attempted.after, !attempted.Done?;
    }

    /** Runs the thread's graph node by node. */
    method RunGraph(start: Checkpoint, replies: seq<Reply>)
      modifies this
      ensures var run := RunNodes(start, replies);
        thread == Some(run.cp) && log == old(log) + run.log
    {
      var cp, todo, stopped := start, replies, false;
      while todo != [] && cp.next.Some? && !stopped
        invariant var rest := RestOf(cp, todo, stopped);
          RunNodes(start, replies).cp == rest.cp && old(log) + RunNodes(start, replies).log == log + rest.log
        decreases |todo|
      {
        cp, stopped := AttemptNext(cp, todo);
        todo := todo[1..];
      }
      thread := Some(cp);
    }

    /** Lets the rebuilt thread wait, or applies a decision made meanwhile. */
    method Settle(job: Job, w: World) returns (outcome: Outcome)
      requires thread.Some?
      modifies this
      ensures var effect := Settled(old(thread).value, job, w);
        thread == effect.thread && log == old(log) + effect.log && outcome == effect.outcome
    {
      var phase := PhaseOf(thread.value);
      if phase == PhaseRunning {
        return Interrupted;
      }
      if job.decision == None {
        return if phase == PhaseWaiting then Waiting else Ended;
      }
      RunGraph(thread.value.(binding := Bind(job), isWaiting := false), w.second);
      return AfterRun(thread.value, w);
    }

    /** Takes a rebuilt thread to its approval. */
    method RunRebuilt(start: Checkpoint, job: Job, w: World) returns (outcome: Outcome)
      modifies this
      ensures var effect := RunRecovered(start, job, w);
        thread == effect.thread && log == old(log) + effect.log && outcome == effect.outcome
    {
      log := log + [RecoveredPreview(start)];
      RunGraph(start, w.first);
      ghost var reached := thread.value;
      outcome := Settle(job, w);
      ThreeParts(old(log), [RecoveredPreview(start)], RunNodes(start, w.first).log, Settled(reached, job, w).log);
    }

    /** Rebuilds the thread from the control plane's preview and goes on from there. */
    method RecoverSpringPreview(job: Job, digest: string, w: World) returns (outcome: Outcome)
      modifies this
      ensures var effect := Recovered(old(thread), job, digest, w);
        thread == effect.thread && log == old(log) + effect.log && outcome == effect.outcome
    {
      if !job.previewIsValid || job.preview == None {
        return Conflict;
      }
      var context := if thread == None then InitialContext(job, digest) else thread.value.context;
      if (if Preview in context.rounds then context.rounds[Preview] else 0) < 0 {
        return Conflict;
      }
      if !w.updates {
        return Interrupted;
      }
      outcome := RunRebuilt(RecoveredThread(thread, job, digest), job, w);
    }

    method InvokeResolved(job: Job, digest: string, w: World) returns (outcome: Outcome)
      requires JobIsValid(job)
      modifies this
      ensures var effect := Deliver(old(thread), job, digest, w);
        thread == effect.thread && log == old(log) + effect.log && outcome == effect.outcome
    {
      if job.status in {Status.Completed, Rejected} {
        return Ended;
      }
      if thread == None {
        if job.status == WaitingApproval {
          outcome := RecoverSpringPreview(job, digest, w);
          return;
        }
        if job.decision.Some? {
          return Conflict;
        }
        RunGraph(Checkpoint(Bind(job), digest, InitialContext(job, digest), Some(Start), false, 0), w.first);
        return AfterRun(thread.value, w);
      }
      var cp := thread.value;
      if !SameIdentity(cp, job, digest) {
        return Conflict;
      }
      var phase := PhaseOf(cp);
      if phase == PhaseCompleted {
        return Confirm(w);
      }
      if job.status == WaitingApproval && phase != PhaseWaiting {
        outcome := RecoverSpringPreview(job, digest, w);
        return;
      }
      if phase == PhaseWaiting {
        if job.status != WaitingApproval {
          return Conflict;
        }
        if job.decision == None {
          if job.stateVersion != cp.binding.stateVersion || job.pipelineAttempt != cp.binding.pipelineAttempt {
            return Conflict;
          }
          return Waiting;
        }
        if job.stateVersion != cp.binding.stateVersion + 1 {
          return Conflict;
        }
        var expected := cp.binding.pipelineAttempt;
        if job.decision == Some(Reject) && expected < MAX_ATTEMPTS {
          expected := expected + 1;
        }
        if job.pipelineAttempt != expected {
          return Conflict;
        }
        RunGraph(cp.(binding := Bind(job), isWaiting := false), w.first);
        return AfterRun(thread.value, w);
      }
      if || job.status != Active || job.decision.Some?
         || job.stateVersion != cp.binding.stateVersion || job.pipelineAttempt != cp.binding.pipelineAttempt
      {
        return Conflict;
      }
      if !w.updates {
        return Interrupted;
      }
      RunGraph(cp.(binding := Bind(job)), w.first);
      return AfterRun(thread.value, w);
    }
  }
}
