/**
 Execution rounds of coding nodes: how a node's round number is read and advanced in the graph
 context, the identities built from it, and the rework gate that spends its round budget.
 */
module CodingRounds {
  import opened Wrappers
  import opened DirectedGraph
  import opened SnapshotModel
  import opened GraphExecution
  import Identity

  const STAGE_ROUNDS := "codingStageRounds"
  const LAST_RESULT := "codingLastResult"

  // --- the round of the next execution ---

  /** The stored rounds, unless they are malformed. */
  function StoredRounds(context: Context): Option<map<string, int>> {
    if STAGE_ROUNDS !in context then Some(map[])
    else
      match context[STAGE_ROUNDS]
      case Table(entries) => if forall id | id in entries :: entries[id] >= 1 then Some(entries) else None
      case _ => None
  }

  function RoundIn(rounds: map<string, int>, id: Node): int {
    if id in rounds then rounds[id] else 1
  }

  /** The round a node executes now, and the rounds to store once it completes. */
  function NextRounds(context: Context, id: Node): Option<(int, map<string, int>)> {
    match StoredRounds(context)
    case None => None
    case Some(rounds) => Some((RoundIn(rounds, id), rounds[id := RoundIn(rounds, id) + 1]))
  }

  method NextRound(context: Context, id: Node) returns (r: Option<(int, map<string, int>)>)
    ensures r == NextRounds(context, id)
  {
    var rounds: map<string, int> := map[];
    if STAGE_ROUNDS in context {
      if !context[STAGE_ROUNDS].Table? {
        return None;
      }
      var entries := context[STAGE_ROUNDS].entries;
      var todo := entries.Keys;
      while todo != {}
        invariant todo <= entries.Keys && rounds.Keys == entries.Keys - todo
        invariant forall key | key in rounds :: rounds[key] == entries[key] >= 1
      {
        var key :| key in todo;
        if entries[key] < 1 {
          return None;
        }
        rounds, todo := rounds[key := entries[key]], todo - {key};
      }
      assert rounds == entries;
    }
    var current := if id in rounds then rounds[id] else 1;
    return Some((current, rounds[id := current + 1]));
  }

  // --- the rework gate ---

  /** Whether the last stage was a review that reported a denied area. */
  predicate RequiresDeniedArea(context: Context) {
    && LAST_RESULT in context
    && context[LAST_RESULT].Reference?
    && context[LAST_RESULT].handlerKey == "coding.review"
    && context[LAST_RESULT].deniedArea
  }

  function RoundsUpdate(rounds: map<string, int>): Context {
    map[STAGE_ROUNDS := Table(rounds)]
  }

  function GateReply(maxReworkRounds: int, context: Context, id: Node): HandlerReply {
    if maxReworkRounds < 1 || NextRounds(context, id) == None then Raised
    else
      var (round, rounds) := NextRounds(context, id).value;
      var port := if !RequiresDeniedArea(context) && round < maxReworkRounds then "retry" else "handover";
      Returned(Some(port), RoundsUpdate(rounds))
  }

  method DecideRework(maxReworkRounds: int, context: Context, id: Node) returns (reply: HandlerReply)
    ensures reply == GateReply(maxReworkRounds, context, id)
  {
    if maxReworkRounds < 1 {
      return Raised;
    }
    var next := NextRound(context, id);
    if next == None {
      return Raised;
    }
    var (round, rounds) := next.value;
    if RequiresDeniedArea(context) {
      return Returned(Some("handover"), RoundsUpdate(rounds));
    }
    return Returned(Some(if round < maxReworkRounds then "retry" else "handover"), RoundsUpdate(rounds));
  }

  /** The rounds that a context stores, each at least one; a context without any has none yet. */
  predicate Stores(context: Context, rounds: map<string, int>) {
    && (forall id | id in rounds :: rounds[id] >= 1)
    && (if "codingStageRounds" in context then context["codingStageRounds"] == Table(rounds) else rounds == map[])
  }

  /**
   The gate hands over when the last result is a review that reported a denied area, or when the node's
   round has reached the maximum, and retries otherwise; it always counts its round, and raises when its
   maximum or the stored rounds are invalid.
   */
  lemma GateIsExact(maxReworkRounds: int, context: Context, id: Node)
    ensures var reply := GateReply(maxReworkRounds, context, id);
      && (reply == Raised <==> maxReworkRounds < 1 || forall rounds :: !Stores(context, rounds))
      && forall rounds | Stores(context, rounds) && maxReworkRounds >= 1 ::
           var round := if id in rounds then rounds[id] else 1;
           var isDenied := "codingLastResult" in context
             && context["codingLastResult"] == Reference("coding.review", true);
           reply == Returned(Some(if isDenied || round >= maxReworkRounds then "handover" else "retry"),
                             map["codingStageRounds" := Table(rounds[id := round + 1])])
  {
    if StoredRounds(context).Some? {
      assert Stores(context, StoredRounds(context).value);
    }
    forall rounds | Stores(context, rounds) ensures StoredRounds(context) == Some(rounds) {
    }
  }

  /** A stage counts its round and stores the reference to its result; an approval only counts its round. */
  lemma RepliesAreExact(context: Context, id: Node, port: string, result: Value, rounds: map<string, int>)
    requires Stores(context, rounds)
    ensures var round := if id in rounds then rounds[id] else 1;
      var counted := Table(rounds[id := round + 1]);
      && StageReply(context, id, port, result)
         == Returned(Some(port), map["codingStageRounds" := counted, "codingLastResult" := result])
      && ApprovalReply(context, id, port) == Returned(Some(port), map["codingStageRounds" := counted])
  {
    assert StoredRounds(context) == Some(rounds);
  }

  // --- rounds count executions ---

  /** Coding nodes store the advanced rounds with their result; other nodes leave the rounds alone. */
  predicate AdvancesRounds(coding: set<Node>, id: Node, context: Context, reply: HandlerReply) {
    reply.Returned? ==>
      if id in coding then
        && NextRounds(context, id).Some?
        && STAGE_ROUNDS in reply.updates
        && reply.updates[STAGE_ROUNDS] == Table(NextRounds(context, id).value.1)
      else STAGE_ROUNDS !in reply.updates
  }

  /** What a stage handler returns: its port, the advanced rounds and the reference to its result. */
  function StageReply(context: Context, id: Node, port: string, result: Value): HandlerReply {
    match NextRounds(context, id)
    case None => Raised
    case Some((_, rounds)) => Returned(Some(port), map[STAGE_ROUNDS := Table(rounds), LAST_RESULT := result])
  }

  /** What an approval handler returns once its decision is recorded: it only stores the rounds. */
  function ApprovalReply(context: Context, id: Node, port: string): HandlerReply {
    match NextRounds(context, id)
    case None => Raised
    case Some((_, rounds)) => Returned(Some(port), RoundsUpdate(rounds))
  }

  ghost predicate IsCodingStep(s: Snapshot, coding: set<Node>, cp: Checkpoint, reply: HandlerReply) {
    cp.next.Some? ==> AdvancesRounds(coding, cp.next.value, cp.values.context, reply)
  }

  ghost predicate IsCodingRun(s: Snapshot, coding: set<Node>, cp: Checkpoint, replies: seq<HandlerReply>) {
    forall k | 0 <= k < |replies| :: IsCodingStep(s, coding, Execute(s, cp, replies[..k]), replies[k])
  }

  // --- the registered handlers ---

  datatype CodingHandler = StageHandler(key: string) | ApprovalHandler | GateHandler(maxReworkRounds: int)

  /** The handlers of the coding nodes. */
  type Handlers = map<Node, CodingHandler>

  predicate ReturnedBy(handler: CodingHandler, id: Node, context: Context, reply: HandlerReply)
    requires reply.Returned?
  {
    match handler
    case StageHandler(key) =>
      && reply.port.Some?
      && (|| reply == StageReply(context, id, reply.port.value, Reference(key, false))
          || reply == StageReply(context, id, reply.port.value, Reference(key, true)))
    case ApprovalHandler => reply.port.Some? && reply == ApprovalReply(context, id, reply.port.value)
    case GateHandler(maxReworkRounds) => reply == GateReply(maxReworkRounds, context, id)
  }

  /** What a node's handler may return; the other nodes leave the coding fields of the context alone. */
  predicate MayReturn(handlers: Handlers, id: Node, context: Context, reply: HandlerReply) {
    reply.Returned? ==>
      if id in handlers then ReturnedBy(handlers[id], id, context, reply)
      else STAGE_ROUNDS !in reply.updates && LAST_RESULT !in reply.updates
  }

  lemma HandlersAdvanceRounds(handlers: Handlers, id: Node, context: Context, reply: HandlerReply)
    requires MayReturn(handlers, id, context, reply)
    ensures AdvancesRounds(handlers.Keys, id, context, reply)
  {
  }

  /** The node that a run stands at after k replies was interrupted there before. */
  ghost predicate WasAsked(s: Snapshot, cp: Checkpoint, replies: seq<HandlerReply>, k: nat)
    requires k <= |replies|
  {
    exists j :: 0 <= j < k && replies[j] == Interrupted && Execute(s, cp, replies[..j]) == Execute(s, cp, replies[..k])
  }

  /** The k-th reply comes from the node's own handler; an approval only returns after it has interrupted. */
  ghost predicate IsHandledAt(s: Snapshot, handlers: Handlers, cp: Checkpoint, replies: seq<HandlerReply>, k: nat)
    requires k < |replies|
  {
    var before := Execute(s, cp, replies[..k]);
    before.next.Some? && replies[k].Returned? ==>
      && MayReturn(handlers, before.next.value, before.values.context, replies[k])
      && (before.next.value in handlers && handlers[before.next.value].ApprovalHandler? ==> WasAsked(s, cp, replies, k))
  }

  /** A run in which every coding node is handled by its registered handler. */
  ghost predicate IsHandledRun(s: Snapshot, handlers: Handlers, cp: Checkpoint, replies: seq<HandlerReply>) {
    forall k | 0 <= k < |replies| :: IsHandledAt(s, handlers, cp, replies, k)
  }

  /** The registered handlers keep the rounds as coding nodes have to. */
  lemma HandledRunIsCodingRun(s: Snapshot, handlers: Handlers, cp: Checkpoint, replies: seq<HandlerReply>)
    requires IsHandledRun(s, handlers, cp, replies)
    ensures IsCodingRun(s, handlers.Keys, cp, replies)
  {
    forall k | 0 <= k < |replies|
      ensures IsCodingStep(s, handlers.Keys, Execute(s, cp, replies[..k]), replies[k])
    {
      assert IsHandledAt(s, handlers, cp, replies, k);
      var before := Execute(s, cp, replies[..k]);
      if before.next.Some? && replies[k].Returned? {
        HandlersAdvanceRounds(handlers, before.next.value, before.values.context, replies[k]);
      }
    }
  }

  // --- rounds over a run ---

  /** How often a node has completed in a run; failed and interrupted attempts do not count. */
  function Executions(s: Snapshot, cp: Checkpoint, replies: seq<HandlerReply>, id: Node): nat {
    if replies == [] then 0
    else
      var front, reply := replies[..|replies| - 1], replies[|replies| - 1];
      var before := Execute(s, cp, front);
      Executions(s, cp, front, id) + (if before.next == Some(id) && Attempt(s, before, reply).Ok? then 1 else 0)
  }

  /** The stored round of each coding node is one more than its completed executions. */
  ghost predicate RoundsMatch(s: Snapshot, coding: set<Node>, cp: Checkpoint, replies: seq<HandlerReply>) {
    var rounds := StoredRounds(Execute(s, cp, replies).values.context);
    && rounds.Some?
    && forall id | id in coding :: RoundIn(rounds.value, id) == Executions(s, cp, replies, id) + 1
  }

  lemma CodingPrefix(s: Snapshot, coding: set<Node>, cp: Checkpoint, replies: seq<HandlerReply>, n: nat)
    requires IsCodingRun(s, coding, cp, replies) && n <= |replies|
    ensures IsCodingRun(s, coding, cp, replies[..n])
  {
    var front := replies[..n];
    forall k | 0 <= k < n ensures IsCodingStep(s, coding, Execute(s, cp, front[..k]), front[k]) {
      assert front[..k] == replies[..k];
    }
  }

  lemma CompletedContext(s: Snapshot, cp: Checkpoint, reply: HandlerReply)
    requires Attempt(s, cp, reply).Ok?
    ensures cp.next.Some? && reply.Returned?
    ensures Attempt(s, cp, reply).value.values.context == cp.values.context + reply.updates
  {
  }

  /** A completed coding node moves its own stored round on by one; any other attempt moves none. */
  lemma StepAdvancesRounds(s: Snapshot, coding: set<Node>, cp: Checkpoint, reply: HandlerReply)
    requires IsCodingStep(s, coding, cp, reply) && StoredRounds(cp.values.context).Some?
    ensures StoredRounds(Step(s, cp, reply).values.context).Some?
    ensures forall id | id in coding ::
      RoundIn(StoredRounds(Step(s, cp, reply).values.context).value, id)
      == RoundIn(StoredRounds(cp.values.context).value, id)
         + (if cp.next == Some(id) && Attempt(s, cp, reply).Ok? then 1 else 0)
  {
    if Attempt(s, cp, reply).Ok? {
      CompletedContext(s, cp, reply);
    }
  }

  lemma {:induction false} RoundsStayMatched(s: Snapshot, coding: set<Node>, cp: Checkpoint, replies: seq<HandlerReply>)
    requires STAGE_ROUNDS !in cp.values.context && IsCodingRun(s, coding, cp, replies)
    ensures RoundsMatch(s, coding, cp, replies)
    decreases |replies|
  {
    if replies != [] {
      var n := |replies| - 1;
      CodingPrefix(s, coding, cp, replies, n);
      RoundsStayMatched(s, coding, cp, replies[..n]);
      assert IsCodingStep(s, coding, Execute(s, cp, replies[..n]), replies[n]);
      StepAdvancesRounds(s, coding, Execute(s, cp, replies[..n]), replies[n]);
    }
  }

  lemma NextRoundCounts(s: Snapshot, coding: set<Node>, cp: Checkpoint, replies: seq<HandlerReply>, id: Node)
    requires STAGE_ROUNDS !in cp.values.context && IsCodingRun(s, coding, cp, replies) && id in coding
    ensures var next := NextRounds(Execute(s, cp, replies).values.context, id);
      next.Some? && next.value.0 == Executions(s, cp, replies, id) + 1
  {
    RoundsStayMatched(s, coding, cp, replies);
  }

  /**
   In every run of the registered handlers the k-th completed execution of a coding node uses round
   k, and an attempt that fails or is interrupted leaves its round to the next one.
   */
  lemma RoundCountsExecutions(s: Snapshot, handlers: Handlers, cp: Checkpoint, replies: seq<HandlerReply>, id: Node)
    requires STAGE_ROUNDS !in cp.values.context && IsHandledRun(s, handlers, cp, replies) && id in handlers
    ensures var next := NextRounds(Execute(s, cp, replies).values.context, id);
      next.Some? && next.value.0 == Executions(s, cp, replies, id) + 1
  {
    HandledRunIsCodingRun(s, handlers, cp, replies);
    NextRoundCounts(s, handlers.Keys, cp, replies, id);
  }

  // --- identities ---

  predicate IsField(text: string) {
    ':' !in text
  }

  /** The name of one execution, hashed into the id of its result or approval. */
  function Name(kind: string, jobId: string, attempt: nat, id: Node, key: string, round: nat): string {
    Identity.Joined(["axms", kind, jobId, Identity.Decimal(attempt), id, key, Identity.Decimal(round)])
  }

  function ResultName(jobId: string, attempt: nat, id: Node, handlerKey: string, round: nat): string {
    Name("coding-result", jobId, attempt, id, handlerKey, round)
  }

  function ApprovalName(jobId: string, attempt: nat, id: Node, stage: string, round: nat): string {
    Name("coding-approval", jobId, attempt, id, stage, round)
  }

  /** How the names of results and approvals are spelled. */
  lemma NamesAreSpelled(jobId: string, attempt: nat, id: Node, key: string, round: nat)
    ensures ResultName(jobId, attempt, id, key, round) == "axms" + ":" + ("coding-result" + ":" + (jobId + ":" +
      (Identity.Decimal(attempt) + ":" + (id + ":" + (key + ":" + Identity.Decimal(round))))))
    ensures ApprovalName(jobId, attempt, id, key, round) == "axms" + ":" + ("coding-approval" + ":" + (jobId + ":" +
      (Identity.Decimal(attempt) + ":" + (id + ":" + (key + ":" + Identity.Decimal(round))))))
  {
    Identity.JoinedSeven("axms", "coding-result", jobId, Identity.Decimal(attempt), id, key, Identity.Decimal(round));
    Identity.JoinedSeven("axms", "coding-approval", jobId, Identity.Decimal(attempt), id, key, Identity.Decimal(round));
  }

  /** A name determines everything it was built from. */
  lemma NameIsInjective(kind: string, jobId: string, attempt: nat, id: Node, key: string, round: nat,
                        kind': string, jobId': string, attempt': nat, id': Node, key': string, round': nat)
    requires IsField(kind) && IsField(jobId) && IsField(id) && IsField(key)
    requires IsField(kind') && IsField(jobId') && IsField(id') && IsField(key')
    ensures Name(kind, jobId, attempt, id, key, round) == Name(kind', jobId', attempt', id', key', round')
      <==> (kind, jobId, attempt, id, key, round) == (kind', jobId', attempt', id', key', round')
  {
    if Name(kind, jobId, attempt, id, key, round) == Name(kind', jobId', attempt', id', key', round') {
      var a := ["axms", kind, jobId, Identity.Decimal(attempt), id, key, Identity.Decimal(round)];
      var b := ["axms", kind', jobId', Identity.Decimal(attempt'), id', key', Identity.Decimal(round')];
      Identity.DecimalIsNonempty(attempt);
      Identity.DecimalIsNonempty(round);
      Identity.DecimalIsNonempty(attempt');
      Identity.DecimalIsNonempty(round');
      Identity.JoinedIsInjective(a, b);
      assert a[1] == b[1] && a[2] == b[2] && a[3] == b[3] && a[4] == b[4] && a[5] == b[5] && a[6] == b[6];
      Identity.DecimalIsInjective(attempt, attempt');
      Identity.DecimalIsInjective(round, round');
    }
  }

  /** No approval shares its name with a result, and within a job equal names mean the same execution. */
  lemma NamesNeverCollide(jobId: string, attempt: nat, id: Node, key: string, round: nat,
                          jobId': string, attempt': nat, id': Node, key': string, round': nat)
    requires IsField(jobId) && IsField(id) && IsField(key) && IsField(jobId') && IsField(id') && IsField(key')
    ensures ResultName(jobId, attempt, id, key, round) != ApprovalName(jobId', attempt', id', key', round')
    ensures ApprovalName(jobId, attempt, id, key, round) == ApprovalName(jobId', attempt', id', key', round')
      <==> (jobId, attempt, id, key, round) == (jobId', attempt', id', key', round')
  {
    NameIsInjective("coding-result", jobId, attempt, id, key, round,
                    "coding-approval", jobId', attempt', id', key', round');
    NameIsInjective("coding-approval", jobId, attempt, id, key, round,
                    "coding-approval", jobId', attempt', id', key', round');
  }

  /** The result name of the execution that a node is about to attempt. */
  function PendingResultName(context: Context, jobId: string, attempt: nat, id: Node, handlerKey: string): Option<string> {
    match NextRounds(context, id)
    case None => None
    case Some((round, _)) => if round < 0 then None else Some(ResultName(jobId, attempt, id, handlerKey, round))
  }

  lemma PendingNameCounts(s: Snapshot, coding: set<Node>, cp: Checkpoint, replies: seq<HandlerReply>, n: nat,
                          jobId: string, attempt: nat, id: Node, key: string)
    requires STAGE_ROUNDS !in cp.values.context && IsCodingRun(s, coding, cp, replies)
    requires n <= |replies| && id in coding
    ensures PendingResultName(Execute(s, cp, replies[..n]).values.context, jobId, attempt, id, key)
      == Some(ResultName(jobId, attempt, id, key, Executions(s, cp, replies[..n], id) + 1))
  {
    CodingPrefix(s, coding, cp, replies, n);
    NextRoundCounts(s, coding, cp, replies[..n], id);
  }

  /**
   Idempotent identities: at any two moments of a job's run, two coding nodes are about to store
   their results under the same name exactly when it is one node that has not completed in between.
   */
  lemma ResultNamesFollowExecutions(
    s: Snapshot, coding: set<Node>, cp: Checkpoint, replies: seq<HandlerReply>, i: nat, j: nat,
    jobId: string, attempt: nat, a: Node, keyA: string, b: Node, keyB: string)
    requires STAGE_ROUNDS !in cp.values.context && IsCodingRun(s, coding, cp, replies)
    requires i <= |replies| && j <= |replies| && a in coding && b in coding && (a == b ==> keyA == keyB)
    requires IsField(jobId) && IsField(a) && IsField(keyA) && IsField(b) && IsField(keyB)
    ensures var nameA := PendingResultName(Execute(s, cp, replies[..i]).values.context, jobId, attempt, a, keyA);
      var nameB := PendingResultName(Execute(s, cp, replies[..j]).values.context, jobId, attempt, b, keyB);
      && nameA.Some? && nameB.Some?
      && (nameA == nameB <==>
            a == b && Executions(s, cp, replies[..i], a) == Executions(s, cp, replies[..j], b))
  {
    PendingNameCounts(s, coding, cp, replies, i, jobId, attempt, a, keyA);
    PendingNameCounts(s, coding, cp, replies, j, jobId, attempt, b, keyB);
    NameIsInjective("coding-result", jobId, attempt, a, keyA, Executions(s, cp, replies[..i], a) + 1,
                    "coding-result", jobId, attempt, b, keyB, Executions(s, cp, replies[..j], b) + 1);
  }
}
