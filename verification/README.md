# Verified model of the AXMS coding orchestrator

The orchestrator runs versioned profile snapshots - directed graphs of agent, tool, approval and
guardrail nodes - as durable jobs. This project models the parts whose correctness spans several
functions or a whole run, and proves what they promise:

- **Snapshots and execution.** `FrozenJson`, `SnapshotDocument`, `SnapshotModel`, `SnapshotSearch`,
  `SnapshotValidation` and `SnapshotShape` cover decoding, freezing and validating a snapshot;
  `SnapshotMeaning` and `SnapshotGraphMeaning` tell by field name what a document says.
  `GraphExecution`, `GraphBound`, `GraphRuns` and `GraphSteps` cover the compiled graph with its loop
  counters, the recursion limit and the token whose run it is. `DirectedGraph` and `Identity` hold the
  graph theory and the colon-joined names.
- **Coding stages.** `CodingStages` and `CodingProvenance` model the stage handlers over an
  append-only log of results and decisions; `StageAnswers` and `StageOutcomes` say when each stage
  succeeds; `DeployedPullRequest` and `TwoPullRequests` which pull request a deployment is about;
  `CodingRounds` and `CodingRuns` join rounds, result ids and stored results to the executing graph;
  `ReworkGate`, `ReworkBudget` and `DefaultCodingSnapshot` give the rework gate its exact budget, in
  general and for the default snapshot.
- **Deliveries.** `DeliveryModel`, `DeliveryRunner` and `DeliveryRuns` model the checkpointed runner
  of profile-bound jobs, `DeliveryAnswers` says what each delivery does and is told, and
  `DeliveredSteps` puts the snapshot graph under it. `NaturalCms`, `NaturalCmsRunner`,
  `NaturalCmsRuns` and `NaturalCmsAnswers` model its natural CMS sibling.
- **Worker.** `JobQueue`, `JobQueueBound`, `JobQueueRepeats`, `JobQueueOrder` and `JobQueueClient`
  model the Valkey lists and the queue client, `WorkerProcess`, `WorkerOutcomes` and `WorkerLoop` the
  processing of one job and one turn of the loop, and `LeaseHeartbeat` the lease threads. `Contracts`
  holds the events and claims they share.

Objects whose methods update their fields are classes whose methods are proved equal to functions
of the old state; the lemmas then speak about every run of those functions. For each main operation
one lemma, named `...IsExact` or `...IsRead`, says what it accepts and answers without those functions.

## Assumptions

- A node's updates become visible atomically when its action completes; a failure or an interrupt
  leaves the last committed checkpoint, whose pending node runs again. State updates and resumes
  apply atomically or not at all. What handlers, executors, Spring, the engine and the store answer
  is otherwise arbitrary: it enters as replies, and the lemmas hold for all of them.
- Every Valkey command is atomic; a crash, a lost request or a lost reply is possible at each one,
  and producers may push between any two. One consumer serves a queue.
- UUIDv5 (section 5.5 of RFC 9562) is taken as injective: identities are the strings it hashes.
  Digests are opaque values that are only compared.
- The coding domain keeps one result per id: writing an equal result again changes nothing, and a
  different one under the same id is refused.
- Clocks are arbitrary: the heartbeat model lets the time jump to any value between two actions.

## Findings

- Attempts are kept per job, so the delivery limit can be broken by pushing a job that is still pending
  once a pending first recovery is complete, and by nothing else (`JobQueueRepeats.BoundIsExact`): pushed
  twice onto an idle queue, a job can be handed out a fourth time (`FourthDelivery`). After a crash in its
  third delivery a pending job may be pushed (`CrashMakesRoom`). No operation complains in any of these
  runs (`JobQueueBound.NothingToComplain`).
- The rework gate keeps its promise of a declared port exactly when its budget fits the limit of its
  retry edge, `maxReworkRounds - 1 <= maxIterations`, if unlimited edges lead to the gate and back to it
  (`ReworkBudget.BudgetIsExact`). Validation does not check this. The default snapshot, with 3 and 2,
  has the largest budget that fits; with a fourth round a run of its own handlers fails
  (`DefaultCodingSnapshot.FourthRoundTrips`).
- Frozen arrays are tuples, which freezing refuses: a frozen tree that holds an array is not itself
  acceptable input (`FrozenJson.FrozenArrayIsRefused`), while its thawed form is.
- A deployment compares its candidate with the merge receipt, and not the pull request. When a second
  pull request of the same candidate is completed and requested after the merge check, that one is
  deployed although the merge of the first was checked (`TwoPullRequests.AnotherIsDeployed`). With
  up-to-date reads this happens exactly when a pull request with another number completes last after
  the merge check (`DeployedPullRequest.DeploysCheckedPullRequest`), and with any reads never where a
  candidate has one pull request (`OneNumberIsDeployed`).

## Model

| member | source | states |
|---|---|---|
| `SnapshotSearch.ReachableNodes` | src/axms_coding_orchestrator/snapshot.py:490-499 | the worklist search ends although nodes may be pending twice, and returns exactly the nodes some walk reaches |
| `SnapshotSearch.CountInDegrees` | src/axms_coding_orchestrator/snapshot.py:503-506 | each node is counted once per predecessor |
| `SnapshotSearch.ContainsCycle` | src/axms_coding_orchestrator/snapshot.py:502-516 | Kahn's test is true exactly when the graph has a non-empty closed walk; no in-degree goes negative on the way |
| `SnapshotValidation.CollectEdges` | src/axms_coding_orchestrator/snapshot.py:411-430 | the edge loop raises the first fault in order, or builds exactly the graph and its reverse |
| `SnapshotValidation.AdjacencyWithout` | src/axms_coding_orchestrator/snapshot.py:478-487 | the adjacency map of exactly the edges whose routes are not excluded |
| `SnapshotValidation.ReachesAroundCut` | src/axms_coding_orchestrator/snapshot.py:449-458 | removing the guardrails leaves exactly the walks that avoid them, so the bypass search decides domination |
| `SnapshotValidation.LimitsRepeatEverywhere` | src/axms_coding_orchestrator/snapshot.py:465-472 | the limit loop accepts exactly when every limited edge leads back to itself without being used |
| `SnapshotValidation.ValidateSnapshot` | src/axms_coding_orchestrator/snapshot.py:375-475 | a snapshot is accepted exactly when all sixteen rules, stated on walks of its graph, hold; otherwise the first broken rule is named |
| `SnapshotShape.NodeIsUseful` | src/axms_coding_orchestrator/snapshot.py:442-447 | in an accepted snapshot every node lies on a walk from the start to the end |
| `SnapshotShape.LimitedEdgeIsOnCycle` | src/axms_coding_orchestrator/snapshot.py:460-472 | in an accepted snapshot every limited edge lies on a cycle |
| `SnapshotShape.AcceptedDocumentIsBounded` | src/axms_coding_orchestrator/snapshot.py:249-313 | a document that decodes and validates has the step bound in every execution |
| `FrozenJson.FreezeIsExact` | src/axms_coding_orchestrator/snapshot.py:591-641 | freezing accepts exactly the trees whose every part is a JSON value with finite numbers, valid Unicode and no execution-context key, at most 64 levels deep |
| `FrozenJson.ThawUndoesFreeze` | src/axms_coding_orchestrator/snapshot.py:591-653 | thawing gives back the decoded JSON, key order included, and the frozen form holds no mutable container |
| `FrozenJson.FreezeUndoesThaw` | src/axms_coding_orchestrator/snapshot.py:591-653 | freezing what was thawed gives the same frozen tree |
| `FrozenJson.FrozenArrayIsRefused` | src/axms_coding_orchestrator/snapshot.py:614-620 | a tree that holds a frozen array does not freeze |
| `SnapshotDocument.NodeRoundTrips` | src/axms_coding_orchestrator/snapshot.py:69-103 | a node survives encoding and decoding |
| `SnapshotDocument.ConfigRoundTrips` | src/axms_coding_orchestrator/snapshot.py:198-227 | the configuration and its limits survive encoding and decoding |
| `SnapshotDocument.DocumentRoundTrips` | src/axms_coding_orchestrator/snapshot.py:249-344 | decoding an encoded document gives back the document |
| `SnapshotDocument.DecodedDocumentRoundTrips` | src/axms_coding_orchestrator/snapshot.py:249-344 | everything the decoder returns is a valid document and survives the round trip |
| `SnapshotDocument.DecodedDocumentGraph` | src/axms_coding_orchestrator/snapshot.py:249-310 | the graph of a decoded document has colon-free names, distinct ports per node and distinct limited routes, as validation and execution assume |
| `SnapshotMeaning.EdgeIsRead` | src/axms_coding_orchestrator/snapshot.py:111-128 | an edge is read from an object exactly when that has the fields from, resultPort and to and no other, with these identifiers |
| `SnapshotMeaning.NodeIsRead` | src/axms_coding_orchestrator/snapshot.py:69-95 | a node is read exactly from an object with the fields id, type, handlerKey, resultPorts and config, of a known type, with distinct ports and settings that freeze to its own |
| `SnapshotMeaning.LimitIsRead` | src/axms_coding_orchestrator/snapshot.py:138-177 | a loop limit is read exactly from an object that names its route and a positive maxIterations |
| `SnapshotMeaning.ConfigIsRead` | src/axms_coding_orchestrator/snapshot.py:198-220 | a configuration is read exactly from an object with a positive maxNodes, maxAttempts 3 and loop limits of distinct routes |
| `SnapshotMeaning.DocumentIsRead` | src/axms_coding_orchestrator/snapshot.py:249-313 | a document is read from an object exactly when its ten or eleven fields, each told by name, say what the document holds; contractVersion is 1.0 |
| `SnapshotMeaning.AcceptsExactly` | src/axms_coding_orchestrator/snapshot.py:249-313 | the decoder accepts exactly the objects that describe some document |
| `SnapshotGraphMeaning.GraphIsRead` | src/axms_coding_orchestrator/snapshot.py:69-131 | the graph of a decoded document has exactly the nodes, edges, limits and bindings that its JSON fields name, each edge leading from "from" to "to" |
| `SnapshotGraphMeaning.SettingsFreezeExactly` | src/axms_coding_orchestrator/snapshot.py:552-624 | an object of settings is taken exactly when no part of it, at up to 64 levels, is a non-JSON value, an invalid text or one of the seven execution fields |
| `Identity.JoinedIsInjective` | src/axms_coding_orchestrator/graph_builder.py:372-373 | colon-free fields can be read back from their colon-joined string |
| `GraphExecution.LoadCounts` | src/axms_coding_orchestrator/graph_builder.py:352-369 | stored loop counters are returned exactly when each names a limit and lies within it |
| `GraphExecution.RunNode` | src/axms_coding_orchestrator/graph_builder.py:157-272 | one node action: port checks, loop counting and atomic commit, or the failure that leaves the state |
| `GraphBound.RouteKeyIsInjective` | src/axms_coding_orchestrator/graph_builder.py:372-373 | two routes of colon-free names have one key exactly when they are the same route |
| `GraphBound.StepTracks` | src/axms_coding_orchestrator/graph_builder.py:182-220 | every step keeps the checkpoint at the end of a trail of edges whose uses are the loop counters |
| `GraphBound.UnlimitedStretchIsShort` | src/axms_coding_orchestrator/snapshot.py:473-475 | between two limited edges a trail passes each node at most once |
| `GraphBound.JobStepBound` | src/axms_coding_orchestrator/snapshot_runner.py:674-676 | at most nodes x (1 + sum of maxIterations) node actions ever complete in a job, through any failures, interrupts and resumes |
| `GraphRuns.RecursionLimitNeverReached` | src/axms_coding_orchestrator/snapshot_runner.py:674-676 | after any history one invocation starts fewer node actions than the recursion limit |
| `GraphRuns.PendingActionResolves` | src/axms_coding_orchestrator/graph_builder.py:182-220 | stored counters, routes and routing of an accepted snapshot always resolve: an action fails only for what its handler did |
| `GraphSteps.RunIsToken` | src/axms_coding_orchestrator/graph_builder.py:157-272 | every run of an accepted snapshot is that of a token that leaves a node by the edge of the returned port while the edge's limits last, carries the merged context, and ends at the end node |
| `GraphSteps.ActionIsExact` | src/axms_coding_orchestrator/graph_builder.py:182-220 | a pending action completes exactly when its handler returned something that the token can follow - no port at the end node, elsewhere the port of an edge that is not used up - and otherwise fails with the class that the reply, the node and the limits call for |
| `GraphRuns.FinishedRunPassedGuardrail` | src/axms_coding_orchestrator/snapshot.py:449-458 | no run ends without having completed a guardrail node |
| `CodingProvenance.AttemptLog.RecordDecision` | src/axms_coding_orchestrator/coding_handlers.py:927-947 | a recorded decision is appended to the log that later stages read |
| `CodingProvenance.AttemptLog.HandleStage` | src/axms_coding_orchestrator/coding_handlers.py:296-374 | a stage handler appends its judged result once, repeats an equal result, and refuses without a trace; it leaves by its executor's port, and a configured PR completion by what its receipt supports |
| `StageAnswers.DemandsAreExact` | src/axms_coding_orchestrator/coding_handlers.py:622-702 | stage by stage, exactly which latest results and approvals a stage demands, and which subject or candidate its executor has to repeat |
| `StageOutcomes.ReceiptIsExact` | src/axms_coding_orchestrator/coding_handlers.py:705-797 | exactly which fields each stage's receipt has to carry |
| `StageOutcomes.StageIsExact` | src/axms_coding_orchestrator/coding_handlers.py:296-374 | a stage succeeds with a result and a port exactly when its demands, reported port, receipt and workspace are in order, and then records what was reported |
| `StageOutcomes.RunIsExact` | src/axms_coding_orchestrator/coding_handlers.py:296-374 | a stage handler succeeds exactly when its stage answers and the result can be stored; a new id appends it, an equal result under its id leaves the log |
| `CodingProvenance.RecordedIsJustified` | src/axms_coding_orchestrator/coding_handlers.py:622-702 | what each gated stage records - review, preview, PR request and completion, deploy request, merge check, deployment - was preceded by what it demands of results and decisions, even when it read stale prefixes |
| `CodingProvenance.DeploymentProvenance` | src/axms_coding_orchestrator/coding_handlers.py:622-665 | behind every recorded deployment lies the whole chain - code, review, preview, approvals, PR, merge, deploy request - with the deployed candidate at each step; the deploy request of the merge check and that of the deployment each name a completed PR, not necessarily the same one |
| `DeployedPullRequest.DeploysCheckedPullRequest` | src/axms_coding_orchestrator/coding_handlers.py:633-665 | with up-to-date reads a deployment is requested for the last completed PR and the last merge check was about the last one completed before it; they are the same PR if and only if none with another number completed last after the merge check |
| `DeployedPullRequest.OneNumberIsDeployed` | src/axms_coding_orchestrator/coding_handlers.py:652-665 | whatever its handlers read, where all PRs completed for the candidate are one PR, the chain behind a deployment has the checked PR deployed |
| `TwoPullRequests.AnotherIsDeployed` | src/axms_coding_orchestrator/coding_handlers.py:652-665 | for any receipts of one candidate and any two PR numbers there is a history of fourteen up-to-date events that deploys the second PR after a merge check of the first |
| `TwoPullRequests.CheckedIsOvertaken` | src/axms_coding_orchestrator/coding_handlers.py:660-664 | for any two different numbers such a history exists, and its checked PR is overtaken |
| `CodingRounds.NextRound` | src/axms_coding_orchestrator/coding_handlers.py:986-1002 | the round of the next execution and the rounds to store, or a refusal of malformed rounds |
| `CodingRounds.DecideRework` | src/axms_coding_orchestrator/coding_handlers.py:273-286 | the gate retries within its budget and hands over otherwise, at once when the review reported a denied area |
| `CodingRounds.GateIsExact` | src/axms_coding_orchestrator/coding_handlers.py:273-286 | the gate hands over exactly when the last result is a review with a denied area or the round has reached the maximum, retries otherwise, and raises only for an invalid maximum or invalid rounds |
| `CodingRounds.RepliesAreExact` | src/axms_coding_orchestrator/coding_handlers.py:375-405 | a stage stores its counted round and the reference to its result, an approval its counted round only |
| `CodingRounds.RoundCountsExecutions` | src/axms_coding_orchestrator/coding_handlers.py:986-1002 | in every run of the registered handlers the k-th completed execution of a coding node uses round k; failed and interrupted attempts leave the round |
| `CodingRounds.HandledRunIsCodingRun` | src/axms_coding_orchestrator/coding_handlers.py:273-489 | runs in which every coding node is answered by its stage, gate or approval handler keep the stored rounds as the run lemmas need |
| `CodingRounds.NameIsInjective` | src/axms_coding_orchestrator/coding_handlers.py:1005-1025 | the hashed name determines kind, job, attempt, node, key and round |
| `CodingRounds.NamesAreSpelled` | src/axms_coding_orchestrator/coding_handlers.py:1005-1025 | how the hashed names of results and approvals are spelled |
| `CodingRounds.NamesNeverCollide` | src/axms_coding_orchestrator/coding_handlers.py:1005-1025 | no approval shares its name with a result, and equal approval names mean the same approval |
| `CodingRounds.ResultNamesFollowExecutions` | src/axms_coding_orchestrator/coding_handlers.py:1005-1010 | at two moments of a run two coding nodes would store under one name exactly when it is one node that did not complete in between |
| `CodingRuns.ResultsFollowExecutions` | src/axms_coding_orchestrator/coding_handlers.py:296-357 | in every run of an attempt, through crashes between storing and committing, failures and retries, each completed execution of a stage has exactly one result, of its own stage, and every result belongs to exactly one execution, completed or pending |
| `CodingRuns.DeniedReviewHandsOver` | src/axms_coding_orchestrator/coding_handlers.py:390-397 | a committed review whose payload reports requiresDeniedArea makes the gate hand over at once, and no other stage result does |
| `ReworkGate.TraversalsFitExecutions` | src/axms_coding_orchestrator/graph_builder.py:200-211 | a limited edge is counted at most once per completed execution of its source |
| `ReworkGate.GateAlwaysCompletes` | src/axms_coding_orchestrator/coding_handlers.py:255-286 | with a budget that fits its retry edge the gate always leaves by a declared port, never by the bounded-loop error |
| `ReworkGate.GateSpendsItsBudget` | src/axms_coding_orchestrator/coding_handlers.py:273-286 | in every run the gate retries in exactly its first maxReworkRounds - 1 executions, unless a denied area ends it earlier |
| `ReworkBudget.LargerBudgetTrips` | src/axms_coding_orchestrator/graph_builder.py:200-211 | with a larger budget there is a run of the registered handlers, interrupts of approvals included, built from the walk to the gate and the loop back to it, whose last retry the bounded loop fails |
| `ReworkBudget.BudgetIsExact` | src/axms_coding_orchestrator/coding_handlers.py:273-286 | in an accepted snapshot whose only gate and retry loop can be walked along unlimited edges, the gate completes in every run of the registered handlers if and only if maxReworkRounds - 1 <= maxIterations |
| `DefaultCodingSnapshot.IsAccepted` | src/axms_coding_orchestrator/default_coding_snapshot.py:29-261 | the seventeen nodes, twenty-four edges and three loop limits of the default snapshot obey every rule of the validator, so its executions are bounded |
| `DefaultCodingSnapshot.ReworkBudgetIsExact` | src/axms_coding_orchestrator/default_coding_snapshot.py:79-210 | with the handlers of the default snapshot its gate completes in every run exactly for budgets of at most three rounds, the number it is configured with |
| `DefaultCodingSnapshot.FourthRoundTrips` | src/axms_coding_orchestrator/graph_builder.py:200-211 | with a fourth round a run of the default snapshot's own handlers is given that fails by the bounded loop |
| `DeliveryRunner.SnapshotGraphRunner.Duplicates` | src/axms_coding_orchestrator/snapshot_runner.py:207-244 | the duplicate test, branch by branch, equals its specification |
| `DeliveryRunner.SnapshotGraphRunner.UpdateState` | src/axms_coding_orchestrator/snapshot_runner.py:272-275 | a state update writes the whole binding or nothing and leaves what handlers computed |
| `DeliveryRunner.SnapshotGraphRunner.InvokeGraph` | src/axms_coding_orchestrator/snapshot_runner.py:501-538 | one graph invocation: what it writes, how it ends, and the boundary that is returned |
| `DeliveryRunner.SnapshotGraphRunner.RecoverCompletedCheckpoint` | src/axms_coding_orchestrator/snapshot_runner.py:644-671 | a finished graph records a new delivery and is read back without running |
| `DeliveryRunner.SnapshotGraphRunner.RetryWith` | src/axms_coding_orchestrator/snapshot_runner.py:272-283 | a retry writes its binding and continues the graph, or leaves everything |
| `DeliveryRunner.SnapshotGraphRunner.Invoke` | src/axms_coding_orchestrator/snapshot_runner.py:246-363 | a delivery is refused, replayed, begun, retried, approved or recovered as specified, with its exact effect on the checkpoint |
| `DeliveryAnswers.InputIsExact` | src/axms_coding_orchestrator/snapshot_runner.py:246-363 | in every run a delivery begins the graph exactly when there is no checkpoint and no resume claim, continues it exactly as a repeated delivery of a broken-off graph or a later attempt of an unfinished one, and resumes it exactly as an approval |
| `DeliveryAnswers.RefusalIsExact` | src/axms_coding_orchestrator/snapshot_runner.py:246-363 | every other readable delivery that is no replay or recovery is refused as a state conflict and changes nothing |
| `DeliveryAnswers.ReplayIsExact` | src/axms_coding_orchestrator/snapshot_runner.py:262-271 | a repeated delivery of a stopped graph is told where it stopped, with its one well-formed pending approval, or why that is invalid |
| `DeliveryAnswers.RecoveryIsExact` | src/axms_coding_orchestrator/snapshot_runner.py:644-671 | a later attempt of a finished graph is recorded field by field and told that it has finished |
| `DeliveryAnswers.InvocationIsExact` | src/axms_coding_orchestrator/snapshot_runner.py:501-538 | an invocation that wrote its input leaves the delivery's binding and how far the graph came, and its answer follows from the ending |
| `DeliveryAnswers.DuplicateIsExact` | src/axms_coding_orchestrator/snapshot_runner.py:207-244 | a delivery is a duplicate exactly when it is older than the recorded one, or is the recorded event of a stopped graph in the same profile |
| `DeliveryRuns.LedgerOnlyGrows` | src/axms_coding_orchestrator/snapshot_runner.py:388-479 | over any deliveries identity stays, attempt and highest version never fall, an unchanged version means an unchanged ledger, and the ledger agrees with the recorded event and claim |
| `DeliveryRuns.LedgerListsLatest` | src/axms_coding_orchestrator/snapshot_runner.py:296-299 | the ledger lists exactly the last hundred recorded deliveries in order |
| `DeliveryRuns.RepeatKeepsBinding` | src/axms_coding_orchestrator/snapshot_runner.py:424-460 | a delivery that is not recorded anew leaves the whole binding but for the refreshed lease of the same claim |
| `DeliveryRuns.ResumeIsApproval` | src/axms_coding_orchestrator/snapshot_runner.py:285-330 | the graph is resumed exactly by a delivery with a resume claim, a newer version and the same attempt on a waiting checkpoint |
| `DeliveryRuns.ApprovalsAreDistinct` | src/axms_coding_orchestrator/snapshot_runner.py:323-330 | an approval that reached the checkpoint is never applied again: a later resume has a newer version |
| `DeliveryRuns.PendingApprovalIsCurrent` | src/axms_coding_orchestrator/snapshot_runner.py:541-641 | a waiting boundary names the one interrupt of the checkpoint, with the job, trace, profile and state version it is bound to |
| `DeliveryRuns.DuplicateRunsNothing` | src/axms_coding_orchestrator/snapshot_runner.py:207-271 | a duplicate changes nothing and runs nothing: it is answered from the checkpoint or refused |
| `DeliveryRuns.AnsweredIsDuplicate` | src/axms_coding_orchestrator/snapshot_runner.py:207-244 | a delivery that reached a boundary is recognised as a duplicate from then on |
| `DeliveryRuns.ReplayRepeatsAnswer` | src/axms_coding_orchestrator/snapshot_runner.py:262-271 | repeating an answered delivery under the same claim authority gives the same answer, pending approval included, and leaves the checkpoint |
| `DeliveredSteps.DeliveriesStayBounded` | src/axms_coding_orchestrator/snapshot_runner.py:674-676 | with the snapshot graph as the engine, the node actions completed by all deliveries, retries and approvals of a job stay within nodes x (1 + sum of maxIterations) |
| `DeliveredSteps.FinishedForever` | src/axms_coding_orchestrator/snapshot_runner.py:301-311 | once the graph of a job has ended, no later delivery starts, continues or resumes it, when the engine reports where the graph stands |
| `NaturalCmsRunner.NaturalCmsSnapshotRunner.RunGraph` | src/axms_coding_orchestrator/natural_cms_runner.py:390-406 | runs the nodes in order until the end, an interrupt or a failure |
| `NaturalCmsRunner.NaturalCmsSnapshotRunner.Settle` | src/axms_coding_orchestrator/natural_cms_runner.py:335-347 | a rebuilt thread waits, or goes past its approval when a decision is already recorded |
| `NaturalCmsRunner.NaturalCmsSnapshotRunner.RecoverSpringPreview` | src/axms_coding_orchestrator/natural_cms_runner.py:245-347 | rebuilds the thread from the recorded preview, lets it wait, and applies a decision made meanwhile |
| `NaturalCmsRunner.NaturalCmsSnapshotRunner.InvokeResolved` | src/axms_coding_orchestrator/natural_cms_runner.py:81-216 | one delivery of a job, branch by branch, with its exact effect on the thread |
| `NaturalCmsAnswers.CompletionFollowsEdge` | src/axms_coding_orchestrator/default_natural_cms_snapshot.py:85-97 | a completed node leaves along the edge that the default snapshot has for its port |
| `NaturalCmsAnswers.OuterNodesAreExact` | src/axms_coding_orchestrator/default_natural_cms_snapshot.py:85-97 | start, guardrail and end lead where the default snapshot says |
| `NaturalCmsAnswers.ApprovalIsExact` | src/axms_coding_orchestrator/natural_cms_handlers.py:162-213 | an approval waits until resumed, goes to apply exactly on APPROVED and to discard exactly on REJECTED for its own subject and version, and fails otherwise |
| `NaturalCmsAnswers.NothingToApprove` | src/axms_coding_orchestrator/natural_cms_handlers.py:162-170 | without a preview before it an approval fails |
| `NaturalCmsAnswers.StageIsExact` | src/axms_coding_orchestrator/natural_cms_handlers.py:112-159 | a stage completes exactly when the job and the answer are of this execution and, for a retry, two retries are not used up; its round, result and retry are then stored |
| `NaturalCmsAnswers.RunningIsExact` | src/axms_coding_orchestrator/natural_cms_runner.py:108-216 | the first delivery of an active job, a decision that moved the version once and a retry run the graph, from exactly the thread they should |
| `NaturalCmsAnswers.LeavingIsExact` | src/axms_coding_orchestrator/natural_cms_runner.py:81-216 | every other delivery leaves the thread and is answered ended, waiting, pending or a conflict, as its job and thread say |
| `NaturalCmsAnswers.RecoveryIsExact` | src/axms_coding_orchestrator/natural_cms_runner.py:245-347 | a thread that is behind its job is rebuilt field by field at the approval and settled, or refused without a valid preview |
| `NaturalCmsRuns.ApplyFollowsApproval` | src/axms_coding_orchestrator/natural_cms_handlers.py:162-213 | only an approval that saw a matching APPROVED leads to the apply stage |
| `NaturalCmsRuns.ApplyIsApproved` | src/axms_coding_orchestrator/natural_cms_handlers.py:162-213 | in every run, recoveries included, each begin of the apply stage directly follows an approval that saw APPROVED for exactly the preview id and hash, version and attempt in the checkpoint |
| `NaturalCmsRuns.VersionsCountDecisions` | src/axms_coding_orchestrator/natural_cms_runner.py:146-200 | off the recovery path the state version counts the consumed decisions, and the pipeline attempt the rejections below the maximum, which it never exceeds |
| `NaturalCmsRuns.CompletionsAreBounded` | src/axms_coding_orchestrator/default_natural_cms_snapshot.py:85-111 | all deliveries of a job together complete at most fifteen nodes, and two more per recovered preview |
| `NaturalCmsRuns.RecoveryRebuildsPreview` | src/axms_coding_orchestrator/natural_cms_runner.py:270-326 | recovering a thread that stopped in its preview gives the very checkpoint the completed node would have left, result id included |
| `NaturalCmsRuns.ResultNameIsInjective` | src/axms_coding_orchestrator/natural_cms_handlers.py:277-292 | a result name determines job, attempt, node and round |
| `JobQueue.QueueConserves` | src/axms_coding_orchestrator/queue.py:23-40 | in every run with crashes and faults each copy of a reference ever pushed is in exactly one of source, processing, dead letters, acknowledged and discarded |
| `JobQueueBound.NothingToComplain` | src/axms_coding_orchestrator/queue.py:150-238 | in every run, whatever is pushed, lost or crashed, no operation of an answering server finds a delivery missing, an order changed or an attempt count out of place |
| `JobQueueBound.DeliveryBound` | src/axms_coding_orchestrator/queue.py:138-238 | as long as no job is pushed while it is pending, waiting jobs have at most 2 attempts, processed ones at most 3, deliveries 1 to 3, and attempts exist for pending jobs only |
| `JobQueueRepeats.BoundIsExact` | src/axms_coding_orchestrator/queue.py:85-238 | in any run, no continuation without pushes ever delivers a job beyond the third time if and only if no job is pushed that is still pending once a pending first recovery is complete |
| `JobQueueRepeats.RepeatBreaksBound` | src/axms_coding_orchestrator/queue.py:166-238 | after a push that is not allowed some continuation without pushes hands out a delivery beyond the third; a first recovery is always completed before anything is taken |
| `JobQueueRepeats.FourthDelivery` | src/axms_coding_orchestrator/queue.py:138-148 | one job pushed twice onto an idle queue is handed out with attempt 4 in a given run without any crash |
| `JobQueueRepeats.CrashMakesRoom` | src/axms_coding_orchestrator/queue.py:97-106 | after a crash in its third delivery a job is still pending and yet may be pushed, because the first recovery drops the old copy and its attempts |
| `JobQueueBound.DeadLettersAreRecorded` | src/axms_coding_orchestrator/queue.py:183-211 | in every run each dead letter has its failure record, for its job and after three attempts or more |
| `JobQueueOrder.RecoverySorts` | src/axms_coding_orchestrator/queue.py:213-238 | recovery returns exactly the unexhausted entries to the front in order and dead-letters exactly the others |
| `JobQueueOrder.RoundIsThreeSteps` | src/axms_coding_orchestrator/queue.py:217-236 | a round of recovery is three steps of the transition system |
| `JobQueueOrder.RecoveredOldestFirst` | src/axms_coding_orchestrator/queue.py:213-238 | once a recovery of distinct jobs is complete, whatever was pushed, lost or crashed meanwhile, an entry it returned is taken before every entry that had been taken after it and before everything else that waits |
| `JobQueueOrder.TakenInOrder` | src/axms_coding_orchestrator/queue.py:115-125 | a job is not taken before one that waited ahead of it, whatever happens in between |
| `JobQueueOrder.RequeuedGoesLast` | src/axms_coding_orchestrator/queue.py:166-181 | a requeue puts everything that was waiting ahead of the requeued job |
| `JobQueueOrder.RequeuedWaitsItsTurn` | src/axms_coding_orchestrator/queue.py:166-181 | in every run with fresh pushes a requeued job is taken again only after everything that was waiting has been taken |
| `JobQueueClient.ValkeyJobQueue.constructor` | src/axms_coding_orchestrator/queue.py:61-83 | a client begins unconnected over empty lists |
| `JobQueueClient.ValkeyJobQueue.Open` | src/axms_coding_orchestrator/queue.py:85-107 | opening connects only after a complete recovery and closes again otherwise |
| `JobQueueClient.ValkeyJobQueue.Pop` | src/axms_coding_orchestrator/queue.py:115-148 | a pop does what two steps of the transition system do, and delivers the oldest reference with its counted attempt |
| `JobQueueClient.ValkeyJobQueue.Ack` | src/axms_coding_orchestrator/queue.py:150-164 | an acknowledgement removes the delivery and its attempts, and reports success exactly then |
| `JobQueueClient.ValkeyJobQueue.Requeue` | src/axms_coding_orchestrator/queue.py:166-181 | a requeue moves to the back or quarantines as the transition system does, and reports a changed order |
| `JobQueueClient.ValkeyJobQueue.Quarantine` | src/axms_coding_orchestrator/queue.py:183-211 | a quarantined delivery becomes a dead letter with its failure record and loses its attempts |
| `JobQueueClient.ValkeyJobQueue.RecoverRound` | src/axms_coding_orchestrator/queue.py:217-236 | one entry is quarantined when spent and otherwise becomes next in line |
| `JobQueueClient.ValkeyJobQueue.RecoverStale` | src/axms_coding_orchestrator/queue.py:213-238 | the recovery loop ends, empties processing unless a command fails, and counts what it returned to the queue |
| `WorkerProcess.JobProcessor.WithBackoff` | src/axms_coding_orchestrator/service.py:301-327 | a request is repeated only while it fails retryably, at most maxAttempts times, with the doubling delays |
| `WorkerProcess.JobProcessor.ReportSuccess` | src/axms_coding_orchestrator/service.py:329-378 | only a well-formed result under a current lease is reported |
| `WorkerProcess.JobProcessor.ReportFailure` | src/axms_coding_orchestrator/service.py:380-400 | a failure is reported once under a current lease |
| `WorkerProcess.JobProcessor.RunAndReport` | src/axms_coding_orchestrator/service.py:272-294 | the graph runs once its heartbeat started, and its outcome or what was raised is reported |
| `WorkerProcess.JobProcessor.ProcessClaimed` | src/axms_coding_orchestrator/service.py:272-299 | the claimed part of a job: heartbeat, graph, report, and the stop that always happens |
| `WorkerProcess.JobProcessor.ClaimAndProcess` | src/axms_coding_orchestrator/service.py:272-299 | a job that cannot be claimed is given back, and a claimed one processed |
| `WorkerProcess.JobProcessor.ProcessResolved` | src/axms_coding_orchestrator/service.py:268-272 | duplicates of unbound events are acknowledged, everything else needs a claim |
| `WorkerProcess.JobProcessor.Process` | src/axms_coding_orchestrator/service.py:264-299 | the calls and the verdict of processing one job |
| `WorkerOutcomes.PostsAreExact` | src/axms_coding_orchestrator/service.py:264-400 | a claimed job posts exactly what its heartbeat, graph and lease call for: COMPLETED or WAITING_APPROVAL with its approval, or RETRYABLE_FAILURE or PERMANENT_FAILURE with the code of what was raised, and its verdict says how that went |
| `WorkerOutcomes.UnclaimedIsExact` | src/axms_coding_orchestrator/service.py:264-299 | without a claim nothing is posted, and the delivery is acknowledged exactly for a final rejection or an unbound duplicate |
| `WorkerOutcomes.RequestsAreExact` | src/axms_coding_orchestrator/service.py:301-313 | a job is resolved until an answer that is no retryable API failure or the last attempt, with waits of one second doubling up to the maximum |
| `WorkerOutcomes.ClaimsAreExact` | src/axms_coding_orchestrator/service.py:315-327 | claims are repeated in the same way |
| `WorkerProcess.AcknowledgementIsJustified` | src/axms_coding_orchestrator/service.py:264-299 | a profile-bound job is acknowledged exactly when its resolution was finally rejected or one outcome was accepted; never two; each right after a successful lease check |
| `WorkerProcess.SecondOutcomeNeedsCrash` | src/axms_coding_orchestrator/service.py:282-294 | a second outcome is posted only after the graph outcome was answered by a fault that is no API failure, so a lost reply never leads to a second post |
| `WorkerProcess.OutcomesAreTruthful` | src/axms_coding_orchestrator/service.py:329-400 | every outcome is posted for the obtained claim and says what happened: the graph status, or class and code of a fault that occurred |
| `WorkerProcess.HeartbeatIsStopped` | src/axms_coding_orchestrator/service.py:297-299 | a heartbeat starts exactly when a claim was obtained, and stopping it is the last call |
| `WorkerLoop.WorkerLoop.Settle` | src/axms_coding_orchestrator/service.py:247-262 | settling removes at most the delivery itself, and only by acknowledging it; without a fault an acknowledged delivery is gone, and one given back waits behind everything else or is a dead letter after its third attempt |
| `WorkerLoop.WorkerLoop.Turn` | src/axms_coding_orchestrator/service.py:231-262 | in one turn the queue loses at most one reference: poison, or one whose processing gave the verdict to acknowledge; without faults the whole queue after the turn follows from the verdict |
| `LeaseHeartbeat.LeaseHeartbeatManager.EnsureCurrent` | src/axms_coding_orchestrator/heartbeat.py:64-72 | a check reads the current record, its lost code and its expiry |
| `LeaseHeartbeat.LeaseHeartbeatManager.Stop` | src/axms_coding_orchestrator/heartbeat.py:74-81 | a stop detaches the current record and signals its thread |
| `LeaseHeartbeat.LeaseHeartbeatManager.Start` | src/axms_coding_orchestrator/heartbeat.py:47-62 | a start stops the previous record and makes a new one current |
| `LeaseHeartbeat.LeaseHeartbeatManager.OnReply` | src/axms_coding_orchestrator/heartbeat.py:89-122 | a thread's answer is handled as the transition system's step |
| `LeaseHeartbeat.RecordsOnlyAge` | src/axms_coding_orchestrator/heartbeat.py:89-122 | under every interleaving a lost lease is never revived and a replaced record never changes or becomes current again |
| `LeaseHeartbeat.ExpiryIsVouched` | src/axms_coding_orchestrator/heartbeat.py:47-62 | every expiry the manager goes by was given by the control plane for that very record |
| `LeaseHeartbeat.CheckIsSafe` | src/axms_coding_orchestrator/heartbeat.py:64-72 | a check succeeds exactly for the current record of the claimed lease, unexpired and not lost, and then the control plane vouched beyond the present |
| `LeaseHeartbeat.CheckIsExact` | src/axms_coding_orchestrator/heartbeat.py:64-72 | in every interleaving a check finds the code that lost the lease, a conflict when no record of it is current or the last word of the control plane has run out, and else nothing |
| `LeaseHeartbeat.ExpiryIsLastVouched` | src/axms_coding_orchestrator/heartbeat.py:103-108 | the manager goes by the last expiry that was given for the record while it was current |
| `LeaseHeartbeat.LossIsExact` | src/axms_coding_orchestrator/heartbeat.py:108-122 | a lease is lost exactly when a final rejection came, or any failure after it had expired |
| `LeaseHeartbeat.GrantLasts` | src/axms_coding_orchestrator/heartbeat.py:103-108 | after a granted heartbeat checks succeed exactly until the granted time, while the record stays current |
| `LeaseHeartbeat.StoppingStays` | src/axms_coding_orchestrator/heartbeat.py:74-81 | a record that was told to stop stays so and is never current again |
| `LeaseHeartbeat.StoppedThreadEnds` | src/axms_coding_orchestrator/heartbeat.py:89-103 | a thread that was told to stop ends at its next wake, and any other calls |
| `LeaseHeartbeat.LossIsFinal` | src/axms_coding_orchestrator/heartbeat.py:108-115 | once a lease was finally rejected, every later check against its record fails with that code |
| `LeaseHeartbeat.PassingFailureKeepsLease` | src/axms_coding_orchestrator/heartbeat.py:108-122 | a passing failure leaves an unexpired lease and what a check finds as they were |

## Left out

- HTTP transport, credentials and response-envelope parsing of the gateways and domain clients: they only carry the replies that the model takes as arbitrary.
- LangGraph, the Postgres checkpoint store and its encryption: replaced by the atomic step interface under Assumptions.
- Observability, monitoring and health reporting (including `last_error_code`): they do not influence results.
- The legacy read-file graph in `graph.py` and the router that selects it: a fixed line whose delivery logic the snapshot runner repeats in richer form.
- Handler registration, configuration validators and the build-time checks of `SnapshotGraphBuilder.compile`: a graph that does not compile never runs, and the lemmas about runs hold for every accepted snapshot.
- `_invocation` context checks in the graph builder: a refused context is one of the failures that a handler reply may stand for.
- Regular-expression checks of commit ids, digests, branch names and timestamps in stage payloads; `CodingStages` keeps the structural checks of each receipt and treats such texts as opaque.
- The coding approval handlers and the actor-role comparison: decisions enter the log as arbitrary approved or rejected entries, so provenance does not rely on those checks.
- Exact error messages; the model keeps the error classes and, for validation, which rule is broken first.
- The JSON text layer (duplicate keys, canonical bytes) around `SnapshotDocument`.
- `node_runtime.py`: its freezing repeats that of the snapshot without the execution-context rule.
- The worker loop's endless repetition and its waits: `WorkerLoop.Turn` is one turn, and the queue lemmas speak about all sequences of commands.
- The acknowledgement rule of the natural CMS worker loop, a case distinction on error classes.
- Several consumers on one queue: startup recovery assumes a single one.
- Joining a stopped heartbeat thread with a timeout: a stopped thread may act arbitrarily late in the model, which covers both outcomes.
- WorkerProcess.AcknowledgementIsJustified: "accepted" means that the outcome call returned; an outcome that Spring accepted while its reply was lost counts as not accepted. It is not posted again under the same claim, and the repeated delivery is Spring's to recognise.
- The natural CMS default snapshot as a document: its graph is the list of edges in `NaturalCmsAnswers`.
- JobQueueBound.DeliveryBound: states the bounds while no pending job is pushed again; `JobQueueRepeats.BoundIsExact` is the exact condition for the deliveries.
- DeliveredSteps.FinishedForever: takes a state update to leave the graph where it stands, as the other assumptions about the engine do.
- ReworkBudget.BudgetIsExact: the stages' own demands on results and decisions are not part of these runs; what a stage's executor and the coding domain answer is arbitrary. A snapshot with two gates is not covered.
- Distinct ids of the fourteen events in `TwoPullRequests`: any distinct texts serve; that executions of a run have distinct ids is `CodingRuns.ResultsFollowExecutions`.
