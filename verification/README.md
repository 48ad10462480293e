# Verified model of the Codex orchestrator

This project models the parts of the orchestrator whose behaviour spans many calls, and proves what they keep over
every input and every run. To verify it, use `dafny verify dfyconfig.toml`.

Five systems are modelled.

1. **Merge and rollback** (`Options`, `Text`, `Git`, `Outcomes`, `Executors`, `Ledger`, `LedgerKeys`, `Dispatch`,
   `OperatorDecision`, `ExecutorAnswers`, `DispatchAnswers`, `OperatorAnswers`, `ProtocolRuns`, `ProtocolTheorems`,
   `ProtocolRecords`, `ProtocolLimits`, `FreshDirectory`). A commit is an immutable value with ordered parents and a
   tree; its id is its content. A checkout has HEAD attached to one branch and a map of refs. The ledger is six tables
   with upserts; every git command, read and write may fail. `ProtocolRuns.Exec` runs any sequence of dispatches, operator
   decisions and outside moves over any number of checkouts that share one ledger, and keeps a log of the commits that
   executors really made, whatever was reported. The one assumption about everybody else is `ProtocolRuns.Advances`: no
   checkout vanishes and HEAD only moves to a descendant. The gate's verdict is a free input.
2. **Bridge** (`Bridge`, `BridgeAnswers`). Task states, partial identities, resets and a request file that changes; once
   with whole handlers, once with every handler split into reading the document, seeing the request file, and a later write.
3. **Codex loop** (`CodexLoop`, `CodexAnswers`). Execution, one longer timeout, validation and repair, driven by an
   arbitrary oracle; the repair budget is any natural number.
4. **Policy gate** (`Values`, `Policies`, `PolicyLoader`, `GatePolicy`, `ChangedPaths`, `SortedTexts`, `GithubSnapshot`,
   `MergeGate`, `MergeGateTheorems`, `MergeGateOutcome`, `PolicyAnswers`, `GithubAnswers`, `GateAnswers`). From the policy
   document and the GitHub state to progression, lifecycle and write authority, failure type and retry advice. `fnmatch` is
   an arbitrary relation.
5. **Delivery, schedules and accounting** (`Delivery`, `DeliveryAnswers`, `OperatorSchedules`, `ScheduleAnswers`,
   `Accounting`, `AccountingAnswers`, `Correction`, `CorrectionAnswers`).

Where the source changes state step by step, a class or method does the same and is proved equal to a specification
function; the theorems are about those functions. The modules whose name ends in `Answers` say, exactly and case by
case, what these functions answer in terms of the fields and words they are given; `TextAnswers` does so for stripping,
lower case and the order of texts.

## What turned out to be false or surprising

- A duplicate dispatch of a merged candidate overwrites the `succeeded` row with `skipped` and the trace with an
  ineligible one: no checkout moves, but the merge can no longer be rolled back by either entry point
  (`ProtocolTheorems.DuplicateErasesEligibility`). In general an eligible trace survives a dispatch exactly when the
  dispatch does not derive it again from an attempt that did not succeed (`ProtocolTheorems.EligibilitySurvivesIff`); in
  the checkout that made the merge, exactly when it does not derive it again at all
  (`ProtocolTheorems.DuplicateCostsRollbackIff`), and what is lost there stays lost (`ProtocolTheorems.LostStaysLost`).
  So at-most-once cannot rest on that row; it rests on the id guards and on history that only deepens.
- At-most-once holds per checkout. The ledger does not stop a second clone (`ProtocolLimits.OneCandidateTwoCheckouts`),
  and one reset of HEAD breaks it (`ProtocolLimits.ResetMergesAgain`); `ProtocolTheorems.MergeLogsIff` says exactly when a
  dispatch makes a merge commit.
- The same holds of rollbacks: per checkout a trace is reverted once, but a duplicate rollback overwrites the `succeeded`
  row with `skipped`, and another clone can then revert the same trace (`ProtocolRecords.RollbackRowSurvivesIff`,
  `ProtocolLimits.OneTraceTwoCheckouts`).
- The merge lands on the checked-out branch, and reaches `target_ref` exactly when HEAD is attached to it
  (`MergeExecutor.MergeReachesTargetIffAttached`).
- A merge needs a passed verdict on its candidate in some dispatch of the run, not in its own
  (`ProtocolRecords.LoggedMergeWasRecorded`, `ProtocolRecords.PastTargetCheckIff`,
  `ProtocolLimits.LaterDispatchNeedsNoVerdict`).
- Interleaved bridge handlers keep every document legal but can lose an update and offer a prompt twice, through a stale
  document (`BridgeInterleaved.StaleWriteOffersAgain`) or a stale snapshot of the request file
  (`BridgeStale.StaleSnapshotOffersAgain`). A handler's write offers a request exactly when it resets, writes another
  task's identity, or took the task to be ready and does not move it on, however old what it saw is
  (`BridgeStale.FinishOffersIff`, `BridgeStale.RunOffersIff`); with whole handlers exactly a reset or a conflicting post
  offers it again (`BridgeAtomic.OfferedAgainIff`).
- A snapshot that is ready is approved, but not conversely: a draft marked `clean`, or an artifact standing in for a
  failed live fetch, is approved though the snapshot says blocked (`MergeGateTheorems.ReadyAgainstApproved`,
  `MergeGateTheorems.ApprovedThoughBlocked`).
- A category's `required_tests` and `requires_ci_green` never change the gate's progression
  (`MergeGateTheorems.CategoryTestsHaveNoEffect`).
- A window can be notified more than once not only after an aborted run but also when the saved state file cannot be read
  (`Delivery.NotificationsBalance`, `Delivery.NotificationsAreBounded`, `Delivery.BoundIsMetUnread`).
- A state file cut inside a character stops all delivery: reading it raises an exception the loader does not catch
  (`Delivery.GarbledStopsDelivery`).
- While write authority is off, as it is by default, the gate gives every change a failure type, and advises a retry or an
  escalation (`MergeGateOutcome.DisabledAlwaysFails`).
- Changed dot files lose their dot in git accounting (`Accounting.PathKeptIff`, `Accounting.DotFilesLoseTheirDot`).
- In live mode the overview counts the repository's lines once per unit (`Correction.LiveOverviewMultiplies`), and
  refreshing a second time replaces what Codex reported by the corrected numbers (`Correction.CorrectionSettles`).
- A text such as `--5` passes the digit test of two integer readers and then raises (`Values.DoubleDashRaises`): of
  the texts in ASCII exactly those with two dashes or more in front of digits do (`Values.RaisesIff`). The live GitHub
  backend raises on such a pull request number in the artifact even when the fetch is good
  (`GithubSnapshot.LiveRaisesIff`).
- Normalising a path is not idempotent: a second dot-slash, or white space behind the first, is only dropped the next
  time (`ChangedPaths.NormalSettlesIff`, `ChangedPaths.NormalNeedNotSettle`).

## Model

| member | source | states |
|---|---|---|
| Git.AncestorTransitive | orchestrator/merge_executor.py:105-125 | ancestry through any parent is transitive |
| Git.AncestorHeight | orchestrator/merge_executor.py:94-100 | a proper ancestor is strictly shallower, so a HEAD that was left never comes back while HEAD only advances |
| Git.UndoOnTop | orchestrator/rollback_executor.py:112-130 | the three-way merge of a revert, applied on the very tree the merge produced, has no conflict and gives the first parent's tree |
| GitCommands.GitWorkTree.Merge | orchestrator/merge_executor.py:127-145 | a merge that commits puts one two-parent commit on the checked-out branch; a failed one moves nothing |
| GitCommands.GitWorkTree.Revert | orchestrator/rollback_executor.py:112-130 | a revert puts one commit with the three-way result on the branch; conflict, no parent or no change moves nothing |
| MergeExecutor.ExecuteConstrainedMerge | orchestrator/merge_executor.py:34-167 | guards in order, merge, post-check: result and new checkout for every answer git may give |
| MergeExecutor.MergeMovesHeadExactly | orchestrator/merge_executor.py:86-167 | HEAD moves only by a two-parent commit on top of `base_sha`, with target at HEAD and a source not yet merged |
| MergeExecutor.MergeMovesIff | orchestrator/merge_executor.py:86-145 | HEAD moves exactly when no guard refuses and git commits |
| MergeExecutor.SucceededMeansMoved | orchestrator/merge_executor.py:127-167 | `succeeded` exactly when HEAD moved and could be read back, and the ids reported are those of HEAD; `skipped` exactly when not attempted |
| MergeExecutor.MergeReachesTargetIffAttached | orchestrator/merge_executor.py:86-100 | the target ref carries the merge exactly when it is the checked-out branch |
| RollbackExecutor.ExecuteConstrainedRollback | orchestrator/rollback_executor.py:34-155 | guards in order, revert, post-check: result and new checkout for every answer git may give |
| RollbackExecutor.RollbackRestoresFirstParent | orchestrator/rollback_executor.py:86-155 | a revert that moves HEAD leaves a child of the named merge with exactly its first parent's tree; `succeeded` exactly then and readable |
| RollbackExecutor.RollbackMovesIff | orchestrator/rollback_executor.py:86-130 | HEAD moves exactly when no guard refuses, git runs the revert, and the commit changed its first parent's tree |
| RollbackExecutor.RollbackSucceedsExactly | orchestrator/rollback_executor.py:86-155 | with git healthy, success exactly when HEAD is the named merge, the target is there, and the merge changed the tree |
| ExecutorAnswers.RefMeaning | orchestrator/merge_executor.py:21-27 | a ref is taken as it stands when it is full or blank, else as the branch of that name |
| ExecutorAnswers.MergeAnswer | orchestrator/merge_executor.py:34-167 | the whole answer: skipped with the word of the first obstacle that stands, in the order of the code, or tried, with the new HEAD and every field of the result |
| ExecutorAnswers.RollbackAnswer | orchestrator/rollback_executor.py:34-155 | the same for a rollback |
| LedgerKeys.CandidateKeysDistinct | orchestrator/ledger.py:159-174 | equal candidate key texts exactly for equal stripped identities, all but the last field on one line |
| LedgerKeys.AttemptKeysDistinct | orchestrator/ledger.py:177-199 | equal attempt keys exactly for equal attempts, null and empty alike, even with a many-line git error |
| LedgerKeys.TraceIdsDistinct | orchestrator/ledger.py:202-216 | equal trace ids exactly for equal candidate, pre- and post-merge ids |
| LedgerKeys.LineBreaksCollide | orchestrator/ledger.py:159-174 | the one-line condition is needed: two different identities with the same key text |
| LedgerKeys.OtherReceiptsStay | orchestrator/ledger.py:479-577 | with receipts keyed by the joined text, recording any one-line attempts leaves every differing attempt's receipt alone, even with many-line git errors |
| LedgerKeys.LastReceiptStands | orchestrator/ledger.py:479-577 | each attempt's receipt is the row it was last recorded with |
| Ledger.ReceiptsStayPut | orchestrator/ledger.py:444-578 | in the tables, where a key is its fields, re-recording an attempt touches one receipt and no other table, and repeats itself |
| Ledger.TargetKeepsLinks | orchestrator/ledger.py:357-441 | recording a target keeps every link between tables |
| Ledger.ReceiptKeepsLinks | orchestrator/ledger.py:494-578 | recording a receipt keeps every link |
| Ledger.MergeKeepsLinks | orchestrator/ledger.py:581-688 | recording a merge outcome keeps every link |
| Ledger.TraceKeepsLinks | orchestrator/ledger.py:770-920 | deriving a trace keeps every link; eligible exactly when no reason is given |
| Ledger.RollbackKeepsLinks | orchestrator/ledger.py:994-1091 | recording a rollback outcome keeps every link |
| Ledger.LedgerStore.PutTarget | orchestrator/ledger.py:357-441 | upsert under the candidate key, or nothing |
| Ledger.LedgerStore.PutReceipt | orchestrator/ledger.py:444-578 | upsert under the attempt key when a target with the same identity is on record, or nothing |
| Ledger.LedgerStore.PutMerge | orchestrator/ledger.py:581-688 | upsert under the candidate key, or nothing |
| Ledger.LedgerStore.PutTrace | orchestrator/ledger.py:754-920 | the trace derived from target and merge row, with its eligibility, or nothing |
| Ledger.LedgerStore.PutRollback | orchestrator/ledger.py:976-1091 | upsert under the trace id when that trace is on record, or nothing |
| Dispatch.RunDispatch | orchestrator/main.py:302-657 | one dispatch: record, merge, receipt, trace, rollback, over every failure of a read, write or git command; what that comes to is in `DispatchAnswers`, table by table |
| Dispatch.DispatchMerge | orchestrator/main.py:350-463 | duplicate check against the stored row, else the executor; the row is written in both cases |
| Dispatch.WriteReceiptAndTrace | orchestrator/main.py:465-537 | receipt for the attempt just made or the adapter's, then the trace, only after the merge row was written; said of the values in `DispatchAnswers.ReceiptIsWritten` and `DispatchAnswers.TraceIsDerived` |
| Dispatch.DispatchRollback | orchestrator/main.py:539-657 | the checks of the first rollback entry point in order, then the executor, then the row |
| DispatchAnswers.RecordAnswers | orchestrator/main.py:302-347 | job and target row of a dispatch, and the flags that report them |
| DispatchAnswers.MergeIsReported | orchestrator/main.py:350-463 | what a dispatch reports of a merge in every case, and that the row on record is the outcome reported |
| DispatchAnswers.ReceiptIsWritten | orchestrator/main.py:465-505 | exactly one receipt, of the outcome reported when a merge was tried for a named candidate, else of the adapter's signal, if any; under the key of those values, no other receipt touched |
| DispatchAnswers.TriedMergeHasReceipt | orchestrator/main.py:465-505 | so a merge that was tried and can be recorded never goes without its receipt |
| DispatchAnswers.TraceIsDerived | orchestrator/main.py:507-537 | a trace is derived exactly when the merge row was just written, from its columns and with that receipt, and reported as it stands |
| DispatchAnswers.RollbackIsReported | orchestrator/main.py:539-657 | the answer to a rollback request, first obstacle first, and every column of its row |
| OperatorDecision.ApplyOperatorDecision | scripts/operator_review_decision.py:138-316 | the second entry point: resolution, decision, rollback, row and log line |
| OperatorDecision.SameLedgerCondition | scripts/operator_review_decision.py:202-287 | on a linked ledger both entry points reach the executor under the same condition, but for the repository |
| OperatorDecision.BookkeepingOnly | scripts/operator_review_decision.py:138-200 | every decision but rollback leaves ledger and checkouts alone |
| OperatorAnswers.OtherDecisionsAnswer | scripts/operator_review_decision.py:105-316 | error, effect and log flag of keep, retry, escalate, unsupported and a rollback without a trace, and what each leaves alone |
| OperatorAnswers.RollbackDecisionAnswers | scripts/operator_review_decision.py:202-316 | the answer of a rollback decision for the trace found, by id or by job, with its row and log flag |
| ProtocolRuns.StepRunsDispatch | orchestrator/main.py:302-657 | a dispatch step of a run is the dispatch of `Dispatch`, on the checkout it names |
| ProtocolRuns.StepKeeps | orchestrator/main.py:302-657 | every step keeps linkage, history and the truth of succeeded rows and eligible traces |
| ProtocolRuns.ReachableInv | orchestrator/ledger.py:357-1091 | so they hold in every reachable state |
| ProtocolTheorems.AtMostOneMergePerCandidate | orchestrator/main.py:389-463 | in one checkout no two merge commits ever start from the same base, so none share a candidate |
| ProtocolTheorems.AtMostOneRevertPerTrace | orchestrator/rollback_executor.py:98-100 | in one checkout at most one revert per trace id over both entry points, whatever the ledger lost |
| ProtocolTheorems.EligibleTraceNamesRealMerge | orchestrator/ledger.py:784-830 | an eligible trace names a merge an executor made: two parents, the first being `pre_merge_sha`, which is `base_sha` |
| ProtocolTheorems.CliRollbackIsExact | orchestrator/main.py:539-657 | a dispatch reporting a succeeded rollback left HEAD a child of the named merge with the tree of `pre_merge_sha` |
| ProtocolTheorems.OperatorRollbackIsExact | scripts/operator_review_decision.py:202-287 | so did an operator decision reporting one |
| ProtocolTheorems.SucceededRowsAreTrue | orchestrator/ledger.py:581-688 | every `succeeded` row, of a merge or a rollback, is backed by a commit git made |
| ProtocolTheorems.NoSilentMoves | orchestrator/main.py:350-657 | a step of the program that logs no effect moves no checkout |
| ProtocolTheorems.DuplicateErasesEligibility | orchestrator/main.py:398-439 | with a healthy ledger, after a duplicate the row says `skipped`, the trace keeps its id and is ineligible, and both entry points refuse |
| ProtocolTheorems.TraceAfterDispatch | orchestrator/main.py:350-537 | any trace after any dispatch: derived again and eligible exactly if the attempt just made succeeded, or untouched |
| ProtocolTheorems.EligibilitySurvivesIff | orchestrator/main.py:350-537 | exactly when an eligible trace is still eligible after a dispatch, over every failure of reads, writes and git |
| ProtocolTheorems.NoSecondSuccess | orchestrator/merge_executor.py:94-100 | in the checkout that made the merge no later attempt succeeds, whatever the ledger says |
| ProtocolTheorems.DuplicateCostsRollbackIff | orchestrator/main.py:389-537 | there an eligible trace survives a dispatch exactly when the dispatch does not derive it again |
| ProtocolTheorems.LostStaysLost | orchestrator/main.py:389-537 | and once ineligible it stays so over every legal run in that checkout |
| ProtocolTheorems.MergeLogsIff | orchestrator/main.py:350-463 | the merge step makes its one commit exactly when target, prior row, guards and git allow it |
| ProtocolTheorems.DuplicateMovesNothing | orchestrator/main.py:398-439 | a duplicate whose prior row can be read moves no checkout and makes no commit, whatever else fails |
| ProtocolRecords.RollbackLogsIff | orchestrator/main.py:539-657 | the rollback step of a dispatch makes its one commit exactly when trace, ledger, guards and git allow it |
| ProtocolRecords.DecisionLogsIff | scripts/operator_review_decision.py:202-287 | so does an operator decision, which does not compare repositories |
| ProtocolRecords.RollbackRowSurvivesIff | orchestrator/main.py:602-653 | exactly when a `succeeded` rollback row survives a rollback request of a dispatch |
| ProtocolRecords.DecisionRowSurvivesIff | scripts/operator_review_decision.py:227-279 | exactly when it survives an operator decision |
| ProtocolRecords.DuplicateRollbackForgets | orchestrator/main.py:602-653 | a duplicate that can read the row forgets the success, by either entry point |
| ProtocolRecords.TargetsAreRecorded | orchestrator/main.py:327-347 | over any run a target is on record exactly when some dispatch with a passed verdict recorded it |
| ProtocolRecords.PastTargetCheckIff | orchestrator/main.py:350-390 | a dispatch gets past the target check exactly when its own or an earlier dispatch recorded the candidate |
| ProtocolRecords.LoggedMergeWasRecorded | orchestrator/main.py:327-463 | every merge of a run has a dispatch that carried a passed verdict for its candidate, and a target row |
| ProtocolLimits.OneCandidateTwoCheckouts | orchestrator/main.py:389-463 | a legal run that makes two different merge commits of one candidate, in two clones |
| ProtocolLimits.ResetMergesAgain | orchestrator/merge_executor.py:94-100 | after a duplicate and one reset to the base, which is no legal outside move, the same checkout makes a second, different merge commit of the candidate |
| ProtocolLimits.OneTraceTwoCheckouts | scripts/operator_review_decision.py:227-279 | a legal run that makes two different reverts of one trace, in two clones |
| ProtocolLimits.LaterDispatchNeedsNoVerdict | orchestrator/main.py:314-376 | a dispatch without a passed verdict merges a candidate recorded earlier |
| ProtocolLimits.MergeThenRollback | scripts/operator_review_decision.py:202-287 | the guarantees are not empty: a legal run that merges and rolls exactly that merge back |
| FreshDirectory.FindFresh | orchestrator/main.py:117-123 | the first unused name, within one probe more than there are names |
| FreshDirectory.CandidatesDiffer | orchestrator/codex_execution.py:298-304 | no two suffixes give the same name |
| Bridge.BridgeServer.DoPost | scripts/chatgpt_bridge_server.py:299-453 | each post writes the handled document, and a result its response text; the document field by field is in `BridgeAnswers` |
| BridgeInterleaved.StepKeepsSound | scripts/chatgpt_bridge_server.py:224-240 | any read or write step keeps every document and every pending read sound |
| BridgeInterleaved.EveryWrittenDocumentIsSound | scripts/chatgpt_bridge_server.py:299-453 | under any interleaving every written document has a legal state, and attempts 0 when ready, 1 when in progress or saved, at most 1 always |
| BridgeInterleaved.StaleWriteOffersAgain | scripts/chatgpt_bridge_server.py:299-453 | two interleaved handlers after which a running prompt is offered again |
| BridgeAtomic.PostMovesView | scripts/chatgpt_bridge_server.py:106-183 | what one post does to the state of the current request, in every case: the table's move, or ready after a reset or a conflicting post |
| BridgeAtomic.OfferedAgainIff | scripts/chatgpt_bridge_server.py:186-221 | a request that left ready is offered again exactly by a reset or a conflicting post |
| BridgeAtomic.QuietRunsFollowEdges | scripts/chatgpt_bridge_server.py:20-27 | between those, the state only follows edges of the transition table |
| BridgeAtomic.ConsumedOnlyThroughSaved | scripts/chatgpt_bridge_server.py:161-168 | consumed is reached only through in progress and then response saved |
| BridgeAtomic.NeverOfferedAgain | scripts/chatgpt_bridge_server.py:186-221 | a prompt that has left ready is not offered again |
| BridgeAnswers.QuietPostGoes | scripts/chatgpt_bridge_server.py:20-27 | in states and posted words: from ready, running or sent starts and blocked blocks; from in progress, a result or a saved word or reason saves and blocked blocks; from saved, a consume consumes; every other post leaves the state |
| BridgeAnswers.ViewIs | scripts/chatgpt_bridge_server.py:106-141 | what the state of a request is read from: the document's own task state if it names the request, else its words, else ready |
| BridgeAnswers.MatchesIff | scripts/chatgpt_bridge_server.py:106-118 | two identities match exactly when a field is given in both and every field given in both agrees |
| BridgeAnswers.UnreadIsReady | scripts/chatgpt_bridge_server.py:224-233 | a document that is missing or cannot be read leaves every request ready and never taken |
| BridgeAnswers.DocumentIs | scripts/chatgpt_bridge_server.py:299-420 | identity, state and attempt count of the document written, for any request and any existing document |
| BridgeAnswers.WordsAre | scripts/chatgpt_bridge_server.py:315-420 | its status and reason |
| BridgeAnswers.RefusedIs | scripts/chatgpt_bridge_server.py:340-343 | a move is noted as refused exactly when the task is not where the post wanted it |
| BridgeAnswers.ResetIs | scripts/chatgpt_bridge_server.py:422-450 | a reset forgets all but the current request, which is ready; without one the task is consumed |
| BridgeStale.FinishOffersIff | scripts/chatgpt_bridge_server.py:299-453 | a handler's late write offers a request exactly when it resets, writes another task's identity, or took the task to be ready and does not move it on |
| BridgeStale.CarelessAbout | scripts/chatgpt_bridge_server.py:91-168 | in terms of post, snapshot and document read: a stale snapshot of another request is as bad as a conflicting post, a stale document as bad as no move |
| BridgeStale.CarelessWithCurrentSnapshot | scripts/chatgpt_bridge_server.py:91-168 | with a current snapshot only resets, conflicting posts and stale documents are left |
| BridgeStale.StaleSnapshotOffersAgain | scripts/chatgpt_bridge_server.py:348-378 | a handler that saw the earlier request puts the later one, already in progress, back on offer |
| BridgeStale.RunOffersIff | scripts/chatgpt_bridge_server.py:299-453 | over any interleaving, with requests coming and going, some written document offers a request exactly when some handler finishes like that |
| BridgeStale.FreshReadsNeverOffer | scripts/chatgpt_bridge_server.py:186-221 | once the prompt has left ready, and every pending handler read that and has seen no other request, no interleaving of quiet handlers offers it again while the request stands |
| CodexLoop.TimeoutRetrySeconds | orchestrator/codex_execution.py:45-48 | the longer timeout exists exactly below 18000 seconds, is longer, and is the larger of twice and 1800 more, capped |
| CodexLoop.ExecutePrepared | adapters/codex_cli.py:370-443 | ends for every oracle; calls, attempts, repairs, retries and granted seconds within the budgets; the result agrees with the history; its labels by cases are in `CodexAnswers` |
| CodexLoop.RunLoop | adapters/codex_cli.py:370-428 | the loop itself: stops at the first attempt that is not repairable or when the budget is spent |
| CodexLoop.RunAttempt | adapters/codex_cli.py:372-402 | one attempt, with the one retry given to the first timeout only |
| CodexLoop.HistoryFixesResult | adapters/codex_cli.py:370-443 | the answers of Codex and the validator determine status, attempts, retry, repair and both labels |
| CodexLoop.NoReviewIff | adapters/codex_cli.py:262-275 | no review exactly for a completed run with validation deferred or a single full pass |
| CodexLoop.AfterRetryIff | adapters/codex_cli.py:233-259 | either after-retry label exactly when repair ran and the run completed, by whether the last verdict passed in full or failed |
| CodexLoop.LabelKnown | adapters/codex_cli.py:262-275 | the recommendation never raises on a label the loop can produce |
| CodexAnswers.LabelIff | adapters/codex_cli.py:233-259 | each of the six labels, exactly: by completion, repair and the last verdict |
| CodexAnswers.RecommendationIff | adapters/codex_cli.py:262-275 | each of the three recommendations, exactly |
| CodexAnswers.RepairIff | adapters/codex_cli.py:404-443 | the outcomes of repair and retry, by whether repair ran and how the last attempt ended |
| CodexAnswers.StopsIff | adapters/codex_cli.py:404-428 | a further attempt follows exactly a completed attempt with a failure that can be acted on, within the budget |
| CodexAnswers.StatusIs | adapters/codex_cli.py:372-402 | the status reported is the last attempt's, or its retry's if it was the first to time out |
| CodexAnswers.RecordTells | adapters/codex_cli.py:210-230 | number, repair mark, status and verdict in the record of each attempt |
| PolicyLoader.CollectTexts | orchestrator/policy_loader.py:48-58 | the loop builds exactly the stripped non-blank texts in order |
| PolicyLoader.CollectThresholds | orchestrator/policy_loader.py:95-131 | the loop over categories stops at the first entry it does not understand; later entries replace in place |
| GatePolicy.CollectThresholds | orchestrator/merge_gate.py:119-154 | the lenient loop passes such entries over |
| GatePolicy.GateReadingIsTidy | orchestrator/merge_gate.py:58-224 | whatever the document, the gate acts on clean texts, unique categories, non-empty defaults and lower-case extensions |
| GatePolicy.GateReadingSettles | orchestrator/merge_gate.py:58-224 | reading its own result again changes nothing |
| GatePolicy.LoaderAndGateAgree | orchestrator/policy_loader.py:207-315 | on every document the loader accepts the gate acts on the loaded policy up to lower-cased extensions, from the loaded policy and from the document alike |
| PolicyAnswers.RefusedIff | orchestrator/policy_loader.py:208-315 | exactly which documents the loader refuses: by the kinds of value in their fields |
| PolicyAnswers.SwitchesAre | orchestrator/merge_gate.py:58-59 | a check is off only when its switch is there and false |
| PolicyAnswers.WriteSectionIs | orchestrator/merge_gate.py:169-188 | writing is off, dry and stopped unless the document says otherwise; the allowed categories and sufficient states, with their defaults |
| PolicyAnswers.RetrySectionIs | orchestrator/merge_gate.py:191-224 | the retry budget, 2 by default, and the retriable failures, with their defaults |
| PolicyAnswers.AutoSectionIs | orchestrator/merge_gate.py:69-166 | categories, patterns and limits of automatic progression |
| PolicyAnswers.ExtensionsAre | orchestrator/merge_gate.py:162 | the binary extensions are those listed, in lower case |
| PolicyAnswers.ThresholdIs | orchestrator/merge_gate.py:119-154 | the last entry with a name and a mapping counts for its category; a category without one has none |
| PolicyAnswers.ThresholdSays | orchestrator/merge_gate.py:129-153 | limits, paths and tests of one entry |
| Values.RaisesIff | orchestrator/github_backend.py:556-565 | the digit test lets an ASCII text through to a failing conversion exactly when two dashes or more stand in front of digits |
| Values.DoubleDashRaises | orchestrator/github_backend.py:556-565 | a text that raises |
| GithubSnapshot.BuildSnapshot | orchestrator/github_backend.py:197-271 | the snapshot with every obstacle in order; the exception exactly when one of four counts is a double-dashed text; its words by cases are in `GithubAnswers` |
| GithubAnswers.ReadyIffFit | orchestrator/github_backend.py:197-271 | collecting gives a ready snapshot exactly when the counts can be read and state, target, checks, review, mergeability, draft mark and backend raise no obstacle, all of it said of the raw fields |
| GithubAnswers.ChecksMeaning | orchestrator/github_backend.py:403-431 | each word of the checks, exactly: the explicit one, else failing, pending, passing or unknown from the lists |
| GithubAnswers.ReviewMeaning | orchestrator/github_backend.py:434-461 | each word of the review, exactly: the explicit one, else from changes requested, approvals and required approvals |
| GithubAnswers.MergeabilityMeaning | orchestrator/github_backend.py:464-489 | each word of mergeability, exactly: the explicit one, else from the draft mark and the merge flag |
| GithubAnswers.TargetMeaning | orchestrator/github_backend.py:360-400 | repository and target ref are the first given name in order |
| GithubAnswers.SnapshotMeaning | orchestrator/github_backend.py:197-271 | progress and fields; the obstacles are those that stand, in order, then the new ones the backend added, none twice |
| GithubAnswers.LiveAnswer | orchestrator/github_backend.py:76-152 | the fetched state if there is one, else the artifact's, with an obstacle for a missing state and one for a failed fetch |
| GithubAnswers.ViewMeaning | orchestrator/merge_gate.py:277-304 | what the gate sees of any signals: availability, target and the three words, with their defaults |
| GithubAnswers.NoSignals | orchestrator/github_backend.py:168-194 | without signals the gate sees nothing available, checks unknown and review pending |
| GithubAnswers.LiveReadyIffFit | orchestrator/github_backend.py:76-152 | the live backend is ready exactly when a fit state was fetched and the artifact's pull request number can be read |
| GithubSnapshot.LiveRaisesIff | orchestrator/github_backend.py:76-152 | it raises exactly on that number, when a fetch is configured, or on a count of the state it ends up with |
| GithubSnapshot.CollectedViewReadsBack | orchestrator/github_backend.py:274-320 | the gate reads back exactly the states the collector derived |
| ChangedPaths.CollectPaths | orchestrator/merge_gate.py:227-237 | the loop over changed files builds the normalised sorted list |
| ChangedPaths.PathsMeaning | orchestrator/merge_gate.py:227-237 | that list is ascending and holds exactly the paths spelled in the input |
| ChangedPaths.SamePathsSameList | orchestrator/merge_gate.py:227-237 | order, repeats and spelling do not matter |
| ChangedPaths.NormalSettlesIff | orchestrator/merge_gate.py:227-237 | normalising again changes nothing exactly when no dot-slash and no white space came to the front |
| ChangedPaths.NormalNeedNotSettle | orchestrator/merge_gate.py:227-237 | both causes occur |
| SortedTexts.SortedSetMeaning | orchestrator/merge_gate.py:237 | the sorted list without repeats is strictly ascending and has the same elements |
| MergeGate.LimitCombines | orchestrator/merge_gate.py:253-257 | the combined limit is exceeded exactly when the overall or the category limit is, zero being no limit |
| MergeGate.CollectObjections | orchestrator/merge_gate.py:404-510 | the reasons are exactly the objections there are, each once and in its place |
| MergeGate.ListIsDetermined | orchestrator/merge_gate.py:404-510 | which leaves exactly one list |
| MergeGate.DeriveProgression | orchestrator/merge_gate.py:404-518 | manual exactly with an objection; otherwise candidate exactly for an auto-PR category; the reasons as above |
| MergeGate.ApprovedIff | orchestrator/merge_gate.py:277-316 | the lifecycle is approved exactly for a candidate on which GitHub agrees in every point |
| MergeGate.DeriveWriteAuthority | orchestrator/merge_gate.py:319-401 | the write state, and the reasons that stand in its way, each once and in order; none exactly when writing is cleared |
| MergeGate.DeriveDecision | orchestrator/merge_gate.py:672-775 | progression, lifecycle and write state from the documents, with their exact reasons |
| MergeGateOutcome.ApplyMergeGate | orchestrator/merge_gate.py:672-775 | the whole answer: decision, pass or fail, reasons, failure type and advice |
| MergeGateOutcome.PassesIff | orchestrator/merge_gate.py:687-719 | it passes exactly when every check that is switched on holds and the category may be merged |
| MergeGateOutcome.FirstOfEachMeaning | orchestrator/merge_gate.py:713-716 | fail reasons lose their repeats and nothing else |
| MergeGateOutcome.NoFailureIff | orchestrator/merge_gate.py:533-584 | nothing is held against a change exactly when it was executed, no fail reason says anything, and writing is cleared |
| MergeGateOutcome.DisabledAlwaysFails | orchestrator/merge_gate.py:533-584 | with write authority off every change has a failure type |
| MergeGateOutcome.AdviceIff | orchestrator/merge_gate.py:587-669 | retry exactly for a retriable failure within the budget, escalate exactly for any other failure |
| MergeGateOutcome.RetriesAreBounded | orchestrator/merge_gate.py:587-669 | over the attempts of a job at most `max_attempts` retries are advised |
| GateAnswers.LifecycleIff | orchestrator/merge_gate.py:277-316 | each of the nine lifecycle labels, exactly, in GitHub's own words |
| GateAnswers.ReasonIff | orchestrator/merge_gate.py:404-510 | each reason against progression is reported exactly when its own condition on rubric, files, lines, limits and patterns holds |
| GateAnswers.ReasonsInOrder | orchestrator/merge_gate.py:404-510 | the order they are listed in |
| GateAnswers.ProgressionIff | orchestrator/merge_gate.py:511-518 | manual exactly with a reason, candidate exactly without one for a listed category; the lifecycle follows from that |
| GateAnswers.WriteIff | orchestrator/merge_gate.py:319-401 | each write state and write reason, exactly |
| GateAnswers.WriteReasonsInOrder | orchestrator/merge_gate.py:319-401 | the order write reasons are listed in |
| GateAnswers.FailIff | orchestrator/merge_gate.py:687-716 | each fail reason is given exactly when a check that is switched on fails with it |
| GateAnswers.FailsInOrder | orchestrator/merge_gate.py:687-711 | the order of the checks, before repeats are dropped |
| GateAnswers.FirstOfEachGrows | orchestrator/merge_gate.py:713-716 | repeats are dropped from the back |
| GateAnswers.FailureIs | orchestrator/merge_gate.py:533-584 | the failure type is the first of seven kinds that applies |
| GateAnswers.BudgetIs | orchestrator/merge_gate.py:587-669 | remaining budget, exhaustion and advice |
| GateAnswers.NamesAre | orchestrator/merge_gate.py:41-48 | the names of the failure types |
| MergeGateTheorems.WriteFollowsLifecycle | orchestrator/merge_gate.py:277-401 | the two derivations coincide: cleared exactly when enabled, no kill switch, category allowed, lifecycle approved and listed |
| MergeGateTheorems.CandidateIff | orchestrator/merge_gate.py:404-518 | a change is a candidate exactly when every test, CI, size, path and category condition holds |
| MergeGateTheorems.WriteAllowedIff | orchestrator/merge_gate.py:672-775 | write permission from the documents, exactly when all authority, policy and GitHub conditions hold |
| MergeGateTheorems.ReadyAgainstApproved | orchestrator/github_backend.py:230-242 | ready is approved plus no draft mark and no added reason, exactly |
| MergeGateTheorems.ApprovedThoughBlocked | orchestrator/github_backend.py:464-489 | two blocked snapshots that are approved |
| MergeGateTheorems.SmallerChangeSameDecision | orchestrator/merge_gate.py:404-518 | a change not left to a human keeps its whole decision when files and lines are dropped |
| MergeGateTheorems.SpellingDoesNotMatter | orchestrator/merge_gate.py:672-775 | the decision depends on the files only through their normalised set |
| MergeGateTheorems.CategoryTestsHaveNoEffect | orchestrator/merge_gate.py:474-487 | a category's tests and CI entries cannot change the progression |
| Delivery.SummaryDelivery.RunScheduled | orchestrator/operator_summary_delivery.py:210-373 | one run over the due schedules: state file, notifications and report for every failure and kill; its entries by the fields of each schedule are in `DeliveryAnswers` |
| Delivery.NotifiedAreNew | orchestrator/operator_summary_delivery.py:229-363 | a run, even cut short, notifies no window it knows and none twice |
| Delivery.RunIsAccounted | orchestrator/operator_summary_delivery.py:226-373 | a completed run answers each due schedule once, in order, and windows grow by the delivery count |
| Delivery.RunBalances | orchestrator/operator_summary_delivery.py:76-98 | what one run notifies is what it leaves on file beyond before plus what it wastes, and waste needs an abort or an unread file |
| Delivery.NotificationsBalance | orchestrator/operator_summary_delivery.py:210-373 | over any runs the notifications of a window are exactly the one on file plus the wasted ones |
| Delivery.NotificationsAreBounded | orchestrator/operator_summary_delivery.py:76-98 | over any runs a window is notified at most once more than the runs that aborted or could not read the saved state |
| Delivery.CalmRunsNotifyOnce | orchestrator/operator_summary_delivery.py:210-373 | while all runs complete and read the file, at most once |
| Delivery.GarbledStopsDelivery | orchestrator/operator_summary_delivery.py:76-89 | a file cut inside a character aborts every run that reads it, without a notification |
| Delivery.BoundIsMet | orchestrator/operator_summary_delivery.py:76-98 | a failed save does cost a second notification |
| Delivery.BoundIsMetUnread | orchestrator/operator_summary_delivery.py:76-98 | so does an unread file |
| DeliveryAnswers.TurnAnswer | orchestrator/operator_summary_delivery.py:229-363 | one due schedule: passed over without an id, an exception, or the one entry its first wrong field means, and what is then sent and notified |
| DeliveryAnswers.RunAnswer | orchestrator/operator_summary_delivery.py:226-373 | a completed run has one entry for each named schedule, each meant by the fields of that schedule and the windows sent before it; written exactly for a new window with job, paths, summary, delivery and notifier and a delivered notification |
| DeliveryAnswers.OneMeaning | orchestrator/operator_summary_delivery.py:229-363 | the outcomes exclude each other and the exceptions |
| DeliveryAnswers.OnlyByNotification | orchestrator/operator_summary_delivery.py:327-354 | a window is newly sent only through a delivered notification, and notified only through one not refused |
| DeliveryAnswers.FileAnswer | orchestrator/operator_summary_delivery.py:76-98 | what a run starts from, whether it returns, and what it leaves on file for every way the save can end |
| OperatorSchedules.ParseIff | orchestrator/operator_schedules.py:28-42 | a value is read as a minute exactly when it is digits, a colon and digits denoting it, below 1440 |
| OperatorSchedules.LabelReadsBack | orchestrator/operator_schedules.py:28-42 | a printed time reads back as itself |
| OperatorSchedules.NormalisingSettles | orchestrator/operator_schedules.py:28-42 | normalising is idempotent and keeps the minute |
| OperatorSchedules.CollectLabels | orchestrator/operator_schedules.py:45-54 | all labels, or a refusal for an empty list or any bad item |
| OperatorSchedules.LoaderAndRuntimeAgree | orchestrator/operator_schedules.py:213-231 | loader and run-time path compute the same times and minutes |
| OperatorSchedules.DueIff | orchestrator/operator_schedules.py:156-182 | due exactly when enabled and some configured value denotes the local minute |
| ScheduleAnswers.LoadedIff | orchestrator/operator_schedules.py:45-54 | the loader takes exactly a non-empty list of values that each denote a minute of the day |
| ScheduleAnswers.RuntimeIs | orchestrator/operator_schedules.py:213-231 | the run-time path raises exactly on a list or tuple with any other value in it, and leaves other triggers as they are |
| ScheduleAnswers.TimeIs | orchestrator/operator_schedules.py:28-42 | a label shows hour and minute in two digits each, and the minute counts from midnight |
| WindowKeys.WindowKeysDistinct | orchestrator/operator_summary_delivery.py:101-107 | equal window keys exactly for equal stripped id, date and minute, even with bars in ids |
| Accounting.NormalizeStringList | scripts/run_planned_execution.py:41-54 | the loop keeps each non-blank text at its first place, sorted on request |
| Accounting.FirstSeenMeaning | scripts/run_planned_execution.py:41-54 | no repeats, nothing blank, nothing lost |
| Accounting.ListsSettle | scripts/run_planned_execution.py:41-54 | normalising again changes nothing, sorted or not |
| Accounting.ParseNumstat | scripts/run_planned_execution.py:159-188 | the entries of all lines with three fields, with normalised paths; the totals are the sums over them |
| Accounting.PathKeptIff | scripts/run_planned_execution.py:82-99 | a relative path is kept exactly when it does not begin with a dot; otherwise its front dots and slashes go |
| Accounting.DotFilesLoseTheirDot | scripts/run_planned_execution.py:82-99 | a path that is not kept |
| Accounting.LineReadsBack | scripts/run_planned_execution.py:159-188 | a line with plain counts reads back with its counts and its path as normalised; only the first two tabs separate |
| AccountingAnswers.SeenGrows | scripts/run_planned_execution.py:41-54 | a further item is listed exactly when its text is not blank and new |
| AccountingAnswers.FieldsIff | scripts/run_planned_execution.py:164-171 | a line has three fields exactly when its first two tabs separate them |
| AccountingAnswers.NoFieldsIff | scripts/run_planned_execution.py:164-171 | and is passed over exactly with fewer than two tabs |
| AccountingAnswers.EndOfLine | scripts/run_planned_execution.py:164-167 | white space at the end of a line does not matter |
| AccountingAnswers.EntryIs | scripts/run_planned_execution.py:172-187 | counts, binary mark and paths of an entry |
| AccountingAnswers.AbsolutePathIs | scripts/run_planned_execution.py:82-99 | an absolute path is taken as it lies below the repository, or not at all |
| AccountingAnswers.QuotedPathIs | scripts/run_planned_execution.py:82-99 | a quoted path is the path in the quotes |
| AccountingAnswers.SpellingIs | scripts/run_planned_execution.py:82-99 | backslashes and white space around do not matter |
| Correction.BuildCorrected | scripts/run_planned_execution.py:283-427 | codex and final triple with source, status and reason in every mode; the exception exactly when a count of the report or of git is a double-dashed text |
| Correction.CorrectionSettles | scripts/run_planned_execution.py:283-427 | a second pass keeps the final triple and is never inconsistent; a third changes nothing |
| Correction.FinalIs | scripts/run_planned_execution.py:380-416 | live, the final triple is git's, else the report; inconsistent exactly when git saw changes other than reported |
| Correction.ResultFiles.Refresh | scripts/run_planned_execution.py:498-600 | all result files corrected in order, and the overview of the records |
| Correction.LiveOverviewMultiplies | scripts/run_planned_execution.py:583-597 | with git accounting in live mode overview lines are the unit count times the repository's, files the repository's once |
| Correction.RefreshSettles | scripts/run_planned_execution.py:517-597 | refreshing twice writes the same files and the same records as once |
| CorrectionAnswers.ReportIs | scripts/run_planned_execution.py:41-65 | the triple read from a report: files ascending and exactly those mentioned, counts from numbers and digits |
| CorrectionAnswers.CorrectedIs | scripts/run_planned_execution.py:283-427 | both triples and the status, exactly, in every mode |
| CorrectionAnswers.ReasonIs | scripts/run_planned_execution.py:283-427 | source and reason of each verdict, exactly |
| CorrectionAnswers.RefreshIs | scripts/run_planned_execution.py:517-597 | refreshing raises exactly when some unit's first result, or git's accounting, cannot be read; else every named unit is rewritten with git's triple in a live run, its own otherwise, and recorded once for each time it is named |
| CorrectionAnswers.OverviewGrows | scripts/run_planned_execution.py:583-597 | each record adds a unit, its lines and its files |
| CorrectionAnswers.OverviewListsIff | scripts/run_planned_execution.py:583-597 | the overview lists exactly the files of its records |

## Left out

- Subprocesses, SQLite, HTTP, files, YAML and JSON: replaced by values, maps and free answers that may fail.
- SHA-256: taken as injective; `LedgerKeys` states which texts it is applied to. A commit id stands for the commit's content.
- Concurrent processes on the merge ledger or on the delivery state file: one dispatch, decision or delivery run is one step.
- A detached HEAD and worktree dirt: HEAD is attached to one branch in every checkout, and local changes only show as git failures.
- What a merge does to a tree: the merged tree is any tree; conflicts are a failed command. A failed merge or revert is taken to be aborted cleanly.
- Ledger texts are taken as already stripped in `Ledger`; several rows with the same time stamp leave the newest trace of a job open.
- `orchestrator/classify.py`, `orchestrator/evaluate.py`, `orchestrator/job_evaluator.py`: the rubric is a free record.
- The echoed fields of the replan input (category, files, states, merged reason list): copies of values proved here.
- Policy and schedule error messages: a refusal does not say where; which of several faults is met first is open.
- Values.RaisesIff: speaks of ASCII; `lower` and `isdigit` act on ASCII letters and digits only, so a superscript digit, which passes the test and fails to convert, is not modelled.
- Time zones and clocks: local date, hour and minute are given.
- Selection of the job for a schedule, summary building and the two notifiers: their answers are inputs of `Delivery.Due`.
- Snapshot fields no decision depends on: head ref, commit ids, pull request number and URL (but for a number that cannot be read), backend names.
- Validation status, output paths, diff details and worktree status in `Correction`: copied fields.
- How the file system resolves an absolute path below the repository: a parameter of `Accounting.RelativePath`.
- Prompt redaction, JSONL parsing, HTML and Markdown rendering, and the scripts that wrap other packages.
