# Verified model of a CI failure orchestrator

The orchestrator watches failing CI pipelines, decides what to repair, lets agents
propose patches under policy, and keeps an auditable record of all of it. This
project models the parts that keep state or make ordered decisions and proves what
they guarantee: over every input, every interleaving, every crash point.

| file | what it models |
|---|---|
| `Graph.dfy`, `Traversal.dfy`, `Ranker.dfy` | the stage graph, its queue-based acyclicity check, reachability, memoised depth, the verification plan and the root-cause ranking |
| `Ledger.dfy`, `Delivery.dfy`, `Overlap.dfy` | the completion ledger, the lease protocol between workers, and when it runs a key twice |
| `StateMachine.dfy`, `Retry.dfy`, `Runner.dfy` | the transition table, the retry engine and the attempt loop with its policy gate |
| `Journal.dfy`, `Recovery.dfy`, `Answers.dfy`, `Refusals.dfy`, `Pointer.dfy`, `Persistence.dfy` | the durable journal, crashes at any write, the recovery entry points, what they answer and leave behind, when they refuse and when the saved pointer overshoots |
| `Paths.dfy`, `Policy.dfy`, `Remediation.dfy` | path classification, the policy cascade and the final verdict on a repair |
| `Gateway.dfy`, `Repair.dfy`, `Runtime.dfy` | the trust gateway, the supervised repair loop and the polling runtime |
| `McNemar.dfy`, `Wilson.dfy`, `Audit.dfy` | exact test, Wilson intervals and minute accounting |
| `Options.dfy`, `Sequences.dfy`, `Reals.dfy` | shared vocabulary |

Objects whose methods update fields are classes, loops are methods with invariants,
and each such method is tied to a specification function or predicate on which the
run-level theorems are proved. SQL transactions are atomic steps, clocks and
collaborators are inputs, floats are exact reals, and a square root is any
non-negative number with the right square.

## Where the code does less than it says

- The ledger's documentation promises one execution per key without conditions. A
  second execution starts beside or after the first exactly when a claim finds an
  expired lease, or its own, on a key that is running or whose effect returned
  without being completed (`ExecutionOverlap.ApartIff`). This cannot happen when
  effects end before their lease, a worker does not run a key twice at once and no
  crash falls between the return of an effect and its completion; for each
  assumption there is a run that breaks only this one and executes twice.
- A saved pointer can run past the end of the log, when an append meets text
  without a newline, a whole record or a piece of one, and the snapshot behind it
  is saved. Resumes, operator events and decisions can all do so;
  `PointerBound.PointerWithinThroughoutIff` says exactly when a run does.
- `append_operator_event` makes a half-written run acceptable again, so a decision
  interrupted in the middle can be reversed (`Refusals.ResyncForgetsADecision`).
- A leased run whose holder dies is never handed out again, although its lease
  expires: it can move on if and only if it has a holder (`Runtime.RecoverableIff`).
- Called directly, the policy engine files a passing proposal with an empty patch as
  HIGH even when it names a critical file (`Policy.RecordedRiskCoversIff`, with
  `.env` in `Policy.BlankPatchOnPath`). In a foundation run the sandbox refuses empty
  patches first (foundation/sandbox.py:99-100).
- The digest chain of an incident is checked for numbers and lengths only
  (`Repair.ChainValidatesEvenIfRewritten`).
- The acyclicity check counts list entries against different parents. It refuses an
  acyclic graph exactly when some list is longer than the number of stages that
  declare its stage a child (`PipelineGraph.AcyclicIsAcceptedIff`), and a cycle it
  accepts passes through a stage whose surviving list is shorter
  (`PipelineGraph.AcceptedCycleHasShortList`), as a redeclared id can make it.
- The policy gate can get milder for a larger change when its default is REJECT or
  its automatic risk levels have a gap (`Policy.MilderIff` and
  `Policy.MilderThanRejectIff` say exactly when).

## Model

| member | source | states |
|---|---|---|
| `PipelineGraph.Build` | ci_failure_orchestrator/graph.py:9-34 | Construction succeeds exactly when every parent is declared and no set of stages is blocked, whatever names repeat; without cycles exactly when every dependency list is as short as the number of its declared parents; an accepted cyclic graph has a stage whose list is shorter; for distinct ids: no cycle and no repeated entry. An unknown parent is reported exactly when there is one. |
| `PipelineGraph.LinkChildren` | ci_failure_orchestrator/graph.py:12-16 | The child table is the inverse of all declared dependency lists, unless some parent is undeclared |
| `PipelineGraph.CountDependencies` | ci_failure_orchestrator/graph.py:20-23 | Every counter starts at the length of the dependency list, repeats included |
| `PipelineGraph.ValidateAcyclic` | ci_failure_orchestrator/graph.py:19-34 | The queue releases a legal schedule that nothing can extend, and `seen` equals the stage count exactly when a full schedule exists |
| `PipelineGraph.StuckIsMaximal` | ci_failure_orchestrator/graph.py:24-32 | Whichever ready stage is popped first, the loop ends having released everything that any order could release |
| `PipelineGraph.StuckDecides` | ci_failure_orchestrator/graph.py:24-34 | One exhausted queue decides whether any full schedule exists |
| `PipelineGraph.SchedulableIff` | ci_failure_orchestrator/graph.py:19-34 | A full schedule exists if and only if there is no cycle and no repeated dependency |
| `PipelineGraph.SchedulableUnlessBlocked` | ci_failure_orchestrator/graph.py:19-34 | For every list of stages: all are released if and only if no set of stages has only members with longer lists than parents outside of it |
| `PipelineGraph.AcyclicIsAcceptedIff` | ci_failure_orchestrator/graph.py:19-34 | For every list without cycles: all are released if and only if no dependency list is longer than the number of stages that declare its stage a child |
| `PipelineGraph.AcceptedCycleHasShortList` | ci_failure_orchestrator/graph.py:10-34 | A cycle that is accepted passes through a stage whose surviving list is shorter than the number of stages that declare it a child |
| `PipelineGraph.EdgesGoForward` | ci_failure_orchestrator/graph.py:19-34 | Positions in a full schedule are a topological rank |
| `PipelineGraph.LeftoverHasCycle` | ci_failure_orchestrator/graph.py:33-34 | Whatever the queue leaves behind contains a cycle made of leftover stages only |
| `PipelineGraph.RepeatedDependencyIsRefused` | ci_failure_orchestrator/graph.py:20-34 | An acyclic pipeline that lists one dependency twice is refused as cyclic |
| `PipelineGraph.ReplacedDeclarationHidesACycle` | ci_failure_orchestrator/graph.py:10-16 | Three declarations for which this happens: edges of the replaced one let a self-dependent stage through |
| `Traversal.FindDescendants` | ci_failure_orchestrator/graph.py:48-57 | The worklist ends with exactly the stages reachable by one or more edges |
| `Traversal.IsUpstream` | ci_failure_orchestrator/graph.py:59-60 | Upstream means reachable |
| `Traversal.Visit` | ci_failure_orchestrator/graph.py:39-44 | The shared memo table only grows and every entry is the length of a longest dependency chain |
| `Traversal.VisitParents` | ci_failure_orchestrator/graph.py:43 | The maximum over the parents is the depth of a deepest parent |
| `Traversal.Depth` | ci_failure_orchestrator/graph.py:36-46 | Depth is the number of edges of the longest dependency chain; an unknown stage is an error |
| `Traversal.UpstreamIsShallower` | ci_failure_orchestrator/graph.py:36-60 | An upstream stage has strictly smaller depth |
| `Traversal.SortByDepth` | ci_failure_orchestrator/verification.py:19 | Sorting by depth lists each stage once, never before one of its own upstream stages |
| `Traversal.PlanVerification` | ci_failure_orchestrator/verification.py:15-23 | Root first, each failed descendant exactly once and never ahead of a failed stage upstream of it, then the full pipeline |
| `Ranker.Survey` | ci_failure_orchestrator/ranker.py:21-24 | The normalisers are the maxima of descendant counts and depths over all failures, at least 1, and the stage index keeps the last failure of a stage |
| `Ranker.RankOne` | ci_failure_orchestrator/ranker.py:27-60 | One entry carries the rounded weighted score of its failure, its descendant count, depth and causal matches |
| `Ranker.ScoreWeights` | ci_failure_orchestrator/ranker.py:37-43 | What each of the five signals is worth, by changing it alone |
| `Ranker.ScoreSteps` | ci_failure_orchestrator/ranker.py:33-43 | One more stage below and one more level of depth change the score by equal steps |
| `Ranker.CausalShare` | ci_failure_orchestrator/ranker.py:29-35 | The causal signal is the explained part of the failures downstream, 0 when there are none |
| `Ranker.ExplainedBy` | ci_failure_orchestrator/ranker.py:7-14 | Which errors can explain a failure |
| `Ranker.LastFailureCounts` | ci_failure_orchestrator/ranker.py:22 | The failure on record for a stage is its last one |
| `Ranker.Round4Nearest` | ci_failure_orchestrator/ranker.py:54 | The nearest multiple of 1/10000, halves to even |
| `Ranker.SortDescending` | ci_failure_orchestrator/ranker.py:61 | The result is a permutation of the entries, scores fall and ties keep their input order |
| `Ranker.Rank` | ci_failure_orchestrator/ranker.py:21-61 | Every failure is scored once and the list is a stable descending sort; an unknown stage is an error |
| `Ranker.UpstreamScoresHigher` | ci_failure_orchestrator/ranker.py:21-61 | An upstream failure whose confidence, causal signal and weight are at least those of a downstream one scores strictly higher before rounding and not lower after it |
| `Ranker.ScoreBounds` | ci_failure_orchestrator/ranker.py:28-43 | Inputs in the unit interval give scores in (0, 1] |
| `Ranker.Round4Monotone` | ci_failure_orchestrator/ranker.py:54 | Rounding to four decimals, halves to even, preserves order |
| `Ranker.CauseRankedFirst` | ci_failure_orchestrator/ranker.py:21-61 | In the ranking a dominated downstream failure precedes its upstream cause only on equal rounded scores and an earlier input place |
| `CompletionLedger.SQLiteCompletionLedger.GetCompleted` | ci_failure_orchestrator/task_idempotency.py:135-139 | A record is returned exactly for completed keys |
| `CompletionLedger.SQLiteCompletionLedger.TryClaim` | ci_failure_orchestrator/task_idempotency.py:141-217 | New row, replay of a completed row, refusal exactly under another worker's live lease, or takeover that keeps the creation time; the whole table after each |
| `CompletionLedger.SQLiteCompletionLedger.Complete` | ci_failure_orchestrator/task_idempotency.py:219-264 | Write-once completion by the owner; the whole table after each answer |
| `CompletionLedger.SQLiteCompletionLedger.Release` | ci_failure_orchestrator/task_idempotency.py:266-282 | Only the owner of a started row gives up its lease |
| `CompletionLedger.TransactionsKeepCompleted` | ci_failure_orchestrator/task_idempotency.py:141-282 | No sequence of transactions of any workers changes a completed row or stores a completion without a result |
| `CompletionLedger.LeaseProtects` | ci_failure_orchestrator/task_idempotency.py:173-217 | No transactions of other workers before the end of a lease change its row |
| `CompletionLedger.IdempotentTaskDeliverer.Deliver` | ci_failure_orchestrator/task_idempotency.py:298-351 | A completed key is replayed without writing. Otherwise the claim takes a row under this worker's lease, and what the others do to it decides: the result is stored, refused as a conflict, or the lease given up after a failed effect. If the others only act before the lease ends, a granted delivery returns and stores its own result, and a raising effect leaves the key claimable for everybody |
| `DeliveryProtocol.CompletedIsWriteOnce` | ci_failure_orchestrator/task_idempotency.py:219-264 | Over every interleaving with crashes, a completed row never changes again |
| `DeliveryProtocol.ReplaysMatchLedger` | ci_failure_orchestrator/task_idempotency.py:298-351 | Over every interleaving with crashes, every replay returns the stored result |
| `DeliveryProtocol.HolderExcludesClaims` | ci_failure_orchestrator/task_idempotency.py:186-208 | While executions hold their rows, which `ExecutionOverlap.OverlapIff` shows for every run up to its first preemption: a claim on a key another delivery is executing is granted if and only if that lease has run out or the worker is the same, and otherwise refused |
| `DeliveryProtocol.DisciplinedRunIsExactlyOnce` | ci_failure_orchestrator/task_idempotency.py:141-351 | If effects end before their lease, no worker runs a key twice at once and no crash falls between return and `complete`: executions of a key never overlap, at most one returns, `complete` never conflicts |
| `DeliveryProtocol.OutcomesAgree` | ci_failure_orchestrator/task_idempotency.py:298-351 | Under the same assumptions every finished delivery reports the result in the ledger |
| `ExecutionOverlap.OverlapIff` | ci_failure_orchestrator/task_idempotency.py:173-217 | Over every run: executions of a key never overlap if and only if no claim comes when the lease of a running execution of its key has run out, or from the same worker; until then every execution holds the row of its key |
| `ExecutionOverlap.ApartIff` | ci_failure_orchestrator/task_idempotency.py:173-217 | Over every run: no execution starts beside or after one of its key that runs or has returned, if and only if no claim preempts, and none meets a returned effect whose row was not completed and is expired or owned by the claiming worker; then at most one effect per key returns |
| `ExecutionOverlap.IntrusionMeets` | ci_failure_orchestrator/task_idempotency.py:186-217 | Every such claim is granted and starts a second execution |
| `ExecutionOverlap.DisciplinedNeverIntrudes` | ci_failure_orchestrator/task_idempotency.py:141-351 | The three assumptions rule such claims out |
| `DeliveryProtocol.OverrunRunsTwice` | ci_failure_orchestrator/task_idempotency.py:344-351 | A run that breaks the timeliness assumption at some step and neither of the other two at any: two workers ran the effect and the late one reports a result the ledger does not hold |
| `DeliveryProtocol.SelfReclaimRunsTwice` | ci_failure_orchestrator/task_idempotency.py:191-208 | A run that breaks only the one-at-a-time assumption: the same disagreement, inside live leases, by one worker id |
| `DeliveryProtocol.LostReturnRunsTwice` | ci_failure_orchestrator/task_idempotency.py:325-351 | A run that breaks only the assumption about crashes between return and `complete`: the effect of one key returns twice |
| `StateMachine.WalkLength` | ci_failure_orchestrator/foundation/state_machine.py:7-44 | Every path of the table with k RETRYING to PLANNED edges has at most 13 + 8k steps |
| `StateMachine.WalkLengthIsTight` | ci_failure_orchestrator/foundation/state_machine.py:7-44 | For every k a path from RECEIVED reaches 13 + 8k steps |
| `StateMachine.EnteredFrom` | ci_failure_orchestrator/foundation/state_machine.py:7-44 | From which statuses each status is entered, and that every open one can fail |
| `StateMachine.DecidedAfterReview` | ci_failure_orchestrator/foundation/state_machine.py:7-44 | No path reaches a decision, an escalation or a waiting human unless a planned proposal went through sandbox and evaluation straight into the policy review |
| `StateMachine.FoundationStateMachine.Transition` | ci_failure_orchestrator/foundation/state_machine.py:58-71 | A legal target is appended to the history, anything else is refused and changes nothing; the history stays a path of the table |
| `Retry.CountOf` | ci_failure_orchestrator/foundation/retry.py:396-398 | The counting dictionary holds the number of occurrences of every fingerprint |
| `Retry.CountStreak` | ci_failure_orchestrator/foundation/retry.py:430-435 | The reversed loop returns the largest number of latest attempts that all failed to improve |
| `Retry.DecideRetry` | ci_failure_orchestrator/foundation/retry.py:328-489 | A retry is due exactly when the latest attempt failed, attempts are left, it is not unrecoverable, neither its proposal nor its failure came too often, progress is not stale, and it improved or invites another try; every one of the thirteen reasons exactly when it is given; next attempt and attempts left |
| `Retry.BuiltAttempt` | ci_failure_orchestrator/foundation/retry.py:206-323 | An attempt record holds what its attempt produced, and is improved exactly when it got further than the attempt before it |
| `Retry.RetryAllowedMeans` | ci_failure_orchestrator/foundation/retry.py:328-489 | What one granted retry says about the latest attempt |
| `Retry.ProposalsBounded` | ci_failure_orchestrator/foundation/retry.py:394-410 | In a history retried at every prefix no proposal occurs more than `max_identical_proposals` times |
| `Retry.WindowsProgress` | ci_failure_orchestrator/foundation/retry.py:430-444 | In such a history every window of `max_no_progress_attempts` attempts holds an improved one |
| `Retry.RepeatedFailuresImprove` | ci_failure_orchestrator/foundation/retry.py:412-428 | From its `max_identical_failures`-th occurrence on, a failure recurs only in improved attempts |
| `Retry.RetriedHistoryIsOpen` | ci_failure_orchestrator/foundation/retry.py:365-374 | A retried history is shorter than the attempt budget and holds no passed or unrecoverable attempt |
| `Journal.ReadRaw` | ci_failure_orchestrator/foundation/durable.py:607-628 | Unreadable exactly when a damaged line has other text behind it; otherwise all records in order, a damaged end left out and flagged as torn |
| `Journal.CheckSequence` | ci_failure_orchestrator/foundation/recovery.py:153-164 | No issue exactly when the events are numbered 1..n; otherwise the first number out of place |
| `Journal.CheckRefs` | ci_failure_orchestrator/foundation/recovery.py:176-191 | One issue for exactly every reference to an artifact that does not exist |
| `Journal.VerifyRunConsistency` | ci_failure_orchestrator/foundation/recovery.py:105-219 | Each of the seven issues exactly when it is reported: unreadable log, torn last line, number out of place, pointer that disagrees, missing artifact, escalation or evaluation evidence; none exactly when the run is consistent |
| `Journal.AppendToClean` | ci_failure_orchestrator/foundation/durable.py:551-586 | Appending to a clean log adds exactly that event |
| `Journal.AppendToWhole` | ci_failure_orchestrator/foundation/durable.py:551-586 | Appending behind a record without its newline destroys both records |
| `Journal.DamageStays` | ci_failure_orchestrator/foundation/durable.py:551-628 | No append repairs a damaged log |
| `Recovery.AppendKeepsOk` | ci_failure_orchestrator/foundation/durable.py:551-586 | A whole append and every torn prefix of it keep the numbering, the pointer bound and the single verdict |
| `Recovery.CrashKeepsOk` | ci_failure_orchestrator/foundation/human_decision.py:26-260 | A crash after any write, or inside an append, of an allowed write list keeps the disk invariant |
| `Recovery.EmitOk` | ci_failure_orchestrator/foundation/persistence.py:136-193 | Event first, snapshot second: both writes are allowed where they happen and the runner stays in step with the log |
| `Recovery.StartOk` | ci_failure_orchestrator/foundation/persistence.py:118-134 | Starting on an unused directory keeps the invariant |
| `Recovery.ResumeOk` | ci_failure_orchestrator/foundation/recovery.py:252-288 | Every write of a resume is allowed |
| `Recovery.OperatorOk` | ci_failure_orchestrator/foundation/human_decision.py:263-301 | Every write of an operator event is allowed, although it checks nothing |
| `Recovery.DecisionOk` | ci_failure_orchestrator/foundation/human_decision.py:26-260 | Every write of a reviewer decision is allowed: evidence, recorded event, snapshot, verdict event, snapshot |
| `Recovery.WaitingIsUndecided` | ci_failure_orchestrator/foundation/human_decision.py:219-248 | A snapshot that waits for a human has no verdict in its log |
| `Recovery.StepKeepsOk` | ci_failure_orchestrator/foundation/persistence.py:118-236 | Every operation, completed or crashed anywhere, keeps the invariant |
| `Recovery.ReachableDisksOk` | ci_failure_orchestrator/foundation/human_decision.py:26-301 | In every reachable disk state, crashes included, readable events are numbered 1..n, the pointer is at most n unless the log is damaged, and at most one terminal verdict is logged, the one the snapshot shows |
| `Recovery.WaitingDiskOk` | ci_failure_orchestrator/foundation/human_decision.py:26-120 | Any consistent waiting run without a verdict is a valid start of such runs |
| `Refusals.RefusalWritesNothing` | ci_failure_orchestrator/foundation/human_decision.py:26-260 | A reviewer call writes nothing exactly when it answers BLOCKED or INCONSISTENT |
| `Refusals.HalfWrittenIsLeftAlone` | ci_failure_orchestrator/foundation/recovery.py:166-174 | A torn log or a non-zero pointer that differs from n survives any sequence of resume and decision calls, crashes included, unchanged |
| `Refusals.ConsistentIff` | ci_failure_orchestrator/foundation/recovery.py:105-219 | On a reachable disk the consistency check passes if and only if nothing is half-written and the references, the escalation and the evaluation evidence are there |
| `Refusals.OperatorEventClearsMismatch` | ci_failure_orchestrator/foundation/human_decision.py:263-301 | An operator event makes a half-written run acceptable again if and only if its text is intact and ends in a newline |
| `Refusals.ResyncForgetsADecision` | ci_failure_orchestrator/foundation/human_decision.py:279-300 | An approval interrupted after its first event is refused from then on, yet one operator event later the opposite verdict is applied |
| `Refusals.WaitingIsReached` | ci_failure_orchestrator/foundation/human_decision.py:26-260 | A run from the empty directory to a waiting disk that such an approval starts from |
| `Refusals.ResumeKeepsPointerIff` | ci_failure_orchestrator/foundation/recovery.py:252-288 | A resume keeps the pointer within the log if and only if it writes nothing or the last record had its newline |
| `Refusals.ResumeAfterUnterminatedFirstRecord` | ci_failure_orchestrator/foundation/recovery.py:252-288 | A reachable run in which a resume destroys the first record and leaves the pointer past the end |
| `PointerBound.AppendAnswers` | ci_failure_orchestrator/foundation/durable.py:551-628 | What the next append makes of a readable log: unreadable behind a damaged line, one more record behind a newline, none behind unterminated text |
| `PointerBound.OperatorKeepsPointerIff` | ci_failure_orchestrator/foundation/human_decision.py:279-300 | A completed operator event keeps the pointer within the log if and only if the log is unreadable, and nothing written, or ends in a newline |
| `PointerBound.DecisionPointerIff` | ci_failure_orchestrator/foundation/human_decision.py:198-249 | A decision cut at any write keeps the pointer within the terminated records unless its first snapshot landed behind unterminated text and the verdict had not begun |
| `PointerBound.StepKeepsPointerIff` | ci_failure_orchestrator/foundation/human_decision.py:26-301 | The same exact condition for every operation, completed or crashed at any write |
| `PointerBound.OvershootIsVisible` | ci_failure_orchestrator/foundation/recovery.py:252-288 | After such a step the pointer is past every readable event |
| `PointerBound.PointerWithinThroughoutIff` | ci_failure_orchestrator/foundation/persistence.py:118-236 | Over every run, crashes included: the pointer is at most n in all states if and only if no step overshoots |
| `PointerBound.OperatorEventAfterTornStart` | ci_failure_orchestrator/foundation/human_decision.py:279-300 | A reachable run without any unterminated whole record in which an operator event leaves the pointer past the end |
| `Persistence.RunDirectory.LatestSequence` | ci_failure_orchestrator/foundation/durable.py:545-549 | The number of the last readable event |
| `Persistence.RunDirectory.AppendEvent` | ci_failure_orchestrator/foundation/durable.py:551-586 | The event is written exactly when its number follows the last one |
| `Persistence.RunDirectory.ResumeRun` | ci_failure_orchestrator/foundation/recovery.py:252-288 | Inconsistent, terminal, waiting, mid-effect and resumable runs are told apart from the directory alone; only a resumable one is written, and gains one event and the pointer to it |
| `Persistence.RunDirectory.AppendOperatorEvent` | ci_failure_orchestrator/foundation/human_decision.py:263-301 | Nothing without a snapshot or a readable log; on an intact log one event and the pointer to it |
| `Persistence.RunDirectory.ApplyReviewerDecision` | ci_failure_orchestrator/foundation/human_decision.py:26-260 | Applied or recorded exactly when the run is consistent, waits for a human, an action is named, the package parses, and the escalation is named by the call or the package and never differently by both; inconsistent exactly for a failed check or, at that point, a package that does not parse; refusals write nothing, the others log the decision and its verdict, move the status and file the evidence |
| `Persistence.RunPersistence.StartRun` | ci_failure_orchestrator/foundation/persistence.py:118-134 | Refuses an existing run untouched; otherwise leaves one event, a snapshot in RECEIVED that points at it, and everything else as it was |
| `Persistence.RunPersistence.Emit` | ci_failure_orchestrator/foundation/persistence.py:136-193 | Appends the next event and saves the snapshot that points at it; nothing logged is lost |
| `Persistence.RunPersistence.Checkpoint` | ci_failure_orchestrator/foundation/persistence.py:195-236 | The new status, if any, the new references on top of the old ones, and nothing else |
| `Persistence.LiveIsConsistent` | ci_failure_orchestrator/foundation/recovery.py:105-219 | A live runner's journal passes the consistency check once its status has its evidence |
| `Runner.FoundationRun.Run` | ci_failure_orchestrator/foundation/runner.py:139-635 | Every started run ends in APPROVED, REJECTED, AWAITING_HUMAN, ESCALATION_ERROR or FAILED with a legal walk of at most 13 + 8(max_attempts - 1) steps and a journal that recovery accepts. Attempt k records what script entry k produced, with progress measured against attempt k-1; every attempt but the last failed and made a retry due; the last is judged by the policy if it passed and stopped with the engine's reason if not, or a collaborator raised in it and the run fails. Without that the events are in order those of the attempts, and every plan, tool result, patch, proposal, sandbox report, evaluation, attempt and retry file, the references and the escalation package are there |
| `Runner.FoundationRun.Begin` | ci_failure_orchestrator/foundation/runner.py:157-161 | An existing run id is refused with the disk untouched |
| `Runner.FoundationRun.AttemptLoop` | ci_failure_orchestrator/foundation/runner.py:163-588 | Every path leaves the loop inside an attempt |
| `Runner.FoundationRun.Iterate` | ci_failure_orchestrator/foundation/runner.py:163-567 | One turn ends the run with a full report or is back at the loop head because a retry is due; what it recorded, told and kept |
| `Runner.FoundationRun.RunAttempt` | ci_failure_orchestrator/foundation/runner.py:163-567 | One record per evaluated attempt, one retry edge per later attempt; it raises exactly when a collaborator it reaches does |
| `Runner.FoundationRun.KeepAttempt` | ci_failure_orchestrator/foundation/runner.py:428-462 | The record of the attempt, compared with the one just before it, joins the history and the evidence |
| `Runner.AttemptTells` | ci_failure_orchestrator/foundation/runner.py:163-567 | The events of one attempt, one by one |
| `Runner.OneMoreAttempt` | ci_failure_orchestrator/foundation/runner.py:163-567 | The files and references one attempt adds to the evidence of those before it |
| `Runner.FoundationRun.Classify` | ci_failure_orchestrator/foundation/runner.py:183-223 | First attempt only: context and classification, with exactly their events logged |
| `Runner.FoundationRun.PlanAttempt` | ci_failure_orchestrator/foundation/runner.py:225-267 | A plan follows CLASSIFIED or RETRYING, the latter counting one retry |
| `Runner.FoundationRun.ExecuteTools` | ci_failure_orchestrator/foundation/runner.py:269-352 | Tool calls and the proposal, with exactly their events logged |
| `Runner.FoundationRun.RunSandbox` | ci_failure_orchestrator/foundation/runner.py:354-389 | Sandbox run, with exactly their events logged |
| `Runner.FoundationRun.RecordEvaluation` | ci_failure_orchestrator/foundation/runner.py:391-426 | An evaluation is on record before the status says so |
| `Runner.FoundationRun.Decide` | ci_failure_orchestrator/foundation/runner.py:479-567 | A failed attempt goes to RETRYING exactly when a retry is due, and otherwise stops with the reason that applies |
| `Runner.FoundationRun.PolicyGate` | ci_failure_orchestrator/foundation/policy_gate.py:26-257 | A passed attempt ends in the status the policy outcome names |
| `Runner.FoundationRun.ApproveRun` | ci_failure_orchestrator/foundation/policy_gate.py:98-125 | Approval leaves status, event and snapshot in step |
| `Runner.FoundationRun.RejectRun` | ci_failure_orchestrator/foundation/policy_gate.py:127-152 | Rejection leaves status, event and snapshot in step |
| `Runner.FoundationRun.Escalate` | ci_failure_orchestrator/foundation/policy_gate.py:155-257 | Escalation ends in AWAITING_HUMAN with a stored package, or in ESCALATION_ERROR |
| `Runner.FoundationRun.Fail` | ci_failure_orchestrator/foundation/runner.py:602-635 | A raised collaborator error ends in FAILED with a consistent journal |
| `Policy.MatchingPaths` | ci_failure_orchestrator/foundation/policy.py:736-746 | The hits are exactly the files whose normalised path contains a pattern |
| `Policy.EvaluatePolicy` | ci_failure_orchestrator/foundation/policy.py:480-734 | From the inputs alone: outcome, recorded risk, and for each of the eighteen rules exactly when it is listed, once. Rejected exactly for a failed evaluation, no files, a blank patch, a forbidden path or weakened verification, or by default; approved exactly when nothing calls for a person and the change is small, harmless and within the automatic levels |
| `Policy.RiskIff` | ci_failure_orchestrator/foundation/policy.py:368-396 | Which files make a change critical, high or low |
| `Policy.ScopeIff` | ci_failure_orchestrator/foundation/policy.py:346-365 | Small and broad by the number of files and of directories |
| `Policy.ScopeGrows` | ci_failure_orchestrator/foundation/policy.py:346-365 | More files never give a smaller scope |
| `Policy.RiskGrows` | ci_failure_orchestrator/foundation/policy.py:368-396 | More files never give a lower governance risk |
| `Policy.RejectionStays` | ci_failure_orchestrator/foundation/policy.py:504-590 | More files never clear a rejection |
| `Policy.EscalationStays` | ci_failure_orchestrator/foundation/policy.py:592-692 | More files never clear an escalation, though single rules may give way |
| `Policy.NoRules` | ci_failure_orchestrator/foundation/policy.py:592-692 | What the absence of every escalation rule implies |
| `Policy.MilderIff` | ci_failure_orchestrator/foundation/policy.py:480-734 | With default ESCALATE more files give a milder outcome if and only if the larger change triggers no rule and is eligible while the risk of the smaller one is not an automatic level |
| `Policy.MilderThanRejectIff` | ci_failure_orchestrator/foundation/policy.py:480-734 | With default REJECT they do if and only if the smaller change reaches the default and the larger, unrejected, meets an escalation rule, or there is the same gap in the risk levels |
| `Policy.SmallerIsEligibleIff` | ci_failure_orchestrator/foundation/policy.py:725-734 | If a change is eligible, a smaller one is if and only if its risk is an automatic level |
| `Policy.MoreFilesNeverMilder` | ci_failure_orchestrator/foundation/policy.py:480-734 | With default ESCALATE and downward-closed automatic risk levels more files never give a milder outcome |
| `Policy.AddedFileNeverMilder` | ci_failure_orchestrator/foundation/policy.py:480-734 | The same for one file added at any place |
| `Policy.AddedPathNeverMilder` | ci_failure_orchestrator/foundation/policy.py:399-437 | The same for one path added to a proposal, whatever way paths are inspected |
| `Policy.RecordedRiskGrows` | ci_failure_orchestrator/foundation/policy.py:480-734 | Under the same conditions the recorded risk never falls |
| `Policy.RecordedRiskCoversIff` | ci_failure_orchestrator/foundation/policy.py:504-734 | The recorded risk is at least that of the change if and only if it is not a passing proposal with an empty patch naming a critical file |
| `Policy.BlankPatchHidesCritical` | ci_failure_orchestrator/foundation/policy.py:523-542 | A passing proposal with an empty patch that names a security file is rejected as HIGH while its own risk is CRITICAL |
| `Policy.BlankPatchOnPath` | ci_failure_orchestrator/foundation/policy.py:523-542 | The same for the path .env |
| `Policy.GapInRiskLevelsIsMilder` | ci_failure_orchestrator/foundation/policy.py:725-734 | A gap in the automatic risk levels makes a larger change milder |
| `Policy.RejectDefaultIsMilder` | ci_failure_orchestrator/foundation/policy.py:714-723 | Default REJECT makes a larger change milder |
| `Policy.MilderOnPaths` | ci_failure_orchestrator/foundation/policy.py:277-437 | Both on the paths .py, .ini and .lock, through normalisation and classification |
| `Paths.SourceInspected` | ci_failure_orchestrator/foundation/policy.py:277-344 | The path .py is a source file |
| `Paths.ConfigurationInspected` | ci_failure_orchestrator/foundation/policy.py:277-344 | The path .ini is a configuration file |
| `Paths.LockInspected` | ci_failure_orchestrator/foundation/policy.py:277-344 | The path .lock is a dependency file |
| `Paths.SecretInspected` | ci_failure_orchestrator/foundation/policy.py:277-344 | The path .env is a security file |
| `Paths.HoldsIff` | ci_failure_orchestrator/foundation/policy.py:743 | A pattern is found exactly when it occurs at some position |
| `Paths.NormalizeMeans` | ci_failure_orchestrator/foundation/policy.py:277-283 | Normalising strips repeated `./`, turns slashes and lowers letters, and does nothing else |
| `Paths.ClassifyIff` | ci_failure_orchestrator/foundation/policy.py:286-343 | Each of the eleven categories exactly when it is given |
| `Remediation.CollectMissing` | ci_failure_orchestrator/foundation/remediation.py:263-281 | Lists exactly the missing evidence, in report order and once each |
| `Remediation.BuildTrail` | ci_failure_orchestrator/foundation/remediation.py:284-300 | The trail visits exactly the reached stations in order, without repeats, and ends in the verdict |
| `Remediation.CheckVerifiedFix` | ci_failure_orchestrator/foundation/remediation.py:236-260 | True exactly when every required piece of evidence is present and passing |
| `Remediation.Choose` | ci_failure_orchestrator/foundation/remediation.py:309-365 | The condition of each of the seven verdicts in order of precedence, and of each merge requirement |
| `Remediation.VerdictIsUnique` | ci_failure_orchestrator/foundation/remediation.py:309-365 | No evidence meets the condition of two verdicts |
| `Remediation.DecideRemediation` | ci_failure_orchestrator/foundation/remediation.py:309-365 | From the single pieces of evidence: each of the seven verdicts exactly when it is given, each station exactly when it is on the trail, each item exactly when it is reported missing; VERIFIED_FIXED lacks nothing, CI_GREEN_BUT_UNVERIFIED something; automatic merge exactly for low-risk approvals without a human |
| `Remediation.UnverifiedLacksSomething` | ci_failure_orchestrator/foundation/remediation.py:236-281 | A green, unopposed and unverified repair lacks some evidence |
| `McNemar.PValueProperties` | ci_failure_orchestrator/research_evaluation.py:109-116 | The p-value is in (0, 1], symmetric, 1 iff the counts differ by at most one, and the clamp acts iff they are equal and not zero |
| `McNemar.MoreLopsidedIsSmaller` | ci_failure_orchestrator/research_evaluation.py:109-116 | Over the same number of discordant pairs a more lopsided split has a strictly smaller p-value |
| `McNemar.CombFactorial` | ci_failure_orchestrator/research_evaluation.py:115 | The coefficients are n!/(k!(n-k)!) |
| `McNemar.CombSymmetric` | ci_failure_orchestrator/research_evaluation.py:115 | Rows are symmetric |
| `McNemar.RowSum` | ci_failure_orchestrator/research_evaluation.py:115-116 | A row sums to a power of two |
| `McNemar.TwoTails` | ci_failure_orchestrator/research_evaluation.py:115-116 | The doubled tail misses the middle of the row, or counts its centre twice |
| `Wilson.ExactInterval` | ci_failure_orchestrator/statistical_gate.py:58-80 | The unclamped interval lies in [0, 1], contains the rate and touches the ends at 0 and n successes |
| `Wilson.IntervalsAgree` | ci_failure_orchestrator/research_stats.py:23-42 | For positive z and total both implementations give the same interval, and clamps and special cases change nothing |
| `Wilson.EndPointsAreRoots` | ci_failure_orchestrator/statistical_gate.py:67-80 | The end points are the two rates x with n(x - p)^2 = z^2 x(1 - x) |
| `Wilson.FalseRepairsByDefault` | ci_failure_orchestrator/statistical_gate.py:96-101 | Where nobody judged the repairs, the false ones are the regressions |
| `Wilson.PassingGateMeetsRates` | ci_failure_orchestrator/statistical_gate.py:83-121 | A passing gate implies that the raw rates meet the same thresholds |
| `Gateway.GatewayStateMachine.Transition` | ci_failure_orchestrator/trust_gateway.py:60-68 | A legal target is appended to the history, any other is refused and changes nothing; the history stays a path of the transition table |
| `Gateway.GatewayStateMachine.Advance` | ci_failure_orchestrator/trust_gateway.py:403-498 | The transitions the gateway makes are never refused |
| `Gateway.ExecutedAfterPolicy` | ci_failure_orchestrator/trust_gateway.py:36-52 | In every history an execution directly follows a policy evaluation, and success an execution, evaluation and verification |
| `Gateway.RetryBudget.Consume` | ci_failure_orchestrator/trust_gateway.py:304-313 | An attempt is taken exactly when attempts, cost and time allow it |
| `Gateway.TrustToolGateway.Run` | ci_failure_orchestrator/trust_gateway.py:387-510 | The loop terminates with only legal transitions. Every turn before the last proposed something new and explained, was allowed, paid and executed, and failed with attempts left; the last one is denied, awaits approval, is verified, goes to a human or raises exactly as its proposal, the policy, the budget and both checks say. The executions are those of the turns, in order, each fingerprint once; cost within budget; every counter agrees |
| `Gateway.TrustToolGateway.TakeTurn` | ci_failure_orchestrator/trust_gateway.py:396-418 | Each ending of a turn exactly when it comes, and what the turn executes, spends and counts |
| `Gateway.TrustToolGateway.Vet` | ci_failure_orchestrator/trust_gateway.py:420-447 | Denied and approval-pending proposals end the run without execution, allowed ones as the budget and the checks say |
| `Gateway.TrustToolGateway.Spend` | ci_failure_orchestrator/trust_gateway.py:449-510 | An allowed proposal is executed exactly when the budget takes it, and retried exactly when it failed and attempts are left |
| `Gateway.TrustToolGateway.Execute` | ci_failure_orchestrator/trust_gateway.py:462-475 | Each execution is recorded with its decision; verified success exactly when nothing raises and both checks pass |
| `Gateway.TrustToolGateway.Assess` | ci_failure_orchestrator/trust_gateway.py:476-494 | Without a fault verified success exactly when both checks pass, a counted failure otherwise |
| `Repair.EvaluateRepair` | ci_failure_orchestrator/supervisor.py:158-232 | Each risk level and each authority exactly when it is given, from the findings, the limits, the paths and the failure class |
| `Repair.AuthorityShrinks` | ci_failure_orchestrator/supervisor.py:141-232 | More paths, lines, attempts, cost, time or findings never raise the authority |
| `Repair.AuthorizeIsSound` | ci_failure_orchestrator/supervisor.py:141-232 | Patch authority is granted only within the attempt budget and for checks that touch no critical or protected path |
| `Repair.RepairIncident.MoveTo` | ci_failure_orchestrator/repair_state_machine.py:58-80 | One numbered transition whose digest covers the previous one |
| `Repair.RepairCoordinator.PlanRepair` | ci_failure_orchestrator/repair_state_machine.py:133-150 | Counts the attempt; denied at a limit or a critical path, escalated at a protected one, planned otherwise, with one chained transition |
| `Repair.RepairCoordinator.DispatchTask` | ci_failure_orchestrator/repair_state_machine.py:152-159 | Only from PLANNED with a key; anything else changes nothing |
| `Repair.RepairCoordinator.AcceptWorkerResult` | ci_failure_orchestrator/repair_state_machine.py:199-211 | Only from DISPATCHED; charges the cost; denied for a finding, escalated without a patch, verified otherwise |
| `Repair.RepairCoordinator.VerifyRepair` | ci_failure_orchestrator/repair_state_machine.py:213-233 | Only from VERIFYING; the state and the reason for every combination of gates |
| `Repair.RepairCoordinator.PrepareRetry` | ci_failure_orchestrator/repair_state_machine.py:235-241 | Only from RERUNNING; anything else changes nothing |
| `Repair.RepairCoordinator.AdvanceDelivered` | ci_failure_orchestrator/repair_state_machine.py:184-189 | A delivered result is dispatched and accepted exactly while the incident awaits dispatch |
| `Repair.EveryRunKeepsInv` | ci_failure_orchestrator/repair_state_machine.py:127-241 | For any order of calls: at most `max_attempts` PLANNED entries, DISPATCHED <= PLANNED, VERIFYING <= DISPATCHED, GREEN <= VERIFYING, each GREEN directly follows the three, no plan for a sensitive check, chained digests |
| `Repair.SpendingBounded` | ci_failure_orchestrator/repair_state_machine.py:133-211 | Cost never exceeds the budget by more than the last worker result |
| `Repair.GreenMeansSuccessful` | ci_failure_orchestrator/repair_state_machine.py:113-124 | GREEN is entered only by a verification that meets the success definition |
| `Repair.VerifyTransitionChain` | ci_failure_orchestrator/repair_state_machine.py:243-251 | Accepts exactly the chains with numbers 1..n and digests of full length |
| `Repair.ChainValidatesEvenIfRewritten` | ci_failure_orchestrator/repair_state_machine.py:243-251 | Every chain the coordinator builds validates, and so does one whose states and reasons were rewritten |
| `Runtime.SQLiteRunStore.Select` | ci_failure_orchestrator/autonomous_runtime.py:180-190 | The poll query by its columns: runs queued or waiting, due and not leased, in order; any left out only for the limit and behind those picked |
| `Runtime.SQLiteRunStore.LeaseDue` | ci_failure_orchestrator/autonomous_runtime.py:173-201 | Exactly the selected runs go to running with the new lease and time stamp; the copies handed out keep the old stamp |
| `Runtime.SQLiteRunStore.MarkRetry` | ci_failure_orchestrator/autonomous_runtime.py:203-213 | Every column after a failed step: waiting for the next time, or dead-lettered with one letter at the last attempt |
| `Runtime.SQLiteRunStore.Save` | ci_failure_orchestrator/autonomous_runtime.py:138-166 | The row is replaced, with the time of saving |
| `Runtime.SQLiteRunStore.DeadLetter` | ci_failure_orchestrator/autonomous_runtime.py:215-225 | Saves and stamps the row and adds one letter |
| `Runtime.StepKeepsInv` | ci_failure_orchestrator/autonomous_runtime.py:173-269 | Every action keeps the table invariant |
| `Runtime.EveryRunKeepsInv` | ci_failure_orchestrator/autonomous_runtime.py:173-269 | Leases of a run equal its attempts plus one while outstanding and never exceed `max_attempts` (or 1); two leases of a run have a retry between them whatever the clock says; dead letters are unique and belong to dead-lettered runs |
| `Runtime.AbandonedRunIsStuck` | ci_failure_orchestrator/autonomous_runtime.py:173-201 | A run whose holder vanished stays running in every later state: no poll picks up its expired lease |
| `Runtime.AbandonedIsReached` | ci_failure_orchestrator/autonomous_runtime.py:173-201 | A reachable run of the table in which a holder vanishes |
| `Runtime.RunningMovesIff` | ci_failure_orchestrator/autonomous_runtime.py:173-269 | A running run can leave that state in one step if and only if somebody holds it |
| `Runtime.RecoverableIff` | ci_failure_orchestrator/autonomous_runtime.py:173-269 | Over every run: some continuation takes a running run out of that state if and only if it still has a holder |
| `CiAudit.RawMinutes` | ci_failure_orchestrator/ci_audit/analyze.py:45-50 | Whole minutes, rounded up |
| `CiAudit.BilledAtRate` | ci_failure_orchestrator/ci_audit/analyze.py:12-50 | What a minute costs on each system |
| `CiAudit.GroupRuns` | ci_failure_orchestrator/ci_audit/analyze.py:89-91 | Each (workflow, commit) group lists exactly its runs in order |
| `CiAudit.FirstCreated` | ci_failure_orchestrator/ci_audit/analyze.py:95 | The earliest run, list order breaking ties |
| `CiAudit.MarkGroup` | ci_failure_orchestrator/ci_audit/analyze.py:93-96 | Marks exactly the group's runs that have an earlier run, if both triggers occur |
| `CiAudit.DuplicateRunIds` | ci_failure_orchestrator/ci_audit/analyze.py:88-97 | The marked ids are exactly those of duplicate runs, for every list |
| `CiAudit.GroupKeepsARun` | ci_failure_orchestrator/ci_audit/analyze.py:88-97 | With distinct run ids every (workflow, commit) group keeps an unmarked run |
| `CiAudit.GroupKeepsIff` | ci_failure_orchestrator/ci_audit/analyze.py:88-97 | For every list: a group triggered both ways keeps an unmarked run if and only if no other entry with the id of its first run is a duplicate; any other group loses all of them if and only if each shares its id with a duplicate of another group |
| `CiAudit.RepeatedIdMarksAll` | ci_failure_orchestrator/ci_audit/analyze.py:88-97 | With a repeated id a group may keep none |
| `CiAudit.WasteIsBilled` | ci_failure_orchestrator/ci_audit/analyze.py:240-248 | The three waste classes are disjoint, so their sum is at most the billed minutes |
| `CiAudit.SelectsIff` | ci_failure_orchestrator/ci_audit/analyze.py:229-247 | Which jobs each counter is about, from the job, its run and the duplicate ids |
| `CiAudit.AddWaste` | ci_failure_orchestrator/ci_audit/analyze.py:240-247 | A job's minutes go to at most one waste class, by duplicate, superseded attempt and cancellation in this order; failed minutes by the three failed conclusions |
| `CiAudit.AddJob` | ci_failure_orchestrator/ci_audit/analyze.py:229-247 | One turn keeps every counter equal to the minutes of its jobs |
| `CiAudit.IndexRuns` | ci_failure_orchestrator/ci_audit/analyze.py:211-212 | Completed runs in order, and their lookup table in which the last run of an id wins |
| `CiAudit.CountMinutes` | ci_failure_orchestrator/ci_audit/analyze.py:224-248 | Billed minutes equal the sum by runner OS and the sum by workflow |
| `CiAudit.AnalyzeMinutes` | ci_failure_orchestrator/ci_audit/analyze.py:211-248 | The whole accounting of an export: duplicates, balanced tables and waste within what was billed |

## Left out

- Network, git, subprocess and sandbox plumbing, command lines, renderers and reports: no logic of their own to prove.
- JSON text, SHA-256, UUIDs and timestamps: opaque values; a result is compared in its stored form, and a digest is the value it was computed from.
- Two processes writing one run journal at once: the stores take no lock, so the journal has one writer at a time, with crashes.
- Event ids, actors and metadata, and the snapshot fields technical status, attempt and stop reason: no check or decision reads them.
- `foundation/retry.py` fingerprints and failure dispositions rest on regular expressions: the decision engine takes them as inputs.
- Store faults inside a live run: the runner's stores do not fail; crashes at every write are covered on the disk model instead.
- A run without a journal: the runner always has one.
- Patch analysis findings are inputs of the policy gate and stay fixed while files are added.
- Policy.EvaluatePolicy: does not model the reason, violation, evidence and explanation texts, which no decision reads, nor the ESCALATE answer for an engine that raises.
- Remediation.DecideRemediation: does not model the reason texts, which name the conditions of the verdict one by one.
- Repair.EvaluateRepair: does not model the lists of reasons, required gates and forbidden actions that go with an authority.
- Lower-casing of paths covers ASCII letters.
- The order in which parallel polls reach the run table is arbitrary; ordering and limit of one poll are in `Runtime.SQLiteRunStore.Select`.
- Lease owner names and invocation budgets of the runtime: nothing reads the owner, and each budget is one comparison.
- Path patterns of the supervisor are arbitrary predicates, so glob matching is not modelled.
- How often `deliver_idempotent` runs its effect as a function of incident state: delivery happens before the state check, so only the ledger bounds it.
- Bootstrap resampling, percentiles, flaky-run detection and the findings of the audit: library randomness or single readings.
- Threshold gates such as canary, SLO, approval and release gates: one reading settles them.
- Float rounding: arithmetic is exact, apart from the four-decimal rounding of ranking scores.
- Traversal.Depth: requires a graph built from distinct ids, because with an id declared twice the recursion may not terminate.
- Traversal.PlanVerification: requires the same, for the same reason.
- Traversal.Visit: requires the same, for the same reason.
- Traversal.VisitParents: requires the same, for the same reason.
- Traversal.SortByDepth: requires the same, for the same reason.
- Ranker.Survey: requires the same, for the same reason.
- Ranker.RankOne: requires the same, for the same reason.
- Ranker.Rank: requires the same, for the same reason.
- CiAudit.FirstCreated: finds the first element of the sorted group instead of sorting it, since only which run comes first matters.
