# The generation-job lifecycle, verified

Dafny model of the job queue of an image-generation service: the two queue adapters, the
scheduler that claims and dispatches jobs, the reconciler that resolves or retries them, the
admission path that feeds the queue, and the small protocols around it (prompt ids,
conversation pages, paid-action confirmation). `dafny verify dfyconfig.toml` checks everything.

## How it is built

* `Jobs`, `JobEntry` are the data: a `generation_jobs` row, and a row with its attempts and its
  append-only event log. `Apply(e, op)` is what one transaction does to one job.
* `ClaimOrder`, `Claim`, `Fairness`, `Retry`, `Registry`, `StateMachine`, `ReconcilePolicy` and
  `AdmissionPolicy` are the rules as functions, with their laws.
* `MemoryQueue`, `PostgresQueue`, `Scheduler`, `Reconciler` are the services as classes over
  mutable state. Every method is tied to those functions; the re-selecting claim loop of the
  Postgres adapter and the sorted pass of the in-memory adapter are proved equal (`Claim`).
* `Protocol` is the transition system: API requests, any number of schedulers, dispatches and
  reconcilers, each acting on what it read earlier, one transaction per step. An admission is five
  transactions (look-up, global count, own count, position, INSERT), between which anything may
  happen; a dispatch is two. An undisturbed admission, a tick, a dispatch and a reconciliation pass
  are proved to be runs of it (`AdmissionRuns.AdmissionIsARun`, `Scheduler.TickIsARun`,
  `Scheduler.DispatchIsARun`, `Reconciler.PassIsARun`).
* `ProtocolSafety` and `ProtocolBounds` carry the invariants, `ProtocolTheorems`, `ProtocolRecords`,
  `ProtocolBacklog`, `ProtocolLeases`, `ProtocolWaiting` and `ProtocolPosition` state the results over
  all runs from an empty store, `ProtocolConditions`
  and `ProtocolPrompts` say, with no hypothesis at all, exactly which steps a run must avoid to keep a
  promise, and `ProtocolExamples` has for each hypothesis runs that keep all the others and break
  what needs it.
* `Text`, `Overrides`, `Admission` are the request inputs: validation, normalisation, the
  preview/finalize round trip, idempotent admission, the reported queue position.
* `PromptIds`, `Conversations`, `PendingActions` are self-contained.

The hypotheses a run theorem needs are explicit in `Protocol.Hypotheses`. They are what the code
itself leaves to its environment:

| hypothesis | says | exact condition without it | runs that break the bound |
|---|---|---|---|
| `startsInTime` | no `mark_running` reaches a row that is back in the backlog (one that meets a later attempt's claim is allowed) | `ActiveCapIff`, `LogReplaysIff`, `LaneCapIff`, `LiveJobsIff` | `LateStartBreaksCap`, `LateStartBreaksLiveBound` |
| `oneScheduler` | one scheduler process | `LaneCapIff` | `TwoSchedulersFillOneSlot` |
| `oneReconciler` | one reconciler process | `RetriesBoundedIff`, `NeverEarlyIff` | `StaleReconcilerPassesMaximum` |
| `submitsReturn` | `submit` reports failures in its result | `RetriesBoundedIff`, `NeverEarlyIff` | `RaisingSubmitsNeverStop`, `RaiseUnderPassIsEarly` |
| `serialAdmissions` | between a request's count of its own backlog and its INSERT no other request for the same conversation, or user without one, is counted | `LiveJobsIff` | `OverlapBreaksCaps` |

None of them is needed for the event log up to a live job's phase, for fresh attempts and prompt ids,
finished jobs and their results, idempotency and one job per key; the bound on live jobs that counts
overlapping admissions in needs `startsInTime` only.

## Where the code and its own words differ

The model follows the code.

* `set_prompt_id` is documented to be safe because attempts have rows of their own; it writes to
  the newest attempt, so a late write of an earlier dispatch lands on a later attempt
  (`JobEntry.PromptLandsIff`, `ProtocolPrompts.OwnIdsIff`,
  `ProtocolExamples.LatePromptShowsOnNextAttempt`).
* The backlog caps are counted and the job inserted in separate transactions: overlapping admissions
  pass the caps together (`ProtocolTheorems.LiveJobsBound`, `ProtocolExamples.OverlapBreaksCaps`),
  and the reported position may be stale (`ProtocolPosition.ReportedPositionIff`).
* Two admissions with one idempotency key that overlap do not both get the job: the later INSERT
  fails on the unique constraint, which nothing turns into a replay
  (`ProtocolTheorems.LateDuplicateIsRefused`, `ProtocolConditions.InsertAddsIff`,
  `ProtocolExamples.OverlappingKeyIsRefused`).
* The Postgres `mark_running` accepts a row that is back in `retry_wait`; then the
  per-user cap and the log-to-row correspondence can fail (`ProtocolConditions.ActiveCapIff`,
  `ProtocolConditions.LogReplaysIff`, `ProtocolExamples.LateStartBreaksCap`).
* The in-memory `mark_running` has no terminal guard (`MemoryQueue.MemoryMarkRunningIff`), and an
  in-memory job that is claimed again shows the prompt id of its previous attempt until its next
  `mark_running` (`MemoryQueue.ShownIdIff`, `MemoryQueue.ClaimShowsStaleId`).
* The adapters do not keep to the transition map: of the thirteen changes a timely actor makes five
  jump over states (`JobEntry.EveryChange`, `StateMachine.TimelyChangeIsAShortcut`), `cancel` skips
  `cancelling` (`JobEntry.CancelAgainstMachine`), and a late actor runs or finishes a waiting job
  that the map would first have claimed again (`StateMachine.LateChangeSkipsAClaim`).
* `_dispatch` retries without asking `is_retryable`, so raising submits pass the attempt maximum
  (`ProtocolConditions.RetriesBoundedIff`, `ProtocolExamples.RaisingSubmitsNeverStop`).
* Finalizing equals a direct admission for every request but those that already carry the key
  `preview_original_overrides` (`Admission.FinalizeMatchesDirectIff`).
* Finalizing is documented to refuse a job that was not admitted as a preview; a Gemini job whose
  request carried the caller's own `is_preview` key passes (`Admission.PreviewGuardIff`).
* Even of an undisturbed admission the position is the Postgres rank only when no waiting job of the
  lane has the very same `queued_at` (`Admission.AdmissionPositionIsRank`).
* The reconciler's five-minute rule for active jobs without a lease never applies to the durable queue:
  there a job with a prompt id has an attempt row, and that a lease (`Reconciler.StillActiveIff`,
  `ReconcilePolicy.UnknownIsGivenUpIff`).
* A replayed admission of a Gemini request reports the caller's own `is_preview` key
  (`Admission.ResubmissionReplays`).
* The comment in `confirm_pending_action` that a retry recovers from a crash between confirming and
  enqueueing is wrong: the action is stuck for good (`PendingActions.ReplayPossibleIff`,
  `PendingActions.StuckForever`, `PendingActions.CrashLeavesStuck`); and "unexpired at the moment
  of the UPDATE" is judged at the start of the request (`PendingActions.SlowConfirmBeatsExpiry`,
  `PendingActions.UpdateWinsIff`).
* A cancel overtaken by a confirm answers with the confirmed row instead of a conflict
  (`PendingActions.OvertakenCancelShowsConfirmed`, `PendingActions.CancelIsOvertaken`).
* An empty `client_message_id` is no replay key, yet it is unique: the second one is a conflict
  (`Conversations.RepeatIsReplayed`).

## Model

| member | source | states |
|---|---|---|
| Claim.PicksIffScan | backend/app/adapters/queue/postgres.py:377-426 | the loop that re-selects the best row and recounts active jobs claims exactly what one sorted pass with running counts claims, in the same order, whenever no two candidates tie |
| Claim.ClaimRefinement | backend/app/adapters/queue/__init__.py:263-299 | the same for any strictly sorted enumeration of the eligible jobs, both directions |
| Claim.AdaptersClaimAlike | backend/app/domain/jobs/admission.py:317-328 | on rows as admission creates them, with distinct queued_at, both adapters under their own sort keys claim alike |
| Claim.OrdersAgree | backend/app/adapters/queue/postgres.py:316-331 | aged and static keys order admission-produced jobs by queued_at, at every instant |
| Claim.PicksIffSomeScan | backend/app/adapters/queue/postgres.py:377-426 | with ties: the outcomes of the re-selecting loop are exactly the sorted passes over all the orders in which tied rows may stand, both directions |
| Claim.PickedSize | backend/app/adapters/queue/postgres.py:377-426 | however ties fall, the Postgres loop claims min(capacity, sum over users of min(candidates, slots left under the cap)) |
| Claim.ScanSplit | backend/app/adapters/queue/__init__.py:281-299 | claiming from a list is claiming from its front, then from the rest with what is left |
| Claim.ClaimedIff | backend/app/adapters/queue/__init__.py:288-299 | a candidate is claimed iff, counting only claims that rank ahead, a slot is left and its user is under the cap |
| Claim.ClaimSize | backend/app/adapters/queue/__init__.py:281-299 | a capped claim takes min(capacity, sum over users of min(candidates, slots left under the cap)) |
| Claim.UncappedScan | backend/app/adapters/queue/__init__.py:281-299 | without a cap exactly the best `capacity` candidates |
| Claim.LeftBehind | backend/app/adapters/queue/postgres.py:313-356 | an uncapped claim that leaves an available job took exactly `capacity` jobs, all ranking ahead of it |
| Claim.PassedOver | backend/app/adapters/queue/postgres.py:287-426 | any claim, capped or not, that leaves an available job of a user still under the cap has used up its capacity, and on nobody that job precedes |
| Claim.BatchIsScan | backend/app/adapters/queue/postgres.py:313-356 | the one-statement batch is the sorted pass as a set |
| Claim.OutcomeSize | backend/app/adapters/queue/postgres.py:287-426 | whichever path it takes and however ties fall, a claim takes min(capacity, what is claimable as the table stands before it) |
| Claim.ClaimShiftsRanks | backend/app/adapters/queue/postgres.py:725-776 | an uncapped claim of k takes exactly ranks 0..k-1 and lowers every other rank by k |
| Claim.OutcomeFacts | backend/app/adapters/queue/postgres.py:287-426 | every claim path: distinct eligible rows, at most capacity, and the per-user cap is kept |
| Jobs.DispatchAllFrame | backend/app/adapters/queue/__init__.py:288-299 | claiming rewrites the state of the claimed jobs and nothing else |
| ClaimOrder.OvertakesIff | backend/app/adapters/queue/postgres.py:316-331 | the aged order does not depend on the clock; exactly when a later job overtakes |
| ClaimOrder.StaticOrderIff | backend/app/adapters/queue/__init__.py:281-287 | in memory the larger stored priority goes first whatever the times, and of equals the one queued earlier |
| ClaimOrder.NeverOvertakes | backend/app/domain/jobs/fairness.py:15-23 | a job queued more than (p_k - p_j)/rate minutes later is never ahead |
| ClaimOrder.RankIsIndex | backend/app/adapters/queue/__init__.py:452-472 | the index in the sorted lane is the number of strict predecessors |
| ClaimOrder.RanksAreABijection | backend/app/adapters/queue/postgres.py:725-776 | ranks of a tie-free lane are a bijection onto 0..n-1 |
| ClaimOrder.BackOfLane | backend/app/domain/jobs/admission.py:303-315 | a new job's rank is the lane's size iff everybody in the lane precedes it |
| ClaimOrder.NewestSortsLast | backend/app/adapters/queue/__init__.py:281-287 | stable sorting keeps a job that precedes nobody last, ties included |
| ClaimOrder.SortIdsLists | backend/app/adapters/queue/__init__.py:281-287 | sorting enumerates the same jobs, strictly ordered when there are no ties |
| Fairness.ClampIffFuture | backend/app/domain/jobs/fairness.py:15-23 | the clamped and the SQL aging formula agree iff the job is not from the future or nothing ages |
| Fairness.AgedGap | backend/app/domain/jobs/fairness.py:15-23 | the difference of two aged priorities does not depend on the clock |
| Fairness.RoundsCount | backend/app/domain/jobs/fairness.py:26-37 | every user is visited exactly max(0, depth) times |
| Fairness.PrefixBand | backend/app/domain/jobs/fairness.py:26-37 | every prefix is some full rounds plus at most one more turn each |
| Fairness.SortedUsersAscend | backend/app/domain/jobs/fairness.py:26-37 | users are visited in ascending order |
| Fairness.RoundRobinFair | backend/app/domain/jobs/fairness.py:26-37 | in every prefix a user two turns behind another has no work left |
| Fairness.WeightedRoundRobinOrder | backend/app/domain/jobs/fairness.py:26-37 | the nested loop ends for arbitrary depths and visits the users round by round |
| Retry.BackoffBand | backend/app/domain/jobs/retry.py:44-51 | every draw is within 20% of min(2^n, 120) seconds |
| Retry.BackoffEdges | backend/app/domain/jobs/retry.py:44-51 | the extreme draws are exactly 20% under and over min(2^n, 120) seconds |
| Retry.ShortestDelayGrows | backend/app/domain/jobs/retry.py:44-51 | the shortest backoff never shrinks from one attempt to the next |
| Retry.LastAttemptIsFinal | backend/app/domain/jobs/retry.py:28-34 | retryable iff below the maximum and one of the five codes of faults that may pass |
| Registry.LanesPartition | backend/app/domain/jobs/workflow_registry.py:73-104 | the lanes are disjoint and a kind's lane is its backend |
| Registry.LanesByName | backend/app/domain/jobs/workflow_registry.py:23-53 | which kinds each lane has |
| Registry.ResolvedWorkflowLane | backend/app/domain/jobs/workflow_registry.py:62-66 | admission, lanes and router agree on a workflow's backend |
| StateMachine.TimelyChangeIsAShortcut | backend/app/domain/jobs/state_machine.py:27-37 | of the thirteen changes timely transactions make eight are edges and five jump; each jump is the shortest path of the map, and only the way from retry_wait to dispatched passes a waiting state |
| StateMachine.LateChangeSkipsAClaim | backend/app/domain/jobs/state_machine.py:27-37 | every path of the map from a waiting state to running or succeeded goes through dispatched, so the late changes stand for no path the job has taken |
| StateMachine.TerminalIsStuck | backend/app/domain/jobs/state_machine.py:47-54 | no path leaves a terminal state |
| StateMachine.EveryLiveJobCanEnd | backend/app/domain/jobs/state_machine.py:27-37 | exactly the live states have an edge to failed, and one to cancelled or cancelling; only running has one to succeeded |
| StateMachine.RequestCancelIsAnEdge | backend/app/domain/jobs/state_machine.py:70-85 | waiting jobs go to cancelled and active ones to cancelling, each along one allowed edge, finished ones are reported so, and asking again is harmless |
| JobEntry.ApplyInv | backend/app/adapters/queue/postgres.py:503-659 | every transaction keeps: numbers 1..n, terminal event iff terminal row, unique and last, fresh attempts, matching error columns |
| JobEntry.AppendFacts | backend/app/adapters/queue/postgres.py:780-796 | appending numbers the event n+1 and leaves the earlier events alone |
| JobEntry.OutcomeClosesNewest | backend/app/adapters/queue/postgres.py:798-832 | an outcome on a live job finishes its newest attempt with the row's new state and, when one is given, the row's error; older attempts, the lease and the prompt id stay |
| JobEntry.RenewalMovesLease | backend/app/adapters/queue/postgres.py:488-501 | a renewal moves the newest attempt's lease and nothing else in any state; starting and cancelling touch no attempt |
| JobEntry.TerminalStable | backend/app/adapters/queue/postgres.py:518-659 | no transaction changes a terminal row, its log, or its result |
| JobEntry.EveryChange | backend/app/adapters/queue/postgres.py:503-659 | which ordered pairs each transaction can produce: a late change when the dispatch or reconciliation of an earlier attempt meets a waiting job, a timely one otherwise |
| JobEntry.ChangesHappen | backend/app/adapters/queue/postgres.py:503-659 | and each of these pairs is produced by some transaction |
| JobEntry.CancelAgainstMachine | backend/app/adapters/queue/postgres.py:642-659 | cancel lands where request_cancel would, except for active jobs |
| JobEntry.ClaimIsFresh | backend/app/adapters/queue/postgres.py:240-267 | each claim inserts a brand-new attempt row, the conflict arm is unreachable, no prompt id shows |
| JobEntry.PromptOnlyFromSet | backend/app/adapters/queue/postgres.py:628-640 | only set_prompt_id makes a prompt id appear |
| JobEntry.PromptLandsIff | backend/app/adapters/queue/postgres.py:628-640 | a prompt id lands on the attempt that meant it iff no later attempt exists |
| JobEntry.ViewFollowsEvent | backend/app/adapters/queue/postgres.py:518-626 | the row changes exactly as the event written in the same transaction says |
| JobEntry.ReplayIff | backend/app/adapters/queue/postgres.py:503-516 | the log replays to the row after any transaction but a mark_running on a waiting row |
| JobEntry.ReplayAlways | backend/app/adapters/queue/postgres.py:780-796 | with no hypothesis the log still replays to everything but a live job's phase |
| JobEntry.ApplyOnTime | backend/app/adapters/queue/postgres.py:571-626 | timely claims and long enough delays keep every retry from being reclaimed early |
| PostgresQueue.PostgresJobQueue.Enqueue | backend/app/adapters/queue/postgres.py:180-224 | inserts row and created event, or refuses an unknown kind or a duplicate and changes nothing |
| PostgresQueue.PostgresJobQueue.FindByIdempotencyKey | backend/app/adapters/queue/postgres.py:661-674 | finds a job of that user, key and kind iff there is one |
| PostgresQueue.PostgresJobQueue.UpdateLatestAttempt | backend/app/adapters/queue/postgres.py:798-832 | closes the newest attempt, no-op for a job never claimed |
| PostgresQueue.PostgresJobQueue.FinalizeClaimedRow | backend/app/adapters/queue/postgres.py:240-285 | the attempt upsert and dispatched event of a claimed row |
| PostgresQueue.PostgresJobQueue.ClaimOneByOne | backend/app/adapters/queue/postgres.py:377-426 | the loop's result is an outcome of Picks and each claimed job got the whole claim transaction |
| PostgresQueue.PostgresJobQueue.ClaimBatch | backend/app/adapters/queue/postgres.py:313-356 | the batch statement takes the top rows and writes each up |
| PostgresQueue.PostgresJobQueue.SelectBest | backend/app/adapters/queue/postgres.py:377-420 | ORDER BY LIMIT 1 over eligible rows under the cap, none exactly when all are capped |
| PostgresQueue.PostgresJobQueue.ClaimNext | backend/app/adapters/queue/postgres.py:448-462 | the claim as the scheduler calls it, all three paths |
| PostgresQueue.PostgresJobQueue.MarkRunning | backend/app/adapters/queue/postgres.py:503-516 | the guarded UPDATE as one transaction on one job |
| PostgresQueue.PostgresJobQueue.MarkSucceeded | backend/app/adapters/queue/postgres.py:518-541 | row, attempt and event in one guarded transaction |
| PostgresQueue.PostgresJobQueue.MarkFailed | backend/app/adapters/queue/postgres.py:543-569 | row, attempt and event in one guarded transaction |
| PostgresQueue.PostgresJobQueue.MarkRetryWait | backend/app/adapters/queue/postgres.py:571-626 | attempt bump, backoff, attempt and event in one guarded transaction |
| PostgresQueue.PostgresJobQueue.SetPromptId | backend/app/adapters/queue/postgres.py:628-640 | writes to the newest attempt |
| PostgresQueue.PostgresJobQueue.RenewLease | backend/app/adapters/queue/postgres.py:488-501 | extends the newest attempt's lease whatever the state |
| PostgresQueue.PostgresJobQueue.Cancel | backend/app/adapters/queue/postgres.py:642-659 | cancels a live job, true iff it did |
| PostgresQueue.PostgresJobQueue.ListActive | backend/app/adapters/queue/postgres.py:464-471 | exactly the active jobs with their newest attempt |
| PostgresQueue.PostgresJobQueue.QueueRank | backend/app/adapters/queue/postgres.py:725-776 | the number of strict predecessors, none for a job not waiting |
| MemoryQueue.InMemoryJobQueue.ClaimNext | backend/app/adapters/queue/__init__.py:263-299 | exactly the sorted pass; only the states of the claimed objects change |
| MemoryQueue.InMemoryJobQueue.ClaimNextWithLease | backend/app/adapters/queue/__init__.py:301-316 | the same, with leases on exactly the claimed objects |
| MemoryQueue.InMemoryJobQueue.ActiveCounts | backend/app/adapters/queue/__init__.py:281-287 | the one-pass dictionary of counts is the per-user recount |
| MemoryQueue.InMemoryJobQueue.Enqueue | backend/app/adapters/queue/__init__.py:255-258 | adds the object under its id |
| MemoryQueue.InMemoryJobQueue.RenewLease | backend/app/adapters/queue/__init__.py:328-337 | extends the lease of an active job only |
| MemoryQueue.InMemoryJobQueue.MarkRunning | backend/app/adapters/queue/__init__.py:339-349 | sets running and forgets the prompt id, with no terminal guard |
| MemoryQueue.InMemoryJobQueue.MarkSucceeded | backend/app/adapters/queue/__init__.py:351-365 | guarded outcome: columns, result and lease |
| MemoryQueue.InMemoryJobQueue.MarkFailed | backend/app/adapters/queue/__init__.py:367-378 | guarded outcome: columns and lease |
| MemoryQueue.InMemoryJobQueue.MarkRetryWait | backend/app/adapters/queue/__init__.py:380-401 | guarded outcome: attempt bump, available_at, lease |
| MemoryQueue.InMemoryJobQueue.SetPromptId | backend/app/adapters/queue/__init__.py:403-405 | sets the prompt id of that object only |
| MemoryQueue.InMemoryJobQueue.Cancel | backend/app/adapters/queue/__init__.py:407-412 | cancels a live job, true iff it did |
| MemoryQueue.InMemoryJobQueue.FindByIdempotencyKey | backend/app/adapters/queue/__init__.py:414-424 | finds a job of that user, key and kind iff there is one |
| MemoryQueue.InMemoryJobQueue.QueueRank | backend/app/adapters/queue/__init__.py:452-472 | the index in the sorted lane, which without ties is the number of strict predecessors |
| MemoryQueue.MemoryMarkRunningIff | backend/app/adapters/queue/__init__.py:339-349 | the in-memory mark_running is the Postgres one iff the job has not finished |
| MemoryQueue.AdaptersAgreeIff | backend/app/adapters/queue/__init__.py:339-412 | given the same calls, claims and cancels among them, the two adapters agree on every row throughout iff no mark_running comes after its job has finished |
| MemoryQueue.OutcomeDropsLease | backend/app/adapters/queue/__init__.py:351-401 | an outcome of a live job drops its lease and keeps its prompt id, a success stores its result; a finished job keeps all |
| MemoryQueue.ShownIdIff | backend/app/adapters/queue/__init__.py:339-405 | a job shows the id that was last written to it unless a mark_running came later |
| MemoryQueue.ClaimShowsStaleId | backend/app/adapters/queue/__init__.py:263-299 | a claim leaves the in-memory id as it was, where the durable one shows none |
| ReconcilePolicy.HealthyJobIsLeftAlone | backend/app/services/reconciler.py:84-162 | under a valid lease an outcome is written iff ComfyUI answered definitely for a known prompt id |
| ReconcilePolicy.UnknownIsGivenUpIff | backend/app/services/reconciler.py:99-115 | an unknown id is given up on iff the lease is over, or, without a lease, the job was queued at least 300 seconds ago |
| ReconcilePolicy.RetryWithinBounds | backend/app/services/reconciler.py:117-143 | retries only below the maximum and after at least the shortest backoff |
| Reconciler.ReconcilerService.RunOnce | backend/app/services/reconciler.py:164-174 | in any order, every active job is resolved from what it was when the pass began, nothing else changes |
| Reconciler.ReconcilerService.ReconcileJob | backend/app/services/reconciler.py:145-162 | one job: ask ComfyUI when a prompt id is known, else judge the lease |
| Reconciler.ReconcilerService.ResolveViaComfy | backend/app/services/reconciler.py:84-115 | what each of ComfyUI's answers leads to |
| Reconciler.ReconcilerService.FailOrRetry | backend/app/services/reconciler.py:117-143 | retry with backoff or fail, by is_retryable |
| Reconciler.RunningRenewsLease | backend/app/services/reconciler.py:92-98 | a job heard to be running gets its newest attempt's lease extended to 120 seconds from the write and is otherwise unchanged |
| Reconciler.GivenUpIsRetriedOrFailed | backend/app/services/reconciler.py:84-162 | which jobs a pass gives up on and why; they wait for a retry while an attempt is left and have failed otherwise, row and newest attempt saying why |
| Reconciler.StillActiveIff | backend/app/services/reconciler.py:84-162 | which jobs are still active after a pass, both directions |
| Reconciler.FinishedIsRecorded | backend/app/services/reconciler.py:87-92 | a finished generation ends succeeded with its outputs on the newest attempt |
| Reconciler.PassIsARun | backend/app/services/reconciler.py:164-174 | a pass, however long each job of it takes, is a run of the transition system: the snapshot, then waits and reconciliations, and it uses the snapshot up |
| Scheduler.SchedulerService.ReserveCapacityByBackend | backend/app/services/scheduler.py:90-149 | the slots each lane has left; none for ComfyUI when registered workers are all offline |
| Scheduler.ReservationIsExact | backend/app/services/scheduler.py:90-149 | a reservation fills each lane exactly to its configured slots; the ComfyUI lane gets nothing iff it is full or its registered workers are all offline |
| Scheduler.ReserveStepIsExact | backend/app/services/scheduler.py:90-149 | so does a reserving step of the transition system |
| Scheduler.SchedulerService.ClaimForBackend | backend/app/services/scheduler.py:175-197 | one lane's claim under the per-user cap |
| Scheduler.SchedulerService.Tick | backend/app/services/scheduler.py:199-212 | two claims, the second on what the first left; every claimed job becomes a task |
| Scheduler.SchedulerService.Dispatch | backend/app/services/scheduler.py:151-173 | mark running, then the prompt id, or a retry when the submit raised |
| Scheduler.TickIsARun | backend/app/services/scheduler.py:199-212 | a tick is a run of the transition system |
| Scheduler.DispatchIsARun | backend/app/services/scheduler.py:151-173 | a dispatch is a run of the transition system, the submit taking any time before it returns or raises |
| Scheduler.RaisedDispatchWaits | backend/app/services/scheduler.py:167-173 | a raising submit puts a live job back with one more attempt gone and the exception's name, and touches no other |
| Scheduler.TickWithinSlots | backend/app/services/scheduler.py:107-149 | a tick never takes a lane past its configured slots nor a user past the cap |
| Scheduler.DispatchShowsPrompt | backend/app/services/scheduler.py:151-166 | claim, dispatch: running under a new attempt that shows exactly this submit's prompt id |
| ProtocolTheorems.LogOfEveryRun | backend/app/adapters/queue/postgres.py:780-796 | in every reachable state: numbers 1..n, retry events count attempts, dispatched numbers increase, terminal event iff terminal, unique and last, log replays to the row up to a live job's phase |
| ProtocolTheorems.LogReplaysToRow | backend/app/adapters/queue/postgres.py:503-626 | under startsInTime the log replays to the row; without it, ProtocolConditions.LogReplaysIff |
| ProtocolTheorems.EveryClaimIsFresh | backend/app/adapters/queue/postgres.py:240-267 | every claimable job gets a new attempt row and shows no prompt id |
| ProtocolTheorems.NoPromptUntilSet | backend/app/adapters/queue/postgres.py:628-640 | once a job shows no prompt id, as after a claim, none shows at any later point of the run until a set_prompt_id of that job |
| ProtocolTheorems.ErrorsMatchState | backend/app/adapters/queue/postgres.py:518-626 | succeeded has no error code, failed and retry_wait have one |
| ProtocolRecords.AttemptsOfEveryRun | backend/app/adapters/queue/postgres.py:240-285 | in every reachable state: a just claimed job's newest attempt is unfinished, that of a succeeded, failed or waiting-to-retry job is finished with the job's state and error, and every older one was given back for a retry |
| ProtocolRecords.OutcomeHasAttempt | backend/app/adapters/queue/postgres.py:798-832 | and every job that was ever dispatched and is not cancelled has a newest attempt |
| ProtocolRecords.EventsOfEveryRun | backend/app/adapters/queue/postgres.py:571-626 | in every reachable state the log is in the order of time, and a job waiting for its retry is available when, and for the reason, its last event says |
| ProtocolRecords.InsertedJob | backend/app/domain/jobs/admission.py:317-329 | the row an INSERT adds: the request's columns, queued, no attempt gone of three, available from queued_at, one created event |
| ProtocolRecords.CancelLeaves | backend/app/adapters/queue/postgres.py:642-659 | a cancel leaves a live job cancelled with one event and its attempts as they are, and changes nothing else |
| ProtocolRecords.RaiseLeaves | backend/app/services/scheduler.py:167-173 | what a raising submit leaves of a live job, its backoff within the band |
| ProtocolTheorems.ActiveCapHolds | backend/app/adapters/queue/postgres.py:358-426 | under startsInTime no user ever exceeds the active cap, any number of schedulers; without it, ProtocolConditions.ActiveCapIff |
| ProtocolTheorems.LaneCapHolds | backend/app/services/scheduler.py:107-149 | under startsInTime and oneScheduler active Gemini jobs stay within the Gemini slots and active ComfyUI jobs within the ComfyUI slots and pending buffer; without them, ProtocolConditions.LaneCapIff |
| ProtocolTheorems.LiveJobsBound | backend/app/domain/jobs/admission.py:275-329 | under startsInTime, whatever admissions overlap: live jobs of a conversation, or of a user without conversations, exceed both caps together by at most the other admissions that were under way at once |
| ProtocolTheorems.LiveJobsConserved | backend/app/domain/jobs/admission.py:275-329 | under startsInTime and serialAdmissions they never exceed both caps together; without the latter, LiveJobsBound and ProtocolConditions.LiveJobsIff |
| ProtocolBacklog.GlobalCountIff | backend/app/domain/jobs/admission.py:275-282 | a request is turned away by the system-wide count iff at least so many rows are queued or waiting to retry |
| ProtocolBacklog.OwnCountIff | backend/app/domain/jobs/admission.py:284-301 | and by its own count iff at least so many of these are its conversation's, or its user's when it has none |
| ProtocolBacklog.InsertedWasCounted | backend/app/domain/jobs/admission.py:275-329 | over any run every job inserted belongs to a request that was counted, at some moment before, below the system-wide cap |
| ProtocolBacklog.BacklogIff | backend/app/domain/jobs/admission.py:275-329 | with no hypothesis: the whole backlog is within a bound throughout a run iff every INSERT, and every retry of a job that was not waiting, finds it below the bound at that instant |
| ProtocolTheorems.RetriesAreBounded | backend/app/services/reconciler.py:117-143 | under oneReconciler and submitsReturn: attempts below the maximum, at most that many claims, at most three state changes per attempt; without them, ProtocolConditions.RetriesBoundedIff |
| ProtocolTheorems.NoEarlyReclaim | backend/app/domain/jobs/retry.py:44-51 | under oneReconciler and submitsReturn the n-th retry is never claimed sooner than 0.8 * min(2^n, 120) seconds after it was scheduled; without them, ProtocolConditions.NeverEarlyIff |
| ProtocolLeases.HeardRunningIsLeft | backend/app/services/reconciler.py:92-115 | over any run a job heard to be running is left alone on "unknown" by every pass that begins within 120 seconds, unless a further attempt had been claimed |
| ProtocolTheorems.FinishedForever | backend/app/adapters/queue/postgres.py:503-659 | from any state, jobs are never lost and a finished job never changes |
| ProtocolTheorems.ResultForever | backend/app/adapters/queue/postgres.py:518-541 | over any run: nor does the result it ended with, also when it ended without an attempt |
| ProtocolTheorems.ChangesOfEveryRun | backend/app/adapters/queue/postgres.py:503-659 | every change of a reachable job is a timely or a late one; under startsInTime only a dispatched job is started; with one reconciler and submits that return as well, every change is timely |
| ProtocolTheorems.ReadmissionReplays | backend/app/domain/jobs/admission.py:244-265 | an admitted request is answered with the same job at any later point and changes nothing, caps full or not |
| ProtocolTheorems.LateDuplicateIsRefused | backend/app/adapters/queue/postgres.py:180-224 | a request looked up before another with its key was inserted adds nothing at any later point: its INSERT fails |
| ProtocolTheorems.OneJobPerKey | backend/alembic/versions/0001_initial_schema.py:148 | at most one job per user, key and kind in every reachable state, however admissions overlap, from the unique constraint |
| ProtocolPosition.ReportedPositionIff | backend/app/domain/jobs/admission.py:303-329 | over any run between count and INSERT: rank = position - counted jobs of the very same queued_at + earlier jobs inserted or given back for a retry - earlier jobs claimed, cancelled, started late or finished late; so it is the position iff arrivals = ties + departures |
| ProtocolPosition.FrontRun | backend/app/adapters/queue/postgres.py:725-776 | over any run the waiting jobs of a lane queued before an instant change by exactly these arrivals and departures |
| ProtocolConditions.ActiveCapIff | backend/app/adapters/queue/postgres.py:503-516 | with no hypothesis: every user is within the cap throughout a run iff each mark_running that reaches a waiting job finds its user below the cap |
| ProtocolConditions.LogReplaysIff | backend/app/adapters/queue/postgres.py:503-516 | with no hypothesis: a job's log replays to its row throughout a run iff no mark_running reaches it while it waits |
| ProtocolConditions.LaneCapIff | backend/app/services/scheduler.py:107-149 | with no hypothesis: a lane is within any number of slots throughout a run iff each claim of it has a budget, or claimable candidates, for no more of them than are free when it is made, and each mark_running of a waiting job finds one free |
| ProtocolConditions.RetriesBoundedIff | backend/app/services/reconciler.py:117-143 | with no hypothesis: current_attempt is below the maximum throughout a run iff each scheduled retry leaves the row, not the snapshot, an attempt to go |
| ProtocolConditions.NeverEarlyIff | backend/app/adapters/queue/postgres.py:571-626 | with no hypothesis: no retry can be claimed early throughout a run iff each is scheduled with at least the shortest backoff of the attempt its row is at |
| ProtocolConditions.LiveJobsIff | backend/app/domain/jobs/admission.py:275-329 | with no hypothesis: live jobs stay within a bound throughout a run iff each INSERT finds them below it at that instant |
| ProtocolConditions.InsertAddsIff | backend/app/domain/jobs/admission.py:244-329 | a request whose look-up found nothing gets its job at the INSERT iff no INSERT under its key comes in between; otherwise its own changes nothing |
| ProtocolPrompts.OwnIdsIff | backend/app/adapters/queue/postgres.py:628-640 | with no hypothesis: every prompt id a job shows is the one its attempt's own dispatch was given, throughout a run, iff each set_prompt_id comes while its attempt is still the newest |
| ProtocolWaiting.BoundedWaiting | backend/app/adapters/queue/postgres.py:287-426 | under oneReconciler and submitsReturn: over any run, claims that could have taken a job and took others had together at most max_attempts slots for each job of its lane queued no later |
| ProtocolExamples.LateStartBreaksCap | backend/app/adapters/queue/postgres.py:503-516 | a run with startsInTime dropped and every other hypothesis kept: the user ends past the cap, the lane past its slot, the log at retry_wait under a running row |
| ProtocolExamples.LateStartBreaksLiveBound | backend/app/adapters/queue/postgres.py:503-516 | a run with only startsInTime dropped and no admissions overlapping that ends with more live jobs than both caps together |
| ProtocolExamples.RaisingSubmitsNeverStop | backend/app/services/scheduler.py:167-173 | with submitsReturn dropped: for every n a run in which the job has been claimed and retried n times, its maximum being three |
| ProtocolExamples.TwoSchedulersFillOneSlot | backend/app/services/scheduler.py:107-149 | with oneScheduler dropped: a run that ends with one more active job than slots |
| ProtocolExamples.RaiseUnderPassIsEarly | backend/app/services/scheduler.py:167-173 | with submitsReturn dropped: a run in which a raise falls between the snapshot and its use, and the second retry is claimed earlier than any second backoff |
| ProtocolExamples.StaleReconcilerPassesMaximum | backend/app/services/reconciler.py:117-143 | with oneReconciler dropped: a run in which a stale snapshot takes the job to its maximum, and it is claimed a fourth time earlier than any third backoff |
| ProtocolExamples.OverlapBreaksCaps | backend/app/domain/jobs/admission.py:244-329 | with serialAdmissions dropped: a run with more live jobs than both caps together, whose last job reports position 0 and has rank 1 |
| ProtocolExamples.LatePromptShowsOnNextAttempt | backend/app/adapters/queue/postgres.py:628-640 | with every hypothesis kept: a run in which the prompt id of the first attempt shows on the second and never on the first |
| ProtocolExamples.OverlappingKeyIsRefused | backend/app/domain/jobs/admission.py:244-329 | with every hypothesis kept: a run in which a request that found nothing is refused at its INSERT, while a look-up now is answered with the job |
| AdmissionPolicy.ReplayBeatsCaps | backend/app/domain/jobs/idempotency.py:35-43 | a known key is answered replay or conflict by payload equality alone |
| AdmissionPolicy.AdmitKeepsUnique | backend/app/domain/jobs/admission.py:317-328 | an admission never duplicates a key |
| Overrides.ValidateOverrides | backend/app/domain/jobs/comfy_overrides.py:92-182 | which error first, or exactly the kept keys and values |
| Overrides.FirstFaultUnique | backend/app/domain/jobs/comfy_overrides.py:111-128 | of several bad fields the first in checking order is the one reported |
| Overrides.AcceptedIff | backend/app/domain/jobs/comfy_overrides.py:92-182 | which requests pass: known keys only, each text in the allowlist of its own field |
| Overrides.NumbersAreKeptIff | backend/app/domain/jobs/comfy_overrides.py:130-182 | a number is kept as asked for iff it is in range, the negative prompt is cut to its limit, other texts are stripped |
| Overrides.RefusalsSayWhy | backend/app/domain/jobs/comfy_overrides.py:97-128 | what each refusal says of the request |
| Overrides.ValidatedIsInRange | backend/app/domain/jobs/comfy_overrides.py:92-96 | every returned value is allowlisted or in range |
| Overrides.ValidationIdempotentIff | backend/app/domain/jobs/comfy_overrides.py:92-182 | validating the result again returns it unchanged, for every request, iff the length limit is not negative |
| Overrides.ApplyOverrides | backend/app/domain/jobs/comfy_overrides.py:185-214 | every override replaces, the negative prompt is added to the profile's own |
| Overrides.BaselineTermsStay | backend/app/domain/jobs/comfy_overrides.py:189-205 | the profile's terms stay in front, the caller's at the end, graph-selecting fields are out of reach |
| Overrides.OverrideLands | backend/app/domain/jobs/comfy_overrides.py:185-214 | each text override lands on its own field and on no other |
| Overrides.ScaleAndTermsLand | backend/app/domain/jobs/comfy_overrides.py:185-214 | so does the scale; the negative prompt is joined to the profile's own by a comma |
| Overrides.PreviewOnlyChangesSteps | backend/app/domain/jobs/admission.py:212-222 | forcing the preview steps changes the step count and nothing else |
| Overrides.ResolveIdempotent | backend/app/domain/jobs/comfy_profiles.py:108-121 | a resolved profile key resolves to itself and is available |
| Overrides.NamedOrStudent | backend/app/domain/jobs/comfy_profiles.py:108-121 | a named profile is used if there is one, a blank or missing name stands for student |
| Text.HeadIdempotentIff | backend/app/domain/jobs/comfy_overrides.py:177-180 | cutting to n characters is idempotent iff n is not negative |
| Text.StripIdempotent | backend/app/domain/jobs/comfy_overrides.py:115-128 | stripping twice is stripping once |
| Text.StripTakesBlanks | backend/app/domain/jobs/comfy_overrides.py:115-128 | strip takes only blanks, from both ends |
| Text.ParseDecimal | backend/app/adapters/comfyui/multi_worker.py:67-82 | int(str(n)) is n |
| Text.PartitionJoined | backend/app/adapters/comfyui/multi_worker.py:76-82 | only the first separator splits |
| Admission.Normalise | backend/app/domain/jobs/admission.py:194-242 | the stored payload or the first error, per backend |
| Admission.PreviewAcceptedIff | backend/app/domain/jobs/admission.py:212-216 | a preview is accepted iff previews are enabled and the request without `preview` is |
| Admission.PreviewStores | backend/app/domain/jobs/admission.py:205-234 | what a preview and a direct request store: the profile, the overrides with the preview's step count, and the overrides as asked for |
| Admission.PreviewRendersAsDirect | backend/app/domain/jobs/admission.py:212-222 | a preview renders as the direct request would, in the preview's steps |
| Admission.NormalisationIdempotent | backend/app/domain/jobs/admission.py:194-234 | normalising a stored non-preview payload again changes nothing |
| Admission.RebuildInputs | backend/app/api/v1/generations.py:194-198 | the pops and assignments rebuild exactly the final inputs |
| Admission.FinalizeMatchesDirectIff | backend/app/api/v1/generations.py:194-208 | finalizing a preview stores the direct payload plus preview_of iff the request did not carry the reserved key |
| Admission.FinalizeGeneration | backend/app/api/v1/generations.py:147-238 | each refusal iff its own condition on the row (not the caller's, no preview flag, not succeeded) and then nothing changes; else admission of the rebuilt inputs |
| Admission.FinalizedJobPayload | backend/app/api/v1/generations.py:194-208 | the finalized job in the table stores that payload |
| Admission.PreviewGuardIff | backend/app/api/v1/generations.py:161-192 | the guard tells previews from other jobs iff the job is a ComfyUI one or the Gemini request had no is_preview of its own |
| Admission.AdmitGenerationJob | backend/app/domain/jobs/admission.py:157-338 | on the in-memory queue, whose coroutines never suspend: normalise, then the answer follows from the waiting rows counted system-wide and per conversation or user; a refusal changes nothing |
| Admission.AdmitNormalised | backend/app/domain/jobs/admission.py:244-338 | on the in-memory queue, whose coroutines never suspend: a known key is replayed or a conflict; a new one is refused iff so many rows are queued or waiting to retry, system-wide and then of its own, and else told the size of its lane |
| AdmissionRuns.AdmitOnPostgres | backend/app/domain/jobs/admission.py:244-338 | on the Postgres queue with nobody in between: the same answer, from the same counts, of five transactions |
| AdmissionRuns.AdmissionIsARun | backend/app/domain/jobs/admission.py:244-338 | undisturbed, these transactions are a run of the transition system that ends in that decision and leaves nothing behind but the job |
| Admission.ResubmissionReplays | backend/app/domain/jobs/admission.py:244-265 | the same raw request later returns the same job and changes nothing |
| Admission.EstimateCountsRounds | backend/app/domain/jobs/admission.py:64-76 | the estimate is the full rounds of the backend's own slots ahead times the job duration, and none without slots |
| Admission.PositionIsMemoryRank | backend/app/domain/jobs/admission.py:303-315 | the reported position is the new job's index in the sorted lane |
| Admission.AdmissionPositionIsRank | backend/app/domain/jobs/admission.py:303-329 | undisturbed, it is the in-memory rank, and the Postgres rank iff nobody shares its instant; when others come between, ProtocolPosition.ReportedPositionIff |
| PromptIds.LocalFailureDecodes | backend/app/adapters/comfyui/live.py:488-497 | a local failure's reason comes back whole, colons included |
| PromptIds.WorkerIdResolves | backend/app/adapters/comfyui/multi_worker.py:67-82 | any process with the same workers resolves an id to the worker that minted it |
| PromptIds.WorkerIdFewerWorkersIff | backend/app/adapters/comfyui/multi_worker.py:67-82 | a process resolves nothing iff it has too few workers |
| PromptIds.BackendIdRoutes | backend/app/adapters/routing_comfyui.py:148-174 | an id goes back to its backend wherever that backend is configured |
| PromptIds.NotConfiguredRoutes | backend/app/adapters/routing_comfyui.py:162-168 | an unconfigured provider's failure names it in any process |
| PromptIds.StrangersAreUnknown | backend/app/adapters/routing_comfyui.py:148-174 | an id with no known tag is an unknown prompt id |
| PromptIds.UnknownKindsGoToComfyUI | backend/app/adapters/routing_comfyui.py:59-76 | an unregistered or missing kind goes to ComfyUI |
| PromptIds.CompositeRoundTrip | backend/app/adapters/routing_comfyui.py:59-146 | what submit returns decodes to the lane's backend or the named failure |
| PromptIds.NestedIdRoundTrip | backend/app/adapters/routing_comfyui.py:138-174 | the nested id decodes to the same worker and inner id in another process |
| PromptIds.NestedFailureRoundTrip | backend/app/adapters/comfyui/live.py:451-462 | a nested local failure arrives in full |
| PromptIds.NestedIdsInjective | backend/app/adapters/comfyui/multi_worker.py:84-94 | no two worker and inner-id pairs share an id |
| PromptIds.MultiWorkerClient.PickMany | backend/app/adapters/comfyui/multi_worker.py:57-65 | n submits in a row take the workers round robin from where the counter stands |
| PromptIds.MultiWorkerClient.Submit | backend/app/adapters/comfyui/multi_worker.py:84-94 | the returned id resolves to the chosen worker and its id |
| PromptIds.SubmitsSpreadEvenly | backend/app/adapters/comfyui/multi_worker.py:57-65 | over any n consecutive submits two workers' shares differ by at most one |
| Conversations.Conversation.AppendMessage | backend/app/api/v1/conversations.py:181-246 | the atomic append: replay, conflict, or the next number |
| Conversations.TwoPhasesAreAtomic | backend/app/api/v1/conversations.py:190-246 | look-up outside the lock plus insertion inside it is one atomic append on the later log |
| Conversations.AppendKeepsValid | backend/app/api/v1/conversations.py:203-222 | numbers stay 1..n, client ids unique, the log grows only at its end |
| Conversations.AppendStores | backend/app/api/v1/conversations.py:203-246 | a message is stored as sent, once, under the next number, iff its client id is not taken; else it is replayed, or for the empty id a conflict |
| Conversations.RepeatIsReplayed | backend/app/api/v1/conversations.py:190-201 | repeating a client id at any later time returns the first message, or a conflict for the empty id |
| Conversations.Conversation.ListMessages | backend/app/api/v1/conversations.py:147-175 | the next `limit` messages, and a cursor iff there are more |
| Conversations.PageHasTheNext | backend/app/api/v1/conversations.py:147-175 | a page has the messages right behind the cursor, as many as asked for or as there are, and a cursor iff there are more |
| Conversations.FollowingTheCursor | backend/app/api/v1/conversations.py:156-175 | following next_cursor while the log grows returns the log as of the last read, or a prefix of it |
| PendingActions.EligibleMeansGuardHolds | backend/app/domain/chat/pending_actions.py:44-72 | the pure check and the UPDATE's guard agree |
| PendingActions.ChangedParameters | backend/app/domain/chat/pending_actions.py:44-72 | a stated fingerprint refuses exactly an otherwise eligible action with another one |
| PendingActions.AtMostOneJob | backend/app/api/v1/chat_router.py:770-864 | over any interleaving at most one job, only after winning the UPDATE while pending and unexpired |
| PendingActions.CancelledHasNoJob | backend/app/api/v1/chat_router.py:893-922 | a cancelled action has no job |
| PendingActions.OnlyTheOwnerActs | backend/app/api/v1/chat_router.py:728-922 | over any interleaving of any users' requests the action is cancelled iff a request of its owner cancelled it, confirmed only by one of its owner, and its status and job are shown to nobody else |
| PendingActions.AnswersAgree | backend/app/api/v1/chat_router.py:738-811 | every request answered with a job gets the admitted one |
| PendingActions.LoserIsReplayedIff | backend/app/api/v1/chat_router.py:786-811 | a request that lost the UPDATE is answered with the job iff its id is recorded by then, else told it is being processed |
| PendingActions.SettledForever | backend/app/api/v1/chat_router.py:770-922 | a cancelled or recorded action never changes again |
| PendingActions.RecordedIsReplayed | backend/app/api/v1/chat_router.py:735-758 | once recorded, the owner's every later confirm gets that job |
| PendingActions.StuckForever | backend/app/api/v1/chat_router.py:834-840 | confirmed with no job and no winner at work stays so for good |
| PendingActions.ReplayPossibleIff | backend/app/api/v1/chat_router.py:834-840 | a later confirm can get the job iff it is recorded or the winner is at work |
| PendingActions.CrashLeavesStuck | backend/app/api/v1/chat_router.py:770-864 | a crash or refused admission after the UPDATE leaves the action stuck |
| PendingActions.SlowConfirmBeatsExpiry | backend/app/api/v1/chat_router.py:770-784 | a slow request confirms an action that has expired meanwhile |
| PendingActions.UpdateWinsIff | backend/app/api/v1/chat_router.py:770-784 | a confirm that read the action in time wins iff nobody has settled it, whatever the time; as a guard judged at the UPDATE would have it iff settled or unexpired then |
| PendingActions.OvertakenCancelShowsConfirmed | backend/app/api/v1/chat_router.py:909-922 | a cancel overtaken by a confirm answers with the confirmed row |
| PendingActions.CancelIsOvertaken | backend/app/api/v1/chat_router.py:893-922 | and every fresh, unexpired action has such a run |
| PendingActions.PendingActionRow.ConfirmPendingAction | backend/app/api/v1/chat_router.py:728-889 | undisturbed: another user's request changes nothing, the owner's confirms a pending, unexpired action, and each other status has its own answer |
| PendingActions.PendingActionRow.CancelPendingAction | backend/app/api/v1/chat_router.py:893-922 | undisturbed: another user's request changes nothing and shows nothing, the owner's cancels a pending action, and each other status has its own answer |
| PendingActions.ConfirmIsARun | backend/app/api/v1/chat_router.py:728-889 | the undisturbed endpoint is a run of the interleaved system |

## Left out

- FastAPI routing, authentication, sessions, SQLAlchemy and asyncpg mechanics; each Postgres transaction is one atomic step; an admission is five of them, and the advisory lock makes a capped claim one.
- HTTP to ComfyUI, Gemini and storage; `submit` and `get_status` are parameters that may answer anything.
- Prompt-design rewriting in the routing client, workflow graphs, output fetching and the `_resolved` cache of the live client.
- Worker heartbeats and `select_worker`; a worker is online or not.
- The admission gate and the Redis rate limiter.
- SHA-256 and canonical JSON: two payloads have the same hash iff they are equal. Base64 cursors: a cursor is its sequence number, so a tampered cursor is not modelled.
- The database clock and the application clock are one clock.
- UUIDs are natural numbers; a fresh id is one that is not in use.
- Floats are reals; non-finite floats, and with them the uncaught OverflowError of `int(inf)`, are not modelled.
- `int()` of text with underscores or non-ASCII digits.
- `str()`, `int()` and `float()` of JSON values are parameters; only that a value of the target type converts to itself is used.
- The claim UPDATE's SKIP LOCKED and the row locks of concurrent single-row transactions, beyond their atomicity.
- Python dictionary order of users is fixed by sorting in `weighted_round_robin_order`; ties in a claim order are settled arbitrarily in the Postgres model and by dictionary order in the in-memory one.
- The in-memory backlog counters and `list_active` are set cardinalities and set comprehensions over the same rows.
- The `queue.conversation_id` column is not returned by the Postgres adapter's row mapping; no modelled operation reads it back.
- Exceptions raised by the queue itself inside `_dispatch` or a reconciliation; a raising submit is modelled.
- `PARAMS_CHANGED` is part of the pure rule only, as in the endpoint, which never passes a fingerprint.
- Message content, roles and `updated_at` of a conversation; the conversation's owner check.
- Admission.FinalizeMatchesDirectIff: for settings that are the same at preview and at finalize time, with a negative-prompt limit that is not negative; `Overrides.ValidationIdempotentIff` shows where that is needed.
- ProtocolTheorems.ActiveCapHolds: under startsInTime, which the code does not enforce; `ProtocolConditions.ActiveCapIff` is the exact condition without it.
- ProtocolTheorems.LogReplaysToRow: under startsInTime, likewise; `ProtocolConditions.LogReplaysIff` is the exact condition.
- ProtocolTheorems.LaneCapHolds: one scheduler process and starts in time; two schedulers read capacities independently in the code too, `ProtocolConditions.LaneCapIff` is the exact condition.
- ProtocolTheorems.LiveJobsConserved: admissions of a bucket one at a time; `ProtocolTheorems.LiveJobsBound` is what holds when they overlap, `ProtocolConditions.LiveJobsIff` the exact condition.
- ProtocolTheorems.RetriesAreBounded: one reconciler and submits that return; `ProtocolConditions.RetriesBoundedIff` is the exact condition.
- ProtocolTheorems.NoEarlyReclaim: one reconciler and submits that return; `ProtocolConditions.NeverEarlyIff` is the exact condition.
- Admission.AdmitGenerationJob: runs on the in-memory queue; the Postgres queue has `AdmissionRuns.AdmitOnPostgres`, from the look-up on.
