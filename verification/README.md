# Distributed cloud: orchestration, initial sync, subcloud state

This project models the parts of the distributed cloud services (dcmanager and dcorch) that several
parties run at once over one database, and proves what they keep. There are four state machines and
four smaller algorithms.

* **Software-update orchestration** (`StagePlan`, `OrchMachine`, `OrchInvariant`, `OrchTheorems`,
  `OrchStages`, `OrchProgress`, `OrchFairness`, `OrchHanging`, `OrchThread`, `OrchExamples`,
  `OrchStray`). A strategy packs subclouds into numbered stages; the orchestrator thread picks the
  current stage on every tick, starts workers, and writes the verdict. User requests, worker results, management changes, exceptions and restarts come in between
  any two of its database accesses. A run is any sequence of such actions; an action that is not
  enabled changes nothing, so every theorem over all action sequences is a theorem over all runs.
* **Initial sync** (`InitialSync`, `InitialSyncManager`). Engines share a subcloud's row and a database
  lock; dcmanager's updates, start-ups, crashes, exceptions, lock purges, deletion and retry timers
  interleave.
* **Sync status and alarms** (`SubcloudState`, `SubcloudStateManager`). Status updates hold a lock from
  reading the row to their last write; management and availability changes do not take it.
* **Availability audit** (`Availability`): hysteresis over unbounded audit sequences, and the
  service-group check.
* **Audit batches** (`AuditBatches`), **quota redistribution** (`Quota`), the **message serializers**
  (`Serializer`).

Every machine comes twice. A pure transition function states one action, and the theorems are about
all its runs. A class holds the same state in fields and has the source's methods, with their loops
and early returns; each method is proved to end in exactly the state that the machine reaches by the
method's actions woven with whatever the other parties do meanwhile. `Cloud` holds the shared types.

## Reading the results

* Only an interruption of a tick that is starting a stage leaves a stage *partly started* (`CleanKept`). From
  there an abort marks the rest of the stage, and a later tick hands those aborted steps to workers that
  have no operator for them and write "failed" (`AbortedStepFails`). Such a *left-over worker* may also
  outlive its strategy. What that means is stated exactly:
  - an aborted step can still get a worker with no further interruption if and only if some stage holds a
    step that has not begun together with one in progress, or one failed under stop-on-failure
    (`RunsReachOperatorExactly`);
  - a single aborted step can still change if and only if its stage holds such a step, or a left-over worker is
    under way for it, or, with stop-on-failure, for another aborted step of its stage
    (`AbortedStepChangesExactly`);
  - the verdict "aborted" is right about the steps it was decided from (`DecidedVerdictIsRight`), and can become
    wrong if and only if such a worker is under way when it is written (`AbortedVerdictExactly`,
    `AbortedVerdictIsWrong`);
  - one stage at a time, one worker per region, and nothing after a failure hold in every run, with all its
    interruptions and aborts, as long as no strategy is created with a step for the region of a left-over
    worker (`CleanCreates`). If one is, that step is failed before it was started
    (`UncleanCreateOverwrites`). From any state without a strategy, two stages can get in progress at
    once if and only if a left-over worker is under way (`OverlapExactly`).
* A round of a run is: every worker under way finishes, and then the thread completes a tick; requests, other
  results, management changes and exceptions may come in between. `EveryStrategyEnds` says that any
  sequence of more rounds than the measure brings the verdict, and `RoundCanFollow` that such rounds exist.
* The stop-on-failure verdict returns without clearing the worker map. `LeftoverEntryHangs` is a run
  without interruption in which such an entry keeps a later strategy from starting one of its steps;
  `HungStays` shows that only a restart frees it. Progress therefore asks that no strategy is created over
  an entry for its first state (`Healthy`), and `CreationHangsExactly` says that a new strategy can hang
  if and only if it is. No other verdict since the last restart leaves an entry
  (`EntriesComeFromFailure`), so strategies that go on after failures always meet it (`CreatesAreClean`).
* After any run, a completion that is older than the latest request is possible with no further purge of a running
  thread's lock if and only if the lock does not work (two threads, or one without its lock) or the sync under way
  or completed is outdated already (`StaleCompletionExactly`); and one action leads there from a state in
  order if and only if it purges the lock of a running thread (`PurgeBreaksExactly`). Recovery and the
  owners of what is pending do not depend on that (`SyncCanComplete`, `NothingIsForgotten`). `del_subcloud` overwrites management and
  availability but not the sync state (`DeleteKeepsTheSync`), so a subcloud can be unmanaged, offline
  and completed while it is being deleted; `SyncMeansReady` says that this is the only exception.
* The comment in subcloud_state_manager.py (lines 304-306) wants the status update before a subcloud goes
  unmanaged or offline. `update_subcloud` writes the management state first, and that order is the safe
  one (`UnmanagedStaysQuiet`). Going offline does follow the comment, and leaves a gap in which an
  in-sync update is still let through; `OfflineGapExactly` says which endpoints end in-sync, and
  `OfflineStaysSilent` when none does.
* An out-of-sync update that may not raise an alarm also silences the next one that may
  (`SilencedAlarm`). The alarms stay equal to the out-of-sync endpoints exactly as long as no such update
  reaches an endpoint without an alarm (`AlarmsStayExactly`); updates to other statuses never matter.
* A prestage strategy warns that it excludes a subcloud which fails its check, and creates its step all the
  same (`ExcludedIsPlaced`).
* A quota of zero is left out of a region's new limits (`NewLimitFormula`), so the region keeps the limit it
  had for that resource.
* The serializers change the caller's own dictionaries and lists: the result is the very same object. Parts may
  be shared; whoever holds one of them sees it translated (`SharersAgree`).

## Assumptions

Steps come back in creation order; a subcloud has one status row per endpoint type; groups partition the
subclouds; an argument that is `None` leaves its column unchanged. Creating a strategy is one step,
because it does not hold `strategy_lock`; the other requests and the thread's writes do. Each
verify-then-write of the initial sync is one step. Calls to the fault manager succeed. What the prestage
checks answer, and in which regions a project is found, are parameters. A state operator
may return any next state, skip or raise; an operator lookup for a state that has none raises.

## Model

| member | source | states |
|---|---|---|
| StagePlan.AddSubcloud | distributedcloud/dcmanager/orchestrator/sw_update_manager.py:542-586 | one turn of the allocation loop adds a step for an eligible subcloud only, in the stage given by the closed form, and moves the counters as the closed form says |
| StagePlan.AddGroup | distributedcloud/dcmanager/orchestrator/sw_update_manager.py:535-596 | the loop over a group places the j-th eligible subcloud in stage base + j / limit and leaves the counter and the "moved" flag of the closed form |
| StagePlan.CreateSteps | distributedcloud/dcmanager/orchestrator/sw_update_manager.py:525-596 | the nested loops with their running counter produce exactly the closed form over all groups |
| StagePlan.PlanShape | distributedcloud/dcmanager/orchestrator/sw_update_manager.py:525-596 | stages never decrease along the steps, two groups never share a stage, and a stage never holds more steps than its group allows |
| StagePlan.StagesOfGroup | distributedcloud/dcmanager/orchestrator/sw_update_manager.py:577-596 | n steps with limit c fill exactly ceil(n / c) consecutive stages with consecutive steps, all but the last holding exactly c |
| StagePlan.StageGaps | distributedcloud/dcmanager/orchestrator/sw_update_manager.py:543-596 | a stage number is wasted after a group exactly when its stages are all full and its last subcloud got no step |
| StagePlan.StageSizes | distributedcloud/dcmanager/orchestrator/sw_update_manager.py:265-289 | with the apply type serial, the request's or, if it gives none, the group's, every stage holds one step; with parallel a stage holds at most the request's limit, or if it gives none the group's (at least one), and every stage of a group but its last exactly that many |
| StagePlan.EmptyGroupsCount | distributedcloud/dcmanager/orchestrator/sw_update_manager.py:514-596 | stage numbers begin with one, and n groups without subclouds at the front take one number each |
| StagePlan.QuotUnique | distributedcloud/dcmanager/orchestrator/sw_update_manager.py:581-586 | the quotient used for stages is the integer quotient |
| StagePlan.ValidateSubclouds | distributedcloud/dcmanager/orchestrator/sw_update_manager.py:313-504 | the checks of the named subcloud, the prestage checks and the pass over (subcloud, status) pairs refuse exactly when the named subcloud needs no update, a prestage check fails, or a targeted, managed, online subcloud has an unknown status |
| StagePlan.ValidatedExactly | distributedcloud/dcmanager/orchestrator/sw_update_manager.py:313-504 | each refusal occurs exactly for its reason: unknown name, refused prestage, missing status row, status in-sync without force, or, when nothing else is wrong, an unknown status of a targeted, managed, online subcloud |
| StagePlan.OnlyOneRow | distributedcloud/dcmanager/orchestrator/sw_update_manager.py:107-169 | at most one status row of a subcloud calls for a step |
| StagePlan.EligibleIsWanted | distributedcloud/dcmanager/orchestrator/sw_update_manager.py:107-169 | for a subcloud that validation lets pass, the allocator selects it exactly when the request does not leave it out, it is managed, it is online or a forced upgrade, and its status for the update is not in-sync, or force or prestage does not ask |
| StagePlan.StepsAreTheWanted | distributedcloud/dcmanager/orchestrator/sw_update_manager.py:423-596 | over both passes, a strategy that is created has exactly one step for each targeted, managed, online subcloud that needs the update, and no other; force widens kubernetes and rootca to all of them |
| StagePlan.ExcludedIsPlaced | distributedcloud/dcmanager/orchestrator/sw_update_manager.py:495-573 | a subcloud that the first pass excludes from a prestage strategy still gets its step if it is managed, online and has a status row |
| StagePlan.PlanIsEligibleRoster | distributedcloud/dcmanager/orchestrator/sw_update_manager.py:535-573 | the steps in creation order are the eligible subclouds of the groups in turn |
| OrchTheorems.OneStageInProgress | distributedcloud/dcmanager/orchestrator/orch_thread.py:261-407 | in every run that creates no strategy over a left-over worker, the steps in progress lie in one stage of one group and are at most as many as the limit used for that group |
| OrchTheorems.OneWorkerPerRegion | distributedcloud/dcmanager/orchestrator/orch_thread.py:542-607 | in every such run a region has at most one worker; a worker of an operator is alone and its step is in the state it was started for, any other can only fail a step that is aborted or failed already |
| OrchTheorems.UncleanCreateOverwrites | distributedcloud/dcmanager/orchestrator/orch_thread.py:570-607 | if a strategy is created with a step for the region of a left-over worker, that worker's result fails the step before it was started |
| OrchTheorems.VerdictsAreRight | distributedcloud/dcmanager/orchestrator/orch_thread.py:256-354 | in every such run, under a verdict nothing is in progress; complete means all complete, failed means one failed, aborted means all finished |
| OrchTheorems.DecidedVerdictIsRight | distributedcloud/dcmanager/orchestrator/orch_thread.py:256-342 | of the steps as they are when the verdict is decided: complete means all complete, aborted means all complete or aborted with one aborted, failed means one failed, and nothing is in progress |
| OrchTheorems.DecidedExactly | distributedcloud/dcmanager/orchestrator/orch_thread.py:256-357 | a verdict is decided exactly when all steps are finished and none stops the strategy, or, with stop-on-failure, a failed step has only complete and failed steps in its stage; it is failed, aborted or complete by what the steps are; otherwise the thread works on the first stage that is not finished or holds a failure to stop at |
| OrchTheorems.AbortedVerdictExactly | distributedcloud/dcmanager/orchestrator/orch_thread.py:309-316 | a right verdict "aborted" that is about to be written can become wrong while its strategy exists if and only if a worker without an operator is under way for one of the aborted steps |
| OrchStray.AbortedVerdictIsWrong | distributedcloud/dcmanager/orchestrator/orch_thread.py:309-316 | a concrete run in which a step fails between the reading of the steps and the verdict "aborted" |
| OrchTheorems.NothingStartsAfterFailure | distributedcloud/dcmanager/orchestrator/orch_thread.py:271-354 | with stop-on-failure, in every run that creates no strategy over a left-over worker, every step of a stage after a failed one is initial or aborted |
| OrchTheorems.StepsOnlyAdvance | distributedcloud/dcmanager/orchestrator/orch_thread.py:358-432 | an action keeps the list of steps, never changes a complete or failed step, changes an aborted one only by the result of a worker without an operator, and starts nothing once the strategy is aborting |
| OrchTheorems.StrategyLife | distributedcloud/dcmanager/orchestrator/orch_thread.py:213-354 | with reads and writes apart, the strategy state only moves along initial, applying, abort requested, aborting, verdict, deleting and their shortcuts; no write of the thread hits a deleting strategy, which only destruction ends |
| OrchTheorems.AbortedComesFromAborting | distributedcloud/dcmanager/orchestrator/orch_thread.py:309-316 | in every run, the verdict "aborted" is written only to an aborting strategy |
| OrchStages.CleanKept | distributedcloud/dcmanager/orchestrator/orch_thread.py:356-432 | a stage becomes partly started only by an action that interrupts the tick while it is starting that stage |
| OrchStages.RunsReachOperatorExactly | distributedcloud/dcmanager/orchestrator/orch_thread.py:404-407 | after any run that created no strategy over a left-over worker, between ticks of an active strategy, with workers and entries of operators only: an aborted step can still get a worker with no further interruption if and only if some stage is partly started |
| OrchStages.AbortedReachesOperatorExactly | distributedcloud/dcmanager/orchestrator/orch_thread.py:404-407 | the same equivalence for every state of the invariant whose workers and entries all belong to operators |
| OrchStages.AbortedStepChangesExactly | distributedcloud/dcmanager/orchestrator/orch_thread.py:404-407 | between ticks, for an aborted step whose entry as aborted, if any, has its worker under way: it can still change while its strategy exists, with no further interruption, if and only if its stage holds a step in progress or one failed under stop-on-failure, or a left-over worker is under way for it, or under stop-on-failure for another aborted step of the stage; otherwise interruptions do not change it either |
| OrchStages.StagesStartWhole | distributedcloud/dcmanager/orchestrator/orch_thread.py:358-432 | from any state without partly started stages and with no tick cut short since, an aborted step never shares a stage with one that keeps the stage current, and between ticks neither does a step that has not begun |
| OrchStages.UncutIsNotStray | distributedcloud/dcmanager/orchestrator/orch_thread.py:177-182 | if no tick is cut short, no aborted step ever gets a worker, and no stage is partly started |
| OrchStages.UninterruptedIsUncut | distributedcloud/dcmanager/orchestrator/orch_thread.py:236-243 | a run without exceptions and restarts of the thread has no cut tick |
| OrchStages.FinishedForever | distributedcloud/dcmanager/orchestrator/orch_thread.py:184-203 | a complete or failed step stays as it is while its strategy exists, and so does an aborted one whose stage is not partly started and is not cut short later |
| OrchInvariant.RunsAreSafe | distributedcloud/dcmanager/orchestrator/orch_thread.py:213-432 | the inductive invariant over allocator, thread, workers and requests holds in every state of every run that creates no strategy over a left-over worker, with all interruptions and aborts |
| OrchProgress.FinishLowers | distributedcloud/dcmanager/orchestrator/orch_thread.py:570-607 | a worker's result for the step it was started for lowers the measure if the operator's next state has lower rank |
| OrchProgress.NoActionRaises | distributedcloud/dcmanager/orchestrator/orch_thread.py:213-432 | no action but a restart raises the measure of a running strategy |
| OrchProgress.HealthyRunsAreLively | distributedcloud/dcmanager/orchestrator/orch_thread.py:542-568 | in every run whose strategies start over no left-over worker or entry, interrupted or not, every entry that blocks a step has a live worker |
| OrchProgress.EntriesComeFromFailure | distributedcloud/dcmanager/orchestrator/orch_thread.py:331-354 | outside the active states the worker map is empty unless a stop-on-failure verdict was written since the last restart |
| OrchProgress.CreatesAreClean | distributedcloud/dcmanager/orchestrator/orch_thread.py:331-354 | if no request asks for stop-on-failure, every strategy is created over an empty worker map |
| OrchFairness.RoundLowers | distributedcloud/dcmanager/orchestrator/orch_thread.py:250-432 | in every round, whatever else happens, the strategy gets its verdict or the measure falls |
| OrchFairness.VerdictIsReached | distributedcloud/dcmanager/orchestrator/orch_thread.py:250-407 | any sequence of more rounds than the measure says contains a verdict |
| OrchFairness.EveryStrategyEnds | distributedcloud/dcmanager/orchestrator/orch_thread.py:213-432 | from every state a healthy run reaches with a strategy applying, abort requested or aborting, every continuation in enough rounds without a restart of the thread brings the verdict |
| OrchFairness.RoundCanFollow | distributedcloud/dcmanager/orchestrator/orch_thread.py:213-432 | from every such state a round can follow, or a verdict comes first |
| OrchProgress.StaleStartHangs | distributedcloud/dcmanager/orchestrator/orch_thread.py:395-403 | starting a step over a left-over entry for the first state gives it no worker |
| OrchProgress.HungStays | distributedcloud/dcmanager/orchestrator/orch_thread.py:542-552 | nothing but a restart of the thread frees such a step, so its strategy never gets a verdict |
| OrchHanging.CreationHangsExactly | distributedcloud/dcmanager/orchestrator/orch_thread.py:358-403 | a strategy that is created with workers and entries of operators only can hang before its verdict, without a restart, if and only if one of its regions has an entry for the first state |
| OrchExamples.AbortedStepFails | distributedcloud/dcmanager/orchestrator/orch_thread.py:404-407 | a concrete cut tick and abort after which an aborted step becomes failed |
| OrchExamples.LeftoverEntryHangs | distributedcloud/dcmanager/orchestrator/orch_thread.py:343-354 | a concrete uninterrupted run in which the stop-on-failure verdict leaves an entry that hangs the next strategy |
| OrchStray.StrayWorkerOverlapsStages | distributedcloud/dcmanager/orchestrator/orch_thread.py:570-607 | a run from the start in which the worker of an aborted step makes two stages of a later strategy of serial steps be in progress at once |
| OrchStray.OverlapExactly | distributedcloud/dcmanager/orchestrator/orch_thread.py:570-607 | from any state of the invariant without a strategy, two stages can be in progress at once with no further interruption if and only if a worker without an operator is under way |
| OrchThread.OrchThread.CreateSwUpdateStrategy | distributedcloud/dcmanager/orchestrator/sw_update_manager.py:238-613 | refuses and changes nothing, creates an empty strategy in state deleting, or creates an initial strategy with one initial step for each place of the plan |
| OrchThread.OrchThread.ApplySwUpdateStrategy | distributedcloud/dcmanager/orchestrator/sw_update_manager.py:654-683 | accepts exactly an initial strategy, makes it applying and changes nothing else |
| OrchThread.OrchThread.AbortSwUpdateStrategy | distributedcloud/dcmanager/orchestrator/sw_update_manager.py:685-712 | accepts exactly an applying strategy, makes it abort requested and changes nothing else |
| OrchThread.OrchThread.DeleteSwUpdateStrategy | distributedcloud/dcmanager/orchestrator/sw_update_manager.py:615-652 | accepts exactly an initial, complete, failed or aborted strategy, makes it deleting and changes nothing else |
| OrchThread.DeleteRemoves | distributedcloud/dcmanager/orchestrator/orch_thread.py:213-234 | from every reachable state with an initial strategy or a verdict, a delete request and the next two accesses of the thread leave no strategy and no steps, whatever the others do in between |
| OrchHanging.StrategyComesAndGoes | distributedcloud/dcmanager/orchestrator/sw_update_manager.py:615-683 | a strategy that is created and applied in a healthy run gets its verdict in every fair continuation, and a delete request then removes it |
| OrchThread.OrchThread.StrategyStepUpdate | distributedcloud/dcmanager/orchestrator/orch_thread.py:184-203 | sets the state of the step of one region and of no other |
| OrchThread.OrchThread.PerformStateAction | distributedcloud/dcmanager/orchestrator/orch_thread.py:570-607 | writes exactly one result: the next state, complete for a skip, failed for any exception |
| OrchThread.OrchThread.ProcessUpdateStep | distributedcloud/dcmanager/orchestrator/orch_thread.py:542-568 | starts a worker and writes its entry unless the entry of the region already stands for this state |
| OrchThread.OrchThread.FindStage | distributedcloud/dcmanager/orchestrator/orch_thread.py:256-298 | finds the first step that is not finished, or failed under stop-on-failure, and drops the entries of the finished steps before it |
| OrchThread.OrchThread.WorkRemaining | distributedcloud/dcmanager/orchestrator/orch_thread.py:331-341 | some step of the stage is neither complete nor failed |
| OrchThread.OrchThread.Apply | distributedcloud/dcmanager/orchestrator/orch_thread.py:250-407 | a whole apply, with any actions of the others between its accesses, is that many thread steps of the machine woven with them |
| OrchThread.OrchThread.Abort | distributedcloud/dcmanager/orchestrator/orch_thread.py:409-432 | a whole abort is that many thread steps of the machine, woven with the others' actions |
| OrchThread.OrchThread.WakeUp | distributedcloud/dcmanager/orchestrator/orch_thread.py:214-234 | one wake-up applies, aborts or removes the strategy by its state, as the machine does |
| InitialSync.CompletedIsFresh | distributedcloud/dcorch/engine/initial_sync_manager.py:116-197 | from any state in which the lock works and nothing is outdated, over all interleavings without a purge of a running thread's lock, a completed sync was begun after the latest request, and at most one thread is inside the lock |
| InitialSync.StaleCompletionExactly | distributedcloud/dcorch/engine/initial_sync_manager.py:116-197 | after any run, purges included, a completion for an older request is possible with no further purge of a running thread's lock if and only if the lock does not work or something is outdated |
| InitialSync.PurgeBreaksExactly | distributedcloud/dcorch/engine/service.py:172-182 | from a reachable state in order, an action makes that possible if and only if it purges the lock of a running thread |
| InitialSync.SyncMeansReady | distributedcloud/dcorch/engine/service.py:229-264 | the sync state is not none exactly when the subcloud is managed and online, except after del_subcloud overwrote those two |
| InitialSync.ReportsExactly | distributedcloud/dcorch/engine/service.py:229-264 | a report that differs from the stored row is stored and requests the sync exactly if managed and online, otherwise calls it off; any other report changes nothing |
| InitialSync.RepeatedReport | distributedcloud/dcorch/engine/service.py:241-247 | repeating a report anywhere in a run makes no difference to the rest of the run |
| InitialSync.NothingIsForgotten | distributedcloud/dcorch/engine/initial_sync_manager.py:135-177 | while no thread dies, whatever locks are purged, a sync in progress has a live thread, a failed one a pending timer, and while a lock is held some thread is inside that will release it |
| InitialSync.SyncCanComplete | distributedcloud/dcorch/engine/initial_sync_manager.py:49-73 | after any run, even with several threads inside the lock, engines that go on, start up, purge dead engines' locks and sync can complete the sync of a managed, online subcloud |
| InitialSync.PurgeAllowsStaleCompletion | distributedcloud/dcorch/engine/service.py:172-182 | a run in which the purge of a live lock lets an older sync complete a newer request |
| InitialSync.DeleteKeepsTheSync | distributedcloud/dcorch/engine/generic_sync_manager.py:234-249 | a concrete run in which a subcloud being deleted is unmanaged, offline and completed |
| InitialSyncManager.InitialSyncManager.SubcloudStateMatches | distributedcloud/dcorch/engine/generic_sync_manager.py:266-282 | compares exactly the arguments that are given |
| InitialSyncManager.InitialSyncManager.UpdateSubcloudState | distributedcloud/dcorch/engine/generic_sync_manager.py:284-301 | writes exactly the arguments that are given, of one subcloud |
| InitialSyncManager.InitialSyncManager.UpdateSubcloudStates | distributedcloud/dcorch/engine/service.py:229-264 | leaves all rows as they are for an unchanged report or an unknown subcloud, and otherwise writes the two values with requested or none and counts one request exactly in the first case |
| InitialSyncManager.InitialSyncManager.InitActionsAll | distributedcloud/dcorch/engine/initial_sync_manager.py:49-73 | every subcloud in progress or failed is requested again, and no other changes |
| InitialSyncManager.InitialSyncManager.SyncLockAcquire | distributedcloud/dcorch/engine/subcloud_lock.py:52-80 | succeeds exactly when the subcloud has no lock row |
| InitialSyncManager.InitialSyncManager.SyncLockRelease | distributedcloud/dcorch/db/sqlalchemy/api.py:1001-1007 | deletes the subcloud's lock row, whoever made it |
| InitialSyncManager.InitialSyncManager.InitialSyncSubcloud | distributedcloud/dcorch/engine/initial_sync_manager.py:116-183 | the decorated thread, with any actions of the others between its accesses, takes the machine's steps, or none if the lock is held; undisturbed it completes or fails a requested sync, leaves any other row, and frees the lock |
| InitialSyncManager.UndisturbedSync | distributedcloud/dcorch/engine/initial_sync_manager.py:116-183 | a thread that gets the lock and is not disturbed completes a requested sync, or fails it and starts one retry timer, and leaves lock and threads as they were |
| InitialSyncManager.InitialSyncManager.ReattemptSync | distributedcloud/dcorch/engine/initial_sync_manager.py:185-197 | requests the sync again only if it is still failed |
| SubcloudState.AlarmsAreOutOfSync | distributedcloud/dcmanager/state/subcloud_state_manager.py:107-255 | under any interleaving, an endpoint with an out-of-sync alarm is out-of-sync |
| SubcloudState.UpdateTakesEffect | distributedcloud/dcmanager/state/subcloud_state_manager.py:107-320 | an update sets exactly the endpoints it covers, to in-sync only for a managed, online subcloud or for dc-cert of an online one, and raises, keeps or clears each alarm by status and alarmable flag |
| SubcloudState.AlarmStepExactly | distributedcloud/dcmanager/state/subcloud_state_manager.py:107-255 | from a state in which the alarms are the out-of-sync endpoints, an action breaks this if and only if it commits an allowed, out-of-sync, silent update that reaches an endpoint without an alarm |
| SubcloudState.AlarmsStayExactly | distributedcloud/dcmanager/state/subcloud_state_manager.py:107-255 | over any interleaving, the alarms are the out-of-sync endpoints all along if and only if no such commit occurs |
| SubcloudState.AlarmedExactly | distributedcloud/dcmanager/state/subcloud_state_manager.py:107-255 | over any interleaving, an endpoint has its alarm if and only if an alarmable update has reached it and it has been out-of-sync ever since |
| SubcloudState.SilencedAlarm | distributedcloud/dcmanager/state/subcloud_state_manager.py:110-117 | a silent out-of-sync update keeps the next alarmable one from raising the alarm |
| SubcloudState.UnmanagedStaysQuiet | distributedcloud/dcmanager/manager/subcloud_manager.py:1666-1712 | under any interleaving, once the second half of unmanaging is written, no endpoint but dc-cert is in-sync until the subcloud is managed again |
| SubcloudState.OfflineStaysSilent | distributedcloud/dcmanager/state/subcloud_state_manager.py:447-459 | if no in-sync update is let through between the two halves of going offline, nothing is in-sync until the subcloud is online again |
| SubcloudState.StatusIsLastWritten | distributedcloud/dcmanager/state/subcloud_state_manager.py:307-320 | in any interleaving an endpoint has the status of the last allowed update that covers it |
| SubcloudState.InSyncExactly | distributedcloud/dcmanager/state/subcloud_state_manager.py:307-320 | an endpoint that was not in-sync ends in-sync if and only if an in-sync update covering it was let through and nothing wrote the endpoint after its commit |
| SubcloudState.OfflineGapExactly | distributedcloud/dcmanager/state/subcloud_state_manager.py:447-459 | with anything in the gap and anything after it, an endpoint ends in-sync if and only if an in-sync update covering it was let through since the first half of going offline, and nothing wrote the endpoint after its commit |
| SubcloudState.HandlersKeepStatuses | distributedcloud/dcmanager/state/subcloud_state_manager.py:293-326 | with every handler as one step, an offline subcloud has no endpoint in-sync and an unmanaged one at most dc-cert |
| SubcloudState.UpdateOrRollBack | distributedcloud/dcmanager/manager/subcloud_manager.py:1631-1712 | an update is accepted exactly if it changes the management state and, to manage, is forced or finds the subcloud deployed and online; refused or rolled back it leaves the management state, and exactly if it was accepted and the subcloud ends unmanaged, all but dc-cert go to unknown without alarms |
| SubcloudStateManager.SubcloudStateManager.UpdateOne | distributedcloud/dcmanager/state/subcloud_state_manager.py:108-182 | sets one endpoint and its alarm, ignores an unchanged status, and reports an endpoint that is not there |
| SubcloudStateManager.SubcloudStateManager.UpdateMany | distributedcloud/dcmanager/state/subcloud_state_manager.py:184-255 | sets all endpoints but the ignored ones, and their alarms |
| SubcloudStateManager.SubcloudStateManager.UpdateSubcloudEndpointStatus | distributedcloud/dcmanager/state/subcloud_state_manager.py:260-326 | with management and availability changes inside it, the decorated update sets exactly the covered endpoints by the row as it was read, and their alarms; it is the machine's begin and commit around the changes |
| SubcloudStateManager.SubcloudStateManager.UpdateSubcloudAvailability | distributedcloud/dcmanager/state/subcloud_state_manager.py:443-459 | stores the availability, and going offline sets every status to unknown and clears the alarms first; it is the machine's two halves with anything in the gap |
| SubcloudStateManager.SubcloudStateManager.UpdateSubcloud | distributedcloud/dcmanager/manager/subcloud_manager.py:1631-1712 | gives each refusal exactly for its reason, and otherwise writes, rolls back if dcorch cannot be informed, and mutes the statuses if the subcloud ends unmanaged, with anything in the gaps |
| SubcloudStateManager.NoGaps | distributedcloud/dcmanager/manager/subcloud_manager.py:1666-1712 | with nothing in the gaps, the handlers are the atomic ones |
| Availability.Hysteresis | distributedcloud/dcmanager/audit/subcloud_audit_worker_manager.py:374-446 | from online and zero, after any audits, the stored availability is offline exactly when the trailing run of failures has length two or more; the count has a closed form and stays within 0..9999 |
| Availability.OfflineExactly | distributedcloud/dcmanager/audit/subcloud_audit_worker_manager.py:374-446 | from online, after audits of which exactly the last n failed, a prestaging subcloud and services that are all active somewhere being successes: offline exactly if n is two or more, with the fail count given |
| Availability.SuccessForgets | distributedcloud/dcmanager/audit/subcloud_audit_worker_manager.py:422-438 | one success makes all earlier audits, and whatever was stored, irrelevant |
| Availability.SubcloudAuditWorker.AuditSubcloud | distributedcloud/dcmanager/audit/subcloud_audit_worker_manager.py:355-446 | a success stores online and no failures; a failure counts up to 9999 and stores offline from the second on; an offline subcloud that is not found is left as it is |
| Availability.SubcloudAuditWorker.GetSubcloudAvailabilityStatus | distributedcloud/dcmanager/audit/subcloud_audit_worker_manager.py:217-258 | online exactly when there is a service group and every listed one is listed as active at least once |
| AuditBatches.SendBatches | distributedcloud/dcmanager/audit/subcloud_audit_manager.py:439-465 | the batches concatenate to the input in order, none is empty, all but the last have n / w + 1 subclouds, and there are at most w |
| Quota.SummationIgnoresOrder | distributedcloud/dcorch/engine/quota_manager.py:220-228 | the total usage does not depend on the order in which regions answer |
| Quota.NewLimitFormula | distributedcloud/dcorch/engine/quota_manager.py:356-375 | a new limit is max(0, limit - total) + own usage, and a resource is left out exactly when that is zero |
| Quota.TotalsExactly | distributedcloud/dcorch/engine/quota_manager.py:290-326 | the total of key_pairs, security_group and security_group_rule is the usage of SystemController alone, that of any other resource the sum over all regions |
| Quota.RegionLimits | distributedcloud/dcorch/engine/quota_manager.py:303-375 | a region's limit is never below its usage, exceeds the global limit exactly if the usage exceeds the smaller of limit and total, and using it up brings the total to the larger of limit and total |
| Quota.LimitsIgnoreOrder | distributedcloud/dcorch/engine/quota_manager.py:371-375 | the new limits do not depend on the order of the regions |
| Quota.CachedAgrees | distributedcloud/dcorch/engine/quota_manager.py:82-114 | the cached calculation succeeds exactly if the region's cached usage holds all limited resources, and then agrees with the full synchronization; without cached usage it agrees exactly on unused resources |
| Quota.QuotaManager.GetSummation | distributedcloud/dcorch/engine/quota_manager.py:220-228 | the loop adds up the regions' counters |
| Quota.QuotaManager.QuotaUsageUpdate | distributedcloud/dcorch/engine/quota_manager.py:291-330 | caches and returns totals that count managed resources in the master region only and all others everywhere, caches the usage as read, or does nothing when no usage could be read |
| Quota.QuotaManager.QuotaSyncForProject | distributedcloud/dcorch/engine/quota_manager.py:333-395 | gives exactly the regions of the list other than the master one in which the project is found max(0, limit - total) + own usage of every resource; raises without a master region |
| Quota.QuotaManager.CalculateSubcloudProjectQuotas | distributedcloud/dcorch/engine/quota_manager.py:82-114 | raises exactly if a cached usage misses a limited resource, and otherwise gives max(0, limit - cached total) + cached usage of every limited resource |
| Quota.QuotaManager.SyncThenCalculate | distributedcloud/dcorch/engine/quota_manager.py:82-114 | after a synchronization the cached calculation succeeds if and only if the region reports all limited resources, and then agrees with it on them |
| Serializer.Mapping | distributedcloud/dcorch/common/serializer.py:21-26 | builds the reverse mapping of the items, whatever their values |
| Serializer.ReversedAt | distributedcloud/dcorch/common/serializer.py:21-26 | of several keys with the same value, the last one is the reverse of the value |
| Serializer.MappingInverts | distributedcloud/dcorch/common/serializer.py:21-26 | the reverse mapping is the inverse of the direct one if and only if no value is repeated |
| Serializer.RoundTrip | distributedcloud/dcorch/common/serializer.py:38-70 | deserializing a serialized entity gives it back exactly if it does not contain the reserved string |
| Serializer.RoundTripBack | distributedcloud/dcmanager/common/serializer.py:40-72 | serializing a deserialized entity gives it back exactly if it does not contain the singleton |
| Serializer.TranslatedOnce | distributedcloud/dcorch/common/serializer.py:38-70 | each direction leaves nothing to translate, and applied twice equals applied once |
| Serializer.SerializeEntity | distributedcloud/dcorch/common/serializer.py:38-53 | rewrites a dictionary or list with all its parts in place, shared parts included, returns the same object, and its new contents are the translation of the old |
| Serializer.DeserializeEntity | distributedcloud/dcorch/common/serializer.py:55-70 | likewise for the other direction |
| Serializer.DoneIsTranslated | distributedcloud/dcorch/common/serializer.py:38-70 | memory in which slots were kept or translated and nothing is left to translate holds the translation of what it held |
| Serializer.SharersAgree | distributedcloud/dcmanager/common/serializer.py:40-72 | another holder of shared parts who translates his own value gets what he would have got before |

## Left out

- OrchTheorems.OneStageInProgress: assumes that no strategy is created with a step for the region of a left-over worker; without that it is false, see OrchStray.OverlapExactly.
- OrchTheorems.VerdictsAreRight: of the verdict "aborted" it promises that every step is finished, because a left-over worker can fail an aborted step before the verdict is written or afterwards, see OrchTheorems.AbortedVerdictExactly.
- OrchStages.AbortedStepChangesExactly: an entry of the worker map for the aborted step has its worker under way, as in every run of OrchProgress.HealthyRunsAreLively; the fate of a step behind an entry left from an earlier strategy is not stated.
- OrchFairness.EveryStrategyEnds: leaves out restarts of the thread during the rounds, since each throws away the work under way; restarts before them are included.
- OrchThread.OrchThread.WakeUp: the delete tick is reduced to "deleting, then removed"; its delete workers, which share the worker map, and its timed wait for them are not modelled.
- OrchThread.OrchThread.Apply: writing a step's first state and starting its worker is one turn; an exception strikes before or after it, and a restart in between has the effect of one after it.
- SubcloudState.OfflineStaysSilent: is about the two halves of the handler; the early returns of update_subcloud_availability that only report state or store the fail count change no status.
- Quota.RegionLimits: is about non-negative limits and usages; Counter arithmetic drops an unlimited (negative) quota.
- Serializer.SerializeEntity: parts may be shared, but nothing contains itself (the source recurses without end there); a wrapped base serializer is not part of this model.
- InitialSyncManager.InitialSyncManager.InitialSyncSubcloud: one thread at a time; the loop that starts a thread per requested subcloud and waits for all is left to the machine, where threads start at any time.
- Steps of the system controller (no subcloud): the allocator never creates them.
- What the prestage checks look at, vault copies and extra arguments of a new strategy: calls into other services.
- State operators, VIM, sysinv, patching, keystone and the fault manager: arbitrary results, or successful calls.
- The offline alarm, the notifications and the audits that the state handlers trigger.
- Adding and removing openstack endpoints of a subcloud; updating the status of all subclouds in a loop.
- Arranging the new quotas by service and writing them to the regions by threads.
- The sync and audit loops of the generic sync manager: their work runs outside the lock.
- REST API, policies, configuration, messaging and service start-up.
