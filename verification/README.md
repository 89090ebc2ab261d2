# AtlasQueue: the two-store task protocol, in Dafny

AtlasQueue keeps every task as a row with an append-only audit log in Postgres, and delivers it through Redis: one
ready list per priority level, a ZSET of due times, an inflight key per running task, a set of cancel marks and a
dead-letter list. Submission, cancellation, manual replay, the release loop, the two reconcilers and the workers all
write to both stores, and nothing ties the stores together but the order of those writes. This project models that
protocol and proves what holds of the two stores over whole runs, together with three smaller cores: the priority
queue, the scheduler's leader lease, and backoff arithmetic. `dafny verify dfyconfig.toml` checks all of it.

## How the model is built

- `Services`, `Stores`, `LeaderLock` and `WorkerPool` are the program in its own form: classes whose methods assign
  task fields, push, save and append in the source's order. Every service method ensures that the joint value of the
  stores afterwards is what a specification function says.
- `Protocol` holds those functions, one per service and task, and the loops over tasks. A flag named `...Up` says
  whether a Redis call is accepted.
- `Results` states what each of these does to the stores and what it answers, column by column and list by list, from
  the request, the stored row and the clock alone.
- `Machine` is the system as a state machine: the stores, the clock, ids in workers' hands, ids claimed from the ZSET
  and not yet released, and `adrift`, a record of tasks whose last delivery pointer was given up while they waited. A
  worker's run is split into start, finish and crash. `Calls` proves that the looping services are runs of these
  per-task steps, with time passing between them.
- `Views` and `Local` project the machine onto one task; `StepEffect` proves that a step moves the view of its task
  by a one-task automaton and leaves every other view alone. `Invariants`, `Delivery` and `Audit` are about the
  automaton; `Reachability`, `Outcomes`, `Marks`, `Escapes`, `Shipped`, `Chains`, `Keys`, `Conservation`, `Repair` and
  `Orphans` are about all runs of the machine, and `Scenarios` holds runs from empty stores that show where a promise
  fails.

Runs come under disciplines, task by task. `ANY` asks nothing. `SparesLive(id)` asks that the inflight reconciler never
times out a run of this one task while its worker is alive. `RowExclusive(id)` asks also that nobody cancels the task
while a live worker runs it: then no service writes its row between a worker's start and its finish unless that worker
has died. What happens to other tasks is free. No version column or lock in the repository enforces either;
`PromptWorkersAreSpared` gives a timing condition that implies the first.

As shipped, much holds with no discipline at all for a task with at least two attempts in its budget (`Shipped`): one
delivery pointer, final cancel marks, no dead letter, no start after a retry. For a budget of one execution the
disciplines are needed: `SecondPointerIff` decides when a second pointer can come about, and
`LiveTimeoutDoublesPointers` and `MarkLostToStaleWorker` show what is lost. The audit log needs them for any budget:
`LogReplaysIff` says exactly which runs of the shipped code it can be replayed from, and `LiveCancelBreaksLog` how one
is spoilt.

Assumptions: `save` and `append` are visible at once; a service's work on one task is atomic, and a loop over tasks
may be interleaved between tasks; a Redis call that raises has no effect; the clock is common and never runs back;
rows are created in the order of their `created_at`; a task id is its UUID's numeric value, whose order is that of
its canonical text; there is at least one priority level; no two calls of the enqueue reconciler overlap, as the
lease ensures while it is kept in time. A call enqueues copies it listed at its start: `FailedRowIsStable` shows that
they stay current, `OverlappingRepairsPushTwice` what two overlapping calls would do. In the machine a sweep of a task
may come at any time, with or without an inflight key, so what holds of every run holds of the code's sweeps.

## What the code does against what its documentation says

- Retries. `README.md:34` promises retry with backoff. A retry is stored as QUEUED with a ZSET entry, and the release
  loop drops every claimed id whose status is not SCHEDULED, so a retried task loses its only pointer.
  `RetriedNeverStartsAgain`: in no run whatever does a start follow a retry. `StrandedUntilCancelled` and the concrete
  run of `DefaultRetryIsLost` say what becomes of the task. In the repaired variant (`redelivers`) the release step also
  delivers QUEUED rows that have failed before; `RetryIsDeliveredIff` and `QueuedIsCovered` state what that buys.
- Dead letters. As shipped a failed run is dead-lettered if and only if `max_retries` is at most 1
  (`FailureIsDeadLetteredIff`); with the default of 3 no task reaches the dead-letter queue.
- Scheduled submissions. `docs/architecture.md:15-18` has a future task end in `scheduled`. The row is created
  SCHEDULED and the table has no edge from SCHEDULED to itself, so the submission fails after its ZSET push and the
  row lands in ENQUEUE_FAILED (`SubmissionAcceptedIff`). The enqueue reconciler then repairs it
  (`RepairedIsDeliverable`).
- Recovery. `docs/architecture.md:23` says the reconciler requeues stuck tasks. `OrphanIsResolvedIff`: a dead run is
  recovered if and only if some reconcile call begins before its inflight key expires and reads the clock for it after
  timeout + 30 (or somebody cancels or sweeps it by itself). Calls less than 30 seconds apart always meet that window
  (`OrphanIsResolvedInWindow`); after it, or without a key, as a refused push or key write leaves it
  (`DroppedRunIsOrphan`, `UnmarkedStartIsOrphan`), the task stays RUNNING (`ExpiredOrphanIsStuck`, and from empty stores
  `LostWorkerIsNeverNoticed`). A worker that loses an id between BRPOP and start sets the task adrift: nothing
  redelivers it (`StrandedUntilCancelled`).
- Cancel marks. As shipped a mark is final for every task with at least two attempts in its budget
  (`MarkIsFinalIfRetriable`). For any budget it is final when no live run of the task has been timed out before it
  (`CancelMarkIsFinal`), and when no live run is left (`MarkWithoutLiveRunIsFinal`). In general it is not:
  `MarkIsEscapedIff` gives the exact condition, and `MarkLostToStaleWorker` a run from empty stores.
- Leader lease. A renewal can report success and have renewed nothing (`RenewalCanBeVoid`), and a release can delete
  the successor's key (`StalledDeleteHitsSuccessor`), both only when a whole TTL has passed.

## Model

| member | source | states |
|---|---|---|
| Reachability.RowsAreSound | src/atlasqueue/worker/executor/python_executor.py:90-134 | In every run: FAILED and PENDING are never at rest; QUEUED and RUNNING have attempts below max(1, max_retries), DEAD_LETTER has exactly that many; finish time, result, worker and start time are set exactly where due |
| Reachability.DeliveryCoverage | src/atlasqueue/application/services/queue_manager.py:103-118 | In every run: a SCHEDULED task is in the ZSET or claimed, and a QUEUED one in a ready list, a hand, the ZSET or claimed, unless and only unless it is on record as adrift; a task not yet enqueued is in no list and no hand |
| Reachability.LastPointerIsLostOnlyBy | src/atlasqueue/application/services/queue_manager.py:244-257 | A waiting task loses its last pointer only when the release loop skips it or raises on it, when the check for a cancel mark raises on the worker that popped it, or when that worker dies |
| Reachability.AtMostOnePointer | src/atlasqueue/worker/pool.py:66-82 | If the task's live runs are spared, it occurs at most once over all ready lists and workers, waits there only when QUEUED or CANCELLED, and never runs on two live workers |
| Reachability.CopyIsRow | src/atlasqueue/worker/executor/python_executor.py:100-126 | If the task's live runs are spared, the copy its live worker will save from is the stored row, unless the task was cancelled under it |
| Shipped.RetriedNeverStartsAgain | src/atlasqueue/application/services/queue_manager.py:247-250 | As shipped, in any run, no start is ever logged for a task after a retry or a timeout requeue |
| Reachability.RetryEndsTrail | src/atlasqueue/application/services/queue_manager.py:247-250 | As shipped, if the task's live runs are spared, nothing at all follows a retry event in its trail but one cancellation |
| Shipped.DeadLetterNeedsUnitBudget | src/atlasqueue/application/services/task_failure_handler.py:27-37 | As shipped, in any run, a dead-lettered task has max_retries of at most 1 |
| Shipped.OnePointerIfRetriable | src/atlasqueue/application/services/queue_manager.py:170-187 | As shipped, in any run, a task with max_retries of at least 2 occurs at most once over all ready lists and workers |
| Shipped.SecondPointerIff | src/atlasqueue/application/services/queue_manager.py:170-187 | As shipped, from any state in which a live worker runs the task, some run gives it a second pointer if and only if max_retries is at most 1 |
| Shipped.MarkIsFinalIfRetriable | src/atlasqueue/application/services/queue_manager.py:212-228 | As shipped, in any run, no start of a task with max_retries of at least 2 is logged once its id is in the cancel set |
| Reachability.LogReplaysToRow | src/atlasqueue/domain/entities/task.py:126-152 | In every run that is row-exclusive for the task, folding its events through the transition table rebuilds its present status and attempts, failures being counted since the last replay |
| Chains.LogReplaysIff | src/atlasqueue/worker/executor/python_executor.py:120-130 | As shipped, in any run, a task's trail rebuilds its status and attempts if and only if no worker reported over a row that was not RUNNING any more; otherwise the chain is broken for good |
| Audit.ReplayedTrailIsChain | src/atlasqueue/domain/entities/task.py:126-152 | A trail that folds starts from no status, each event leaves from where the one before arrived, and every edge is in the table |
| Reachability.DlqMatchesLog | src/atlasqueue/application/services/task_failure_handler.py:85-97 | In every run, an id's copies in the dead-letter list equal its dead-letter events |
| Reachability.DlqMatchesReplays | src/atlasqueue/application/services/task_failure_handler.py:85-97 | In every run that is row-exclusive for the task, that number equals its replays plus one if it is DEAD_LETTER now |
| Reachability.BoundedLifetime | src/atlasqueue/domain/entities/task.py:119-147 | With m = max(1, max_retries) and R replays, at most m(1+R) starts and 4 + 2m(1+R) + R events, less what the present status may still log |
| Reachability.StricterReachesLess | src/atlasqueue/worker/pool.py:66-82 | Every state reached under a discipline is reached under one that covers fewer tasks, so the results nest |
| Reachability.NextInv | src/atlasqueue/application/services/queue_manager.py:44-317 | Every step of the machine keeps the invariants of all tasks at once, each under the discipline on that task |
| Reachability.GoodAtNext | src/atlasqueue/application/services/queue_manager.py:44-317 | A task's invariants survive any step that obeys the discipline on this task, whatever happens to others |
| Local.StepEffect | src/atlasqueue/application/services/queue_manager.py:44-317 | Every step changes only the task it acts on, and that one as the one-task automaton says |
| Delivery.PointersStep | src/atlasqueue/application/services/queue_manager.py:170-187 | No step that spares live runs gives a task a second delivery pointer |
| Audit.AuditedStep | src/atlasqueue/application/services/task_failure_handler.py:27-97 | No step of a row-exclusive run breaks the fold of the log, the dead-letter balance or the event budget |
| Audit.EdgeBalanced | src/atlasqueue/domain/entities/task.py:119-152 | Each kind of logged write keeps fold, failure count, replay count and remaining event budget in balance with the row |
| Marks.CancelMarkIsFinal | src/atlasqueue/application/services/queue_manager.py:212-228 | If no live run of the task was timed out before its id got into the cancel set, no later start of it is ever logged, in any run whatever, even when cancel was refused or came in mid-run |
| Marks.MarkWithoutLiveRunIsFinal | src/atlasqueue/application/services/queue_manager.py:212-228 | In any run, once the id of a task that no live worker runs is in the cancel set, no later start of it is ever logged |
| Escapes.MarkIsEscapedIff | src/atlasqueue/worker/executor/python_executor.py:91-106 | From any reachable state, some run of the shipped code starts a marked task again if and only if its status, its ready entries and popped ids, and the budgets of its live runs let a pointer clear the mark and a live run then bring the task back |
| Escapes.ClosedStep | src/atlasqueue/worker/executor/python_executor.py:90-134 | Where that condition fails, no step logs a start and none makes it hold |
| Marks.OnlyStartStarts | src/atlasqueue/worker/executor/python_executor.py:91-106 | No step but a worker's start logs a start or clears a cancel mark |
| Outcomes.StrandedUntilCancelled | src/atlasqueue/application/services/queue_manager.py:244-257 | In any run, a QUEUED task with no pointer and no live run keeps its row and trail until it is cancelled |
| Outcomes.RetryIsDeliveredIff | src/atlasqueue/application/services/task_failure_handler.py:64-83 | If the task's live runs are spared, claiming and releasing its due retry delivers it if and only if the release step is the repaired one; otherwise it is stranded |
| Shipped.FailureIsDeadLetteredIff | src/atlasqueue/application/services/task_failure_handler.py:27-37 | As shipped, in any run, a failed run goes to DEAD_LETTER if and only if max_retries is at most 1, and back to QUEUED if and only if it is more |
| Outcomes.SubmissionAcceptedIff | src/atlasqueue/application/services/queue_manager.py:63-118 | A new task is accepted if and only if its push is and its due time is not in the future; a future one gets a ZSET entry and ENQUEUE_FAILED |
| Outcomes.LiveTimeoutDoublesPointers | src/atlasqueue/application/services/queue_manager.py:170-187 | Timing out a live run with its budget spent and replaying the task leaves a second pointer beside the live run |
| Outcomes.LiveCancelBreaksLog | src/atlasqueue/worker/executor/python_executor.py:120-126 | Cancelling a live run that then reports success breaks the audit chain, always |
| Scenarios.DefaultRetryIsLost | src/atlasqueue/application/services/queue_manager.py:244-257 | A concrete run with default settings: submit, run, fail, wait, release; the task ends QUEUED with no pointer |
| Scenarios.MarkLostToStaleWorker | src/atlasqueue/worker/executor/python_executor.py:91-98 | A run from empty stores in which a successful cancel puts the task in the cancel set and a start of it is logged after |
| Scenarios.LostWorkerIsNeverNoticed | src/atlasqueue/application/services/queue_manager.py:308-313 | A run from empty stores in which a worker dies and six minutes pass; however the reconciler is called from then on, the task stays RUNNING unless somebody cancels it |
| Conservation.DlqConservation | src/atlasqueue/infrastructure/redis/queue_backend.py:80-88 | In every row-exclusive run the dead-letter list is longer than the number of DEAD_LETTER tasks by exactly the replays |
| Conservation.KeysStayInjective | src/atlasqueue/infrastructure/persistence/repositories.py:86-123 | In any run, idempotency keys name at most one task each and never change |
| Conservation.ResubmissionIsIdempotent | src/atlasqueue/application/services/queue_manager.py:44-48 | Submitting a known non-empty key returns the same task and leaves both stores as they were |
| Conservation.LogIsAppendOnly | src/atlasqueue/infrastructure/persistence/repositories.py:173-202 | In any run, the log is only appended to |
| Conservation.StepGrows | src/atlasqueue/infrastructure/persistence/repositories.py:86-113 | A step appends events of its own task only, pushes at most its id on the dead-letter list, changes no other row, and drops none |
| Conservation.FindByKeyFinds | src/atlasqueue/infrastructure/persistence/repositories.py:120-123 | The lookup finds a row with the key if and only if there is one |
| Calls.ReleaseCall | src/atlasqueue/application/services/queue_manager.py:244-257 | A release call is a run of claim and release steps with the same end, and unless it raised no claim is left |
| Calls.ReconcileCall | src/atlasqueue/application/services/queue_manager.py:304-317 | A reconcile call is a run of sweep steps with the same end, each at the instant at which the call reads the clock |
| Calls.RepairCall | src/atlasqueue/application/services/queue_manager.py:189-198 | A repair call is a run of repair steps with the same end, each at the instant at which the call reads the clock |
| Calls.ScheduledIsInZset | src/atlasqueue/application/services/queue_manager.py:244-257 | In any run in which release pushes are accepted, a SCHEDULED task is in the ZSET whenever no claim is pending |
| Calls.QueuedIsCovered | src/atlasqueue/application/services/queue_manager.py:244-257 | While no push is refused and no popped id is lost, every QUEUED task has a pointer, but for one that waits for its retry under the shipped release step |
| Repair.RepairEmptiesFailed | src/atlasqueue/application/services/queue_manager.py:189-198 | With n failed enqueues and nothing new, k accepted runs leave none if and only if k is at least ceil(n / batch) |
| Repair.RunsShrink | src/atlasqueue/application/services/queue_manager.py:189-198 | Each accepted run takes exactly one batch off the failed enqueues, down to none |
| Repair.RepairedIsDeliverable | src/atlasqueue/application/services/queue_manager.py:103-118 | In every run, a repaired task has exactly one way to a worker: the ZSET if its due time is still ahead, one ready entry otherwise |
| Repair.FailedRowIsStable | src/atlasqueue/application/services/queue_manager.py:189-198 | In every run, nothing but a repair of the task changes an ENQUEUE_FAILED row, so listed copies stay current |
| Repair.OverlappingRepairsPushTwice | src/atlasqueue/application/services/queue_manager.py:189-198 | Two calls that both listed a due task push it twice |
| Listing.ListingIsNewestFirst | src/atlasqueue/infrastructure/persistence/repositories.py:125-148 | A listing runs from the newest row of the status to older ones, and what it leaves out is older still |
| Listing.ListingIsFull | src/atlasqueue/infrastructure/persistence/repositories.py:125-148 | A listing holds rows of the status only, each once, and is shorter than its limit only when it has them all |
| Orphans.PromptWorkersAreSpared | src/atlasqueue/application/services/queue_manager.py:309-316 | If every worker of a task ends within 30 seconds after its timeout, no run ever times out a live run of it |
| Orphans.OrphanIsResolvedIff | src/atlasqueue/application/services/queue_manager.py:304-317 | In any history, a dead run, with or without a key, is over, its end being the first thing logged after, if and only if it is cancelled or swept by itself or a reconcile call begins before its key expires and reads the clock for it after timeout + 30; otherwise it is still there |
| Orphans.OrphanIsResolvedInWindow | src/atlasqueue/application/services/queue_manager.py:304-317 | With accepted reconcile calls under 30 seconds apart, a dead worker's run is over before its key expires, and the first thing logged after the crash is what ended it |
| Orphans.RunsResolvedAtMostOnce | src/atlasqueue/application/services/task_failure_handler.py:39-62 | In row-exclusive runs, failures and starts differ by at most one: no run is resolved twice |
| Orphans.DroppedRunIsOrphan | src/atlasqueue/worker/executor/python_executor.py:128-132 | If the task's live runs are spared, a worker that dies mid-run or whose failure push raises leaves a RUNNING row in nobody's hand, with the key its start set or, once cleared, none, unless the task was cancelled under it |
| Orphans.UnmarkedStartIsOrphan | src/atlasqueue/worker/executor/python_executor.py:100-106 | If the task's live runs are spared, a start whose key write raises leaves such a row too, with whatever key there was |
| Keys.LiveRunHasKey | src/atlasqueue/worker/executor/python_executor.py:106-132 | If the task's live runs are spared, whenever a live worker runs a RUNNING task its inflight key is there and expires 60 seconds after the timeout |
| Keys.StartSetsKey | src/atlasqueue/worker/executor/python_executor.py:100-106 | A start that launches a run leaves an inflight key that expires 60 seconds after the run's timeout |
| Orphans.ExpiredOrphanIsStuck | src/atlasqueue/application/services/queue_manager.py:308-313 | Without a key, or once it has expired, a dead run stays RUNNING through any reconcile calls, however often they come |
| Orphans.OrphanStep | src/atlasqueue/application/services/queue_manager.py:304-317 | One step ends a dead run if it cancels it or times it out, and else leaves it as it is |
| Results.SubmissionTurnedAway | src/atlasqueue/application/services/queue_manager.py:44-52 | In every reachable state: a known key that is not empty gives its task whatever the payload; then a payload over the limit is refused; then a taken empty key; all without effect |
| Results.SubmissionInserts | src/atlasqueue/application/services/queue_manager.py:63-118 | A submission that is not turned away inserts a row as requested with two events; a due one whose push is accepted is QUEUED and stably inserted into the delivery order at min(priority, P-1); a future one is in the ZSET at its due time and in ENQUEUE_FAILED, as is one whose push is refused |
| Results.RowIsAsRequested | src/atlasqueue/domain/entities/task.py:87-117 | In any run, every later state of the row holds the request's priority, retries, due time, timeout, key and policy, the default policy being a fixed 5 seconds |
| Results.RepairResult | src/atlasqueue/application/services/queue_manager.py:103-118 | A repaired row is SCHEDULED with its due time in the ZSET, or QUEUED and stably inserted at its own priority |
| Results.ReplayResult | src/atlasqueue/application/services/queue_manager.py:170-187 | In every reachable state: each answer of a replay by its guard; Done exactly when a dead letter becomes a first attempt with error, worker and times cleared, stably inserted at its own priority; else no change |
| Results.CancelAnswer | src/atlasqueue/application/services/queue_manager.py:212-228 | In every reachable state: Done exactly when the row becomes CANCELLED in this call with one event; InvalidTransition exactly when an unfinished task is marked with row and log left alone, which happens to ENQUEUE_FAILED tasks and no others; NotFound, InvalidState and RedisRaised by their guards |
| Results.CancelMarks | src/atlasqueue/application/services/queue_manager.py:219-223 | What a cancellation does to Redis for each answer: the mark, and the ZSET entry of a SCHEDULED task |
| Results.ReleaseResult | src/atlasqueue/application/services/queue_manager.py:247-256 | A shipped release iteration delivers a SCHEDULED task, stably inserted at its own priority, raises with its push, or changes nothing |
| Results.StartRuns | src/atlasqueue/worker/executor/python_executor.py:100-106 | A start of an unmarked QUEUED task saves RUNNING with worker and time, then sets a key for timeout + 60 seconds; only both make a run |
| Results.StartDeclines | src/atlasqueue/worker/executor/python_executor.py:91-98 | A marked QUEUED task is cancelled instead and its mark cleared; any other start changes nothing |
| Results.SuccessIsStored | src/atlasqueue/worker/executor/python_executor.py:120-132 | In every reachable state: a success stores the handler's own result, no error and the finish time, every other column from the worker's copy |
| Results.FailureIsPutOff | src/atlasqueue/application/services/task_failure_handler.py:64-83 | In every reachable state: a failure with attempts left enters the ZSET at now plus the delay the stored row's own policy gives for the failed attempt |
| Results.FailureIsBuried | src/atlasqueue/application/services/task_failure_handler.py:85-97 | In every reachable state: a failure without attempts left saves DEAD_LETTER with error and finish time and heads the dead-letter list |
| Results.FailureIsLost | src/atlasqueue/application/services/task_failure_handler.py:64-97 | A failure whose push raises saves nothing |
| Results.TimeoutIsPutOff | src/atlasqueue/application/services/task_failure_handler.py:39-62 | A run past timeout + 30 with attempts left is put off by its own policy, worker and start time cleared, its error column kept |
| Results.TimeoutIsBuried | src/atlasqueue/application/services/task_failure_handler.py:39-62 | One without attempts left is dead-lettered |
| Results.SweepAnswer | src/atlasqueue/application/services/queue_manager.py:309-316 | Which tasks a sweep clears, leaves, times out or raises on |
| Results.ReleaseLoopResult | src/atlasqueue/application/services/queue_manager.py:244-257 | The shipped release loop stops at the first scheduled task whose push is refused and has released all before it; its count is the number of releases logged |
| Results.SweepLoopResult | src/atlasqueue/application/services/queue_manager.py:304-317 | The sweep loop stops at the first task a Redis call for which is refused and has timed out what took too long before it; its count is the number of timeouts logged |
| Results.RepairLoopResult | src/atlasqueue/application/services/queue_manager.py:189-198 | The repair loop goes on past refused pushes and enqueues all others; its count is the number of enqueues logged |
| Results.DequeueResult | src/atlasqueue/infrastructure/redis/queue_backend.py:50-55 | A dequeue hands the head of the delivery order to a worker and leaves the rest |
| Domain.WhoMayEnter | src/atlasqueue/domain/entities/task.py:126-152 | The transition table read by the status entered |
| Services.QueueManager.Submit | src/atlasqueue/application/services/queue_manager.py:44-101 | Result and both stores for each outcome: existing key, oversized payload, taken key, accepted, failed enqueue |
| Services.QueueManager.Enqueue | src/atlasqueue/application/services/queue_manager.py:103-118 | The push stands even when the transition after it is refused |
| Services.QueueManager.RetryTask | src/atlasqueue/application/services/queue_manager.py:170-187 | Both stores after a replay, and no change when the task is missing, not retriable, or the push raises |
| Services.QueueManager.ReconcileEnqueueFailed | src/atlasqueue/application/services/queue_manager.py:189-198 | The loop over listed copies has the effect of repairing the listed rows one after another, each at its own clock reading, and counts the successes |
| Services.CancellationService.Cancel | src/atlasqueue/application/services/queue_manager.py:212-228 | Both stores and the result, including the mark that stays when the removal raises or the transition is refused |
| Services.SchedulerService.ProcessDueTasks | src/atlasqueue/application/services/queue_manager.py:244-257 | The claimed batch is released one by one up to the first push that raises; the rest of the batch is gone from the ZSET |
| Services.InflightReconciler.Reconcile | src/atlasqueue/application/services/queue_manager.py:304-317 | Each inflight id that is unexpired at the start is swept once, at its own clock reading, up to the first call that raises, and timeouts are counted |
| Services.InflightReconciler.SweepOne | src/atlasqueue/application/services/queue_manager.py:309-316 | Clears a key without a RUNNING row, times out a run past timeout + 30, leaves other runs |
| Services.TaskFailureHandler.HandleExecutionFailure | src/atlasqueue/application/services/task_failure_handler.py:27-37 | Counts the attempt and retries or dead-letters; nothing is saved when the push raises |
| Services.TaskFailureHandler.HandleTimeout | src/atlasqueue/application/services/task_failure_handler.py:39-62 | The same for an overdue run, its worker and start time cleared, then the inflight key removed |
| Services.TaskFailureHandler.ScheduleRetry | src/atlasqueue/application/services/task_failure_handler.py:64-83 | ZSET entry at now plus the backoff delay, QUEUED row, one event |
| Services.TaskFailureHandler.MoveToDeadLetter | src/atlasqueue/application/services/task_failure_handler.py:85-97 | Dead-letter push, DEAD_LETTER row with its finish time, one event |
| Services.TaskExecutorService.Start | src/atlasqueue/worker/executor/python_executor.py:90-106 | Honours a cancel mark or writes RUNNING and sets the key; a raised key write leaves the row RUNNING |
| Services.TaskExecutorService.Finish | src/atlasqueue/worker/executor/python_executor.py:108-134 | Writes success or failure from the worker's copy, and clears the key in any case |
| Stores.Task.TransitionTo | src/atlasqueue/domain/entities/task.py:126-152 | Changes the status if and only if the table has the edge |
| Stores.Task.Create | src/atlasqueue/domain/entities/task.py:87-117 | A new task is SCHEDULED if its due time is in the future, else PENDING |
| Stores.TaskRepository.Save | src/atlasqueue/infrastructure/persistence/repositories.py:86-114 | An update keeps the stored key; an insert whose key is taken is refused without effect |
| Stores.TaskRepository.GetById | src/atlasqueue/infrastructure/persistence/repositories.py:116-118 | A fresh copy of the row, or null if and only if there is none |
| Stores.TaskRepository.GetByIdempotencyKey | src/atlasqueue/infrastructure/persistence/repositories.py:120-123 | The row with the key, as the specification finds it |
| Stores.TaskRepository.ListByStatus | src/atlasqueue/infrastructure/persistence/repositories.py:125-148 | Fresh, distinct copies of the listed rows, most recent first |
| Stores.EventRepository.Append | src/atlasqueue/infrastructure/persistence/repositories.py:173-202 | One event at the end of the log |
| Stores.RedisQueueBackend.EnqueueReady | src/atlasqueue/infrastructure/redis/queue_backend.py:42-44 | A push onto the list of the clamped priority |
| Stores.RedisQueueBackend.DequeueReady | src/atlasqueue/infrastructure/redis/queue_backend.py:50-55 | The tail of the first list that has one, or None when all are empty |
| Stores.RedisQueueBackend.GetDueScheduled | src/atlasqueue/infrastructure/redis/queue_backend.py:60-63 | The due range, with nothing removed |
| Stores.RedisQueueBackend.ClaimDueScheduled | src/atlasqueue/infrastructure/redis/queue_backend.py:19-27 | Returns the same due range and removes exactly its members |
| Stores.RedisQueueBackend.GetInflightTaskIds | src/atlasqueue/infrastructure/redis/queue_backend.py:128-130 | The unexpired keys, each once |
| ReadyQueue.PushIsStableInsert | src/atlasqueue/infrastructure/redis/queue_backend.py:42-44 | A push on the lists is stable insertion into one delivery order by clamped priority |
| ReadyQueue.PopIsHead | src/atlasqueue/infrastructure/redis/queue_backend.py:50-55 | A pop removes the head of that order, and blocks if and only if it is empty |
| ReadyQueue.DrainIsStableSort | src/atlasqueue/infrastructure/redis/queue_backend.py:36-55 | Draining after any pushes yields their stable sort by (min(priority, P-1), arrival) |
| ReadyQueue.RankStep | src/atlasqueue/infrastructure/redis/queue_backend.py:39-55 | A waiting item's rank drops by one on each pop and rises by one only on a strictly better push |
| ReadyQueue.BoundedBypass | src/atlasqueue/infrastructure/redis/queue_backend.py:39-55 | With a items ahead and m later strictly better pushes, an entry leaves within a + m + 1 pops, and it is exactly the output after those a items and after those of the m pushes that came before it left |
| ScheduledSet.RangeByScore | src/atlasqueue/infrastructure/redis/queue_backend.py:19-27 | The range holds members with scores from 0 to now only, by score and then by member, up to the limit, and every such member left out comes after all taken |
| ScheduledSet.RangeIsLowestDue | src/atlasqueue/infrastructure/redis/queue_backend.py:19-27 | The range has min(limit, due) due members, distinct, by score, none of the rest due before any of them |
| ScheduledSet.ClaimsAddUp | src/atlasqueue/infrastructure/redis/queue_backend.py:65-70 | Claims in batches at one clock return what one big claim would, in the same order, and leave the same set |
| ScheduledSet.ClaimsDrain | src/atlasqueue/infrastructure/redis/queue_backend.py:65-70 | ceil(d / limit) claims hand out each of the d due members once and leave exactly the others; one claim fewer does not |
| Lease.AtMostOneLeader | src/atlasqueue/scheduler/main.py:27-52 | However late schedulers come to a GET, if each EXPIRE, each DELETE and the end of each tick body comes less than a TTL after the scheduler's last SET or EXPIRE, no two are in a tick body, or past a GET in time, together |
| Lease.OwnKeyTouchedIff | src/atlasqueue/infrastructure/redis/queue_backend.py:141-156 | In such runs an EXPIRE or DELETE that comes next meets its own scheduler's key if and only if it is in time |
| Lease.SessionsBeginInTime | src/atlasqueue/infrastructure/redis/queue_backend.py:141-156 | The owner check: a GET lets a scheduler go on to its EXPIRE or DELETE only in time |
| Lease.LateRenewalIsRefused | src/atlasqueue/infrastructure/redis/queue_backend.py:141-149 | Such a run with a late GET: a leader stalls for a TTL, is succeeded, and is sent away |
| Lease.TakeoverIffOverdue | src/atlasqueue/infrastructure/redis/queue_backend.py:138-139 | In such runs a standby acquires against a scheduler in session if and only if that one is a whole TTL past its last renewal |
| Lease.OverdueTicksOverlap | src/atlasqueue/scheduler/main.py:32-48 | A tick body that outlives the TTL overlaps with another scheduler's |
| Lease.StalledDeleteHitsSuccessor | src/atlasqueue/infrastructure/redis/queue_backend.py:151-156 | A scheduler that stalls between GET and DELETE for a TTL deletes its successor's key |
| Lease.RaisedTickReleases | src/atlasqueue/scheduler/main.py:31-50 | A tick body that raises in time leads through the release, and the key is gone |
| Lease.RaisedCallLeadsOn | src/atlasqueue/scheduler/main.py:31-50 | A Redis call that raises in a renewal leads to the release; one that raises in the release ends it, with the key left as it was |
| Lease.FailoverWithinTtl | docs/runbook.md:9-13 | A TTL after a dead leader's last renewal, any standby acquires |
| LeaderLock.RedisLeaderLock.Acquire | src/atlasqueue/infrastructure/redis/queue_backend.py:138-139 | Sets the key if and only if it is absent |
| LeaderLock.RedisLeaderLock.Renew | src/atlasqueue/infrastructure/redis/queue_backend.py:141-149 | True if and only if the GET met the owner; the EXPIRE acts at a later instant on whatever the key has become |
| LeaderLock.RedisLeaderLock.Release | src/atlasqueue/infrastructure/redis/queue_backend.py:151-156 | Deletes the key, whatever it has become since the GET, if and only if the GET met the owner |
| LeaderLock.RenewIsTwoSteps | src/atlasqueue/infrastructure/redis/queue_backend.py:141-149 | The answer and the key that the contract of Renew gives are those of the protocol's GET step and, if that met the owner, its EXPIRE step in whatever the cluster has become |
| LeaderLock.ReleaseIsTwoSteps | src/atlasqueue/infrastructure/redis/queue_backend.py:151-156 | The key that the contract of Release gives is that of the protocol's GET step and, if that met the owner, its DELETE step |
| LeaderLock.RenewalCanBeVoid | src/atlasqueue/infrastructure/redis/queue_backend.py:141-149 | A renewal that reports success holds the key afterwards if and only if it had not lapsed between GET and EXPIRE |
| Pool.PermitsAddUp | src/atlasqueue/worker/pool.py:27-32 | Under every interleaving, free permits, running processors and permits held before spawning add up to c, and at most 2c ids are out of Redis |
| Pool.BoundIsReached | src/atlasqueue/worker/pool.py:50-64 | Some run of every pool has exactly 2c ids out of Redis |
| WorkerPool.WorkerPool.Polled | src/atlasqueue/worker/pool.py:54-62 | A poll moves one loop to holding the popped id, or changes nothing |
| WorkerPool.WorkerPool.AcquirePermit | src/atlasqueue/worker/pool.py:63-63 | Takes a permit if and only if one is free, and the accounts stay balanced |
| WorkerPool.WorkerPool.SpawnProcessor | src/atlasqueue/worker/pool.py:64-64 | The permit passes from the loop to a running processor |
| WorkerPool.WorkerPool.StopLoop | src/atlasqueue/worker/pool.py:54-63 | A loop stopped while it waits holds no permit, and the accounts stay balanced |
| WorkerPool.WorkerPool.EndProcessor | src/atlasqueue/worker/pool.py:66-82 | A processor that ends, however it ends, gives its permit back |
| Backoff.DelayIsCappedPower | src/atlasqueue/domain/entities/task.py:54-58 | An exponential delay is the cap if base times multiplier^(attempt-1) reaches it, and else that product with its fraction dropped, for real multipliers; a fixed one is the base |
| Backoff.DelayNonDecreasing | src/atlasqueue/domain/entities/task.py:54-58 | A later attempt never waits less, and no delay is negative |
| Backoff.CapIsAbsorbing | src/atlasqueue/domain/entities/task.py:54-58 | Exponential delays are at most the cap and stay at it once they reach it |
| Backoff.TotalDelayOverBudget | src/atlasqueue/application/services/task_failure_handler.py:73-76 | Over a whole budget of M executions: exactly (M-1) base delays when fixed, at most (M-1) caps when exponential |
| Backoff.GeometricTotal | src/atlasqueue/domain/entities/task.py:54-58 | Below the cap an integer multiplier k of at least 2 gives total times (k - 1) equal to base times (k^n - 1) |

## Left out

- HTTP routes, request validation beyond numeric ranges, authentication, rate limiting, webhooks and the client SDK: no part of the protocol.
- Metrics, logging, telemetry, worker registry heartbeats, migrations, dashboard and deployment files.
- Handler bodies: a run's outcome is a parameter, success with a result, failure with an error, or the worker's death.
- Postgres failures and commit boundaries: one session wraps a whole run or tick and commits only at its end, where the model has every save visible at once.
- The session's identity map, by which a service that reads a row twice in one session can see a stale copy; here every read is of the stored row.
- Task names, payload contents, executor type, event messages and metadata, `created_at` and `updated_at`: no branch depends on them.
- Listing filters other than status, sort orders other than newest first, offsets, and the counting queries.
- The scheduler's endless outer loop and the consume loops as methods: they are state machines (`Lease`, `Pool`), because they do not end.
- The `SCAN` cursor: the enumeration of inflight keys is the exact set of unexpired keys, in some order, all read at one instant.
- Orphans.OrphanIsResolvedIff: a reconcile call of a history takes its time, but no other step comes between its sweeps; the results on runs of the machine let other steps in.
- Several clock readings within one service's work on one task, such as the overdue test and the retry's due time after it: they coincide, except in a submission.
- `mark_inflight` is one call; the moment between its HSET and its EXPIRE, when a key has no expiry, is not modelled.
- Floating point: multipliers are exact rationals and times are whole seconds; rounding and overflow of the power are not modelled.
- Interleaving inside one service's work on one task, between its Redis call and its save: each such piece is one step, except that a worker's start, finish and crash are separate.
- Redis restarts and evictions, and a Redis call that raises after it has taken effect.
- `dequeue_dlq`, `queue_depths` and `get_active_workers`: nothing in the protocol calls the first, and the others only report.
- Services.SchedulerService.ProcessDueTasks: covers the shipped release loop only; the repaired one is stated on values, since no such code exists.
