/** The application services, method by method, against the specification functions. */
module Services {
  import opened Prelude
  import opened Domain
  import opened ScheduledSet
  import opened Protocol
  import opened Listing
  import opened Stores

  /** Retry, dead-letter and timeout handling of a run that is over. */
  class TaskFailureHandler {
    const tasks: TaskRepository
    const events: EventRepository
    const queue: RedisQueueBackend

    constructor (tasks: TaskRepository, events: EventRepository, queue: RedisQueueBackend)
      ensures this.tasks == tasks && this.events == events && this.queue == queue
    {
      this.tasks, this.events, this.queue := tasks, events, queue;
    }

    ghost function World(): Store
      reads tasks, events, queue
    {
      Joint(tasks, events, queue)
    }

    /** To QUEUED and into the ZSET; false when the push raises, before anything is saved. */
    method ScheduleRetry(task: Task, from: Status, kind: EventKind, now: int, pushUp: bool) returns (ok: bool)
      requires task.status == Running && task.id in tasks.rows && tasks.rows[task.id].key == task.key
      modifies task, tasks, events, queue
      ensures ok == pushUp
      ensures task.AsRow() == old(task.AsRow()).(status := Queued)
      ensures World() == if !pushUp then old(World())
        else Commit(EnqueueScheduled(old(World()), task.id, now + RetryDelay(task.AsRow())), task.id, task.AsRow(),
            kind, Some(from))
    {
      var moved := task.TransitionTo(Queued);
      var delay := task.backoff.DelayForAttempt(task.attempts);
      ok := queue.EnqueueScheduled(task.id, now + delay, pushUp);
      if ok {
        var saved := tasks.Save(task);
        events.Append(task.id, kind, Some(from), task.status);
      }
    }

    /** To DEAD_LETTER and onto the dead-letter list; false when the push raises, before anything is saved. */
    method MoveToDeadLetter(task: Task, from: Status, now: int, pushUp: bool) returns (ok: bool)
      requires task.status == Running && task.id in tasks.rows && tasks.rows[task.id].key == task.key
      modifies task, tasks, events, queue
      ensures ok == pushUp
      ensures task.AsRow() == old(task.AsRow()).(status := DeadLetter, finishedAt := Some(now))
      ensures World() == if !pushUp then old(World())
        else Commit(EnqueueDlq(old(World()), task.id), task.id, task.AsRow(), TaskDeadLetter, Some(from))
    {
      var moved := task.TransitionTo(DeadLetter);
      task.finishedAt := Some(now);
      ok := queue.EnqueueDlq(task.id, pushUp);
      if ok {
        var saved := tasks.Save(task);
        events.Append(task.id, TaskDeadLetter, Some(from), task.status);
      }
    }

    /** The branch both failure paths take once the attempt is counted. */
    method Resolve(task: Task, from: Status, retryKind: EventKind, now: int, pushUp: bool) returns (ok: bool)
      requires task.status == Running == from && task.id in tasks.rows && tasks.rows[task.id].key == task.key
      modifies task, tasks, events, queue
      ensures ok == pushUp
      ensures task.AsRow() == Resolved(old(task.AsRow()), now)
      ensures World() == ResolveTask(old(World()), task.id, task.AsRow(), retryKind, now, pushUp)
    {
      if task.attempts < task.maxRetries {
        ok := ScheduleRetry(task, from, retryKind, now, pushUp);
      } else {
        ok := MoveToDeadLetter(task, from, now, pushUp);
      }
    }

    method HandleExecutionFailure(task: Task, error: string, now: int, pushUp: bool) returns (ok: bool)
      requires task.status == Running && task.id in tasks.rows && tasks.rows[task.id].key == task.key
      modifies task, tasks, events, queue
      ensures ok == pushUp
      ensures World()
           == ResolveTask(old(World()), task.id, FailedRow(old(task.AsRow()), error, now), TaskRetryScheduled, now,
               pushUp)
    {
      var from := task.status;
      task.attempts := task.attempts + 1;
      task.error := Some(error);
      ok := Resolve(task, from, TaskRetryScheduled, now, pushUp);
    }

    /** Requeues or dead-letters an overdue run; `handled` is false when a Redis call raised on the way. */
    method HandleTimeout(task: Task, now: int, pushUp: bool, clearUp: bool) returns (handled: bool)
      requires task.status == Running && task.id in tasks.rows && tasks.rows[task.id].key == task.key
      modifies task, tasks, events, queue
      ensures handled == (pushUp && clearUp)
      ensures var s := ResolveTask(old(World()), task.id, TimedOutRow(old(task.AsRow()), now), TaskRequeuedTimeout,
          now, pushUp);
        World() == if handled then ClearInflight(s, task.id) else s
    {
      var from := task.status;
      task.attempts := task.attempts + 1;
      task.workerId := None;
      task.startedAt := None;
      var pushed := Resolve(task, from, TaskRequeuedTimeout, now, pushUp);
      if !pushed {
        return false;
      }
      ResolvedRowSaved(old(World()), task.id, task.AsRow(), now);
      handled := SaveAndClear(task, clearUp);
    }

    lemma ResolvedRowSaved(s: Store, id: TaskId, r: Row, now: int)
      requires id in s.rows && s.rows[id].key == r.key
      ensures var rows := ResolveTask(s, id, r, TaskRequeuedTimeout, now, true).rows; id in rows && rows[id] == r
    {}

    /** The row is saved once more, which changes nothing, and the inflight key cleared. */
    method SaveAndClear(task: Task, clearUp: bool) returns (ok: bool)
      requires task.id in tasks.rows && tasks.rows[task.id] == task.AsRow()
      modifies tasks, queue
      ensures ok == clearUp
      ensures World() == if clearUp then ClearInflight(old(World()), task.id) else old(World())
    {
      SavedTwice(World(), task.id, task.AsRow());
      var saved := tasks.Save(task);
      ok := queue.ClearInflight(task.id, clearUp);
    }

    lemma SavedTwice(s: Store, id: TaskId, row: Row)
      requires id in s.rows && s.rows[id] == row
      ensures Save(s, id, row) == s
    {}
  }

  class InflightReconciler {
    const tasks: TaskRepository
    const events: EventRepository
    const queue: RedisQueueBackend
    const failures: TaskFailureHandler

    constructor (tasks: TaskRepository, events: EventRepository, queue: RedisQueueBackend)
      ensures this.tasks == tasks && this.events == events && this.queue == queue && Wired()
    {
      this.tasks, this.events, this.queue := tasks, events, queue;
      this.failures := new TaskFailureHandler(tasks, events, queue);
    }

    ghost predicate Wired() {
      failures.tasks == tasks && failures.events == events && failures.queue == queue
    }

    ghost function World(): Store
      reads tasks, events, queue
    {
      Joint(tasks, events, queue)
    }

    /** One iteration of the loop. */
    method SweepOne(id: TaskId, now: int, pushUp: bool, clearUp: bool) returns (sweep: Sweep)
      requires Wired()
      modifies tasks, events, queue
      ensures (World(), sweep) == SweepTask(old(World()), id, now, pushUp, clearUp)
    {
      var task := tasks.GetById(id);
      if task == null || task.status != Running {
        var ok := queue.ClearInflight(id, clearUp);
        return if ok then Cleared else SweepRaised;
      }
      if task.startedAt.Some? && now - task.startedAt.value > task.timeoutSeconds + 30 {
        var handled := failures.HandleTimeout(task, now, pushUp, clearUp);
        return if handled then Requeued else SweepRaised;
      }
      sweep := Waiting;
    }

    /**
     * Sweeps the inflight ids, in the order `ids` they were enumerated at `now`; the clock is read again for each.
     * `requeued` is None when Redis raised.
     */
    method Reconcile(now: int, clock: Clock, pushUp: set<TaskId>, clearUp: set<TaskId>)
      returns (requeued: Option<nat>, ids: seq<TaskId>)
      requires Wired()
      modifies tasks, events, queue
      ensures Members(ids) == InflightIds(old(World()), now)
      ensures Distinct(ids)
      ensures var (s, loop) := SweepAll(old(World()), ids, clock, pushUp, clearUp);
        World() == s && loop == if requeued.Some? then Counted(requeued.value) else Aborted
    {
      ids := queue.GetInflightTaskIds(now);
      var count := 0;
      var i := 0;
      while i < |ids|
        invariant 0 <= i <= |ids|
        invariant var (s, loop) := SweepAll(World(), ids[i..], clock, pushUp, clearUp);
          SweepAll(old(World()), ids, clock, pushUp, clearUp) == (s, Plus(count, loop))
      {
        var sweep := SweepOne(ids[i], clock(ids[i]), ids[i] in pushUp, ids[i] in clearUp);
        if sweep == SweepRaised {
          return None, ids;
        }
        if sweep == Requeued {
          count := count + 1;
        }
        i := i + 1;
      }
      requeued := Some(count);
    }
  }

  class QueueManager {
    const tasks: TaskRepository
    const events: EventRepository
    const queue: RedisQueueBackend
    const config: Config

    constructor (tasks: TaskRepository, events: EventRepository, queue: RedisQueueBackend, config: Config)
      ensures this.tasks == tasks && this.events == events && this.queue == queue && this.config == config
    {
      this.tasks, this.events, this.queue, this.config := tasks, events, queue, config;
    }

    ghost function World(): Store
      reads tasks, events, queue
    {
      Joint(tasks, events, queue)
    }

    /** Push, transition, save, append; false when the push or the transition raises. */
    method Enqueue(task: Task, now: int, up: bool) returns (ok: bool)
      requires task.id in tasks.rows && tasks.rows[task.id].key == task.key
      modifies task, tasks, events, queue
      ensures Enqueued(World(), task.AsRow(), ok) == EnqueueTask(old(World()), task.id, old(task.AsRow()), now, up)
    {
      var from := task.status;
      if task.scheduledAt.Some? && task.scheduledAt.value > now {
        ok := queue.EnqueueScheduled(task.id, task.scheduledAt.value, up);
        if !ok { return; }
        ok := task.TransitionTo(Scheduled);
      } else {
        ok := queue.EnqueueReady(task.id, task.priority, up);
        if !ok { return; }
        ok := task.TransitionTo(Queued);
      }
      if !ok { return; }
      var saved := tasks.Save(task);
      events.Append(task.id, TaskEnqueued, Some(from), task.status);
    }

    /** `unused` is the id the new task gets; the clock reads `now` at its creation and `later` at its enqueueing. */
    method Submit(q: Request, unused: TaskId, now: int, later: int, up: bool) returns (r: SubmitResult)
      requires unused !in tasks.rows
      modifies tasks, events, queue
      ensures (World(), r) == SubmitTask(config, old(World()), q, unused, now, later, up)
    {
      if q.key.Some? && q.key.value != "" {
        var existing := tasks.GetByIdempotencyKey(q.key.value);
        if existing.Some? {
          return Existing(existing.value);
        }
      }
      if q.payloadSize > config.maxPayloadBytes {
        return PayloadTooLarge;
      }
      var task := new Task.Create(unused, q, now);
      var saved := tasks.Save(task);
      if !saved {
        return DuplicateKey;
      }
      events.Append(task.id, TaskSubmitted, None, task.status);
      var ok := Enqueue(task, later, up);
      if ok {
        return Accepted(task.id);
      }
      var from := task.status;
      var moved := task.TransitionTo(EnqueueFailed);
      saved := tasks.Save(task);
      events.Append(task.id, TaskEnqueueFailed, Some(from), task.status);
      r := EnqueueFailure(task.id);
    }

    /** Gives the task a clean retry budget and queues it, in memory. */
    method Reset(task: Task)
      requires task.status == DeadLetter || task.status == Failed
      modifies task
      ensures task.AsRow() == ReplayedRow(old(task.AsRow()))
    {
      task.error := None;
      task.attempts := 0;
      task.workerId := None;
      task.startedAt := None;
      task.finishedAt := None;
      var moved := task.TransitionTo(Queued);
    }

    method RetryTask(id: TaskId, up: bool) returns (r: ServiceResult)
      modifies tasks, events, queue
      ensures (World(), r) == ReplayTask(old(World()), id, up)
    {
      var task := tasks.GetById(id);
      if task == null {
        return NotFound;
      }
      if task.status != DeadLetter && task.status != Failed {
        return InvalidState;
      }
      var from := task.status;
      Reset(task);
      var ok := queue.EnqueueReady(task.id, task.priority, up);
      if !ok {
        return RedisRaised;
      }
      var saved := tasks.Save(task);
      events.Append(task.id, TaskRetried, Some(from), task.status);
      r := Done;
    }

    /** One iteration of the repair loop, on the copy listed `i`-th; the copies after it stay current. */
    method RepairOne(listed: seq<Task>, ghost ids: seq<TaskId>, i: nat, now: int, up: bool) returns (ok: bool)
      requires i < |listed| == |ids| && Distinct(ids) && Pending(listed, ids, i)
      requires forall j :: i < j < |listed| ==> listed[j] != listed[i]
      modifies listed[i], tasks, events, queue
      ensures Pending(listed, ids, i + 1)
      ensures (World(), ok) == RepairTask(old(World()), ids[i], now, up)
    {
      assert CopyOfFailed(listed[i], ids[i]);
      ghost var before := tasks.rows;
      ok := Enqueue(listed[i], now, up);
      assert forall id :: id in before && id != ids[i] ==> id in tasks.rows && tasks.rows[id] == before[id];
      forall j | i < j < |ids| ensures CopyOfFailed(listed[j], ids[j]) {
        assert old(CopyOfFailed(listed[j], ids[j]));
        assert ids[j] != ids[i];
      }
    }

    ghost predicate CopyOfFailed(task: Task, id: TaskId)
      reads tasks, task
    {
      task.id == id && id in tasks.rows && task.AsRow() == tasks.rows[id] && task.status == EnqueueFailed
    }

    /** The copies still to be enqueued are those of failed rows. */
    ghost predicate Pending(listed: seq<Task>, ids: seq<TaskId>, i: nat)
      requires |listed| == |ids|
      reads tasks, listed
    {
      forall j :: i <= j < |ids| ==> CopyOfFailed(listed[j], ids[j])
    }

    method RepairListed(listed: seq<Task>, ghost ids: seq<TaskId>, clock: Clock, up: set<TaskId>) returns (count: nat)
      requires |listed| == |ids| && Distinct(ids) && Pending(listed, ids, 0)
      requires forall i, j :: 0 <= i < j < |listed| ==> listed[i] != listed[j]
      modifies listed, tasks, events, queue
      ensures (World(), count) == RepairAll(old(World()), ids, clock, up)
    {
      count := 0;
      var i := 0;
      RepairedNone(World(), ids, clock, up);
      while i < |listed|
        invariant 0 <= i <= |listed| && Pending(listed, ids, i)
        invariant Repaired(old(World()), World(), ids, i, count, clock, up)
      {
        ghost var s := World();
        assert CopyOfFailed(listed[i], ids[i]);
        var ok := RepairOne(listed, ids, i, clock(listed[i].id), listed[i].id in up);
        RepairedStep(old(World()), s, World(), ids, i, count, ok, clock, up);
        if ok {
          count := count + 1;
        }
        i := i + 1;
      }
      RepairedEverything(old(World()), World(), ids, count, clock, up);
    }

    /** Enqueues a batch of failed tasks again from the copies it listed; one that raises is left for the next run. */
    method ReconcileEnqueueFailed(clock: Clock, batch: nat, up: set<TaskId>) returns (count: nat)
      requires tasks.Valid()
      modifies tasks, events, queue
      ensures (World(), count) == Protocol.ReconcileEnqueueFailed(old(World()), clock, batch, up)
    {
      var listed := tasks.ListByStatus(EnqueueFailed, batch);
      ghost var ids := ListByStatus(tasks.rows, tasks.order, EnqueueFailed, batch);
      ListedRows(tasks.rows, tasks.order, EnqueueFailed, batch);
      count := RepairListed(listed, ids, clock, up);
    }

    /** What is done up to `i` and what the rest of the loop would do add up to the whole. */
    ghost predicate Repaired(s0: Store, s: Store, ids: seq<TaskId>, i: nat, count: nat, clock: Clock, up: set<TaskId>)
      requires i <= |ids|
    {
      var (end, rest) := RepairAll(s, ids[i..], clock, up);
      RepairAll(s0, ids, clock, up) == (end, count + rest)
    }

    lemma RepairedNone(s: Store, ids: seq<TaskId>, clock: Clock, up: set<TaskId>)
      ensures Repaired(s, s, ids, 0, 0, clock, up)
    {}

    lemma RepairedEverything(s0: Store, s: Store, ids: seq<TaskId>, count: nat, clock: Clock, up: set<TaskId>)
      requires Repaired(s0, s, ids, |ids|, count, clock, up)
      ensures (s, count) == RepairAll(s0, ids, clock, up)
    {}

    lemma RepairedStep(s0: Store, s: Store, s': Store, ids: seq<TaskId>, i: nat, count: nat, ok: bool, clock: Clock,
        up: set<TaskId>)
      requires i < |ids| && Repaired(s0, s, ids, i, count, clock, up)
      requires (s', ok) == RepairTask(s, ids[i], clock(ids[i]), ids[i] in up)
      ensures Repaired(s0, s', ids, i + 1, count + if ok then 1 else 0, clock, up)
    {}
  }

  class CancellationService {
    const tasks: TaskRepository
    const events: EventRepository
    const queue: RedisQueueBackend

    constructor (tasks: TaskRepository, events: EventRepository, queue: RedisQueueBackend)
      ensures this.tasks == tasks && this.events == events && this.queue == queue
    {
      this.tasks, this.events, this.queue := tasks, events, queue;
    }

    ghost function World(): Store
      reads tasks, events, queue
    {
      Joint(tasks, events, queue)
    }

    method Cancel(id: TaskId, now: int, markUp: bool, removeUp: bool) returns (r: ServiceResult)
      modifies tasks, events, queue
      ensures (World(), r) == CancelTask(old(World()), id, now, markUp, removeUp)
    {
      var task := tasks.GetById(id);
      if task == null {
        return NotFound;
      }
      if task.status == Completed || task.status == Cancelled || task.status == DeadLetter {
        return InvalidState;
      }
      var from := task.status;
      var ok := queue.MarkCancelled(id, markUp);
      if !ok {
        return RedisRaised;
      }
      if from == Scheduled {
        ok := queue.RemoveScheduled(id, removeUp);
        if !ok {
          return RedisRaised;
        }
      }
      ok := RecordCancelled(task, now);
      r := if ok then Done else InvalidTransition;
    }

    /** The transition, then the save and the event; nothing is saved when the table refuses. */
    method RecordCancelled(task: Task, now: int) returns (ok: bool)
      requires task.id in tasks.rows && tasks.rows[task.id] == task.AsRow()
      modifies task, tasks, events
      ensures ok == Allowed(old(task.status), Cancelled)
      ensures World() == if !ok then old(World())
        else Commit(old(World()), task.id, CancelledRow(old(task.AsRow()), now), TaskCancelled, Some(old(task.status)))
    {
      var from := task.status;
      ok := task.TransitionTo(Cancelled);
      if ok {
        task.finishedAt := Some(now);
        var saved := tasks.Save(task);
        events.Append(task.id, TaskCancelled, Some(from), task.status);
      }
    }
  }

  class SchedulerService {
    const tasks: TaskRepository
    const events: EventRepository
    const queue: RedisQueueBackend

    constructor (tasks: TaskRepository, events: EventRepository, queue: RedisQueueBackend)
      ensures this.tasks == tasks && this.events == events && this.queue == queue
    {
      this.tasks, this.events, this.queue := tasks, events, queue;
    }

    ghost function World(): Store
      reads tasks, events, queue
    {
      Joint(tasks, events, queue)
    }

    /** One iteration of the release loop, as shipped. */
    method ReleaseOne(c: Config, id: TaskId, up: bool) returns (r: Release)
      requires !c.redelivers
      modifies tasks, events, queue
      ensures (World(), r) == ReleaseTask(c, old(World()), id, up)
    {
      var task := tasks.GetById(id);
      if task == null || task.status != Scheduled {
        return Skipped;
      }
      var from := task.status;
      var ok := queue.EnqueueReady(task.id, task.priority, up);
      if !ok {
        return Raised;
      }
      var moved := task.TransitionTo(Queued);
      var saved := tasks.Save(task);
      events.Append(task.id, TaskScheduledRelease, Some(from), task.status);
      r := Delivered;
    }

    /** Claims a batch and releases it; None when a push raised. */
    method ProcessDueTasks(c: Config, batch: nat, now: int, up: set<TaskId>) returns (processed: Option<nat>)
      requires !c.redelivers
      modifies tasks, events, queue
      ensures var (s, loop) := ProcessDue(c, old(World()), now, batch, up);
        World() == s && loop == if processed.Some? then Counted(processed.value) else Aborted
    {
      var ids := queue.ClaimDueScheduled(batch, now);
      ghost var claimed := World();
      var count := 0;
      var i := 0;
      while i < |ids|
        invariant 0 <= i <= |ids|
        invariant var (s, loop) := ReleaseAll(c, World(), ids[i..], up);
          ReleaseAll(c, claimed, ids, up) == (s, Plus(count, loop))
      {
        var r := ReleaseOne(c, ids[i], ids[i] in up);
        if r == Raised {
          return None;
        }
        if r == Delivered {
          count := count + 1;
        }
        i := i + 1;
      }
      processed := Some(count);
    }
  }

  /** What a worker does with an id, up to the handler's run and after it. */
  class TaskExecutorService {
    const tasks: TaskRepository
    const events: EventRepository
    const queue: RedisQueueBackend
    const failures: TaskFailureHandler

    constructor (tasks: TaskRepository, events: EventRepository, queue: RedisQueueBackend)
      ensures this.tasks == tasks && this.events == events && this.queue == queue && Wired()
    {
      this.tasks, this.events, this.queue := tasks, events, queue;
      this.failures := new TaskFailureHandler(tasks, events, queue);
    }

    ghost predicate Wired() {
      failures.tasks == tasks && failures.events == events && failures.queue == queue
    }

    ghost function World(): Store
      reads tasks, events, queue
    {
      Joint(tasks, events, queue)
    }

    /** Loads a popped id and begins its run; `task` is the worker's copy when the run is on. */
    method Start(id: TaskId, worker: string, now: int, checkUp: bool, writeUp: bool)
        returns (r: StartResult, task: Task?)
      modifies tasks, events, queue
      ensures (World(), r) == StartTask(old(World()), id, worker, now, checkUp, writeUp)
      ensures r.Launched? ==> task != null && fresh(task) && task.id == id && task.AsRow() == r.copy
    {
      task := tasks.GetById(id);
      if task == null || task.status != Queued {
        return NotQueued, task;
      }
      if !checkUp {
        return StartRaised, task;
      }
      if id in queue.cancelled {
        CancelInstead(task, now, writeUp);
        return CancelledAtStart, task;
      }
      var marked := Launch(task, worker, now, writeUp);
      r := if marked then Launched(task.AsRow()) else StartRaised;
    }

    method CancelInstead(task: Task, now: int, writeUp: bool)
      requires task.status == Queued && task.id in tasks.rows && tasks.rows[task.id] == task.AsRow()
      modifies task, tasks, events, queue
      ensures var s := Commit(old(World()), task.id, CancelledRow(old(task.AsRow()), now), TaskCancelled, Some(Queued));
        World() == if writeUp then ClearCancelled(s, task.id) else s
    {
      var from := task.status;
      var moved := task.TransitionTo(Cancelled);
      task.finishedAt := Some(now);
      var saved := tasks.Save(task);
      events.Append(task.id, TaskCancelled, Some(from), task.status);
      var cleared := queue.ClearCancelled(task.id, writeUp);
    }

    method Launch(task: Task, worker: string, now: int, writeUp: bool) returns (marked: bool)
      requires task.status == Queued && task.id in tasks.rows && tasks.rows[task.id] == task.AsRow()
      modifies task, tasks, events, queue
      ensures marked == writeUp && task.AsRow() == StartedRow(old(task.AsRow()), worker, now)
      ensures var s := Commit(old(World()), task.id, task.AsRow(), TaskStarted, Some(Queued));
        World() == if writeUp then MarkInflight(s, task.id, now + task.timeoutSeconds + 60) else s
    {
      var from := task.status;
      var moved := task.TransitionTo(Running);
      task.workerId := Some(worker);
      task.startedAt := Some(now);
      var saved := tasks.Save(task);
      events.Append(task.id, TaskStarted, Some(from), task.status);
      marked := queue.MarkInflight(task.id, task.timeoutSeconds + 60, now, writeUp);
    }

    /** Records how the handler's run ended, from the worker's copy, and clears the inflight key in any case. */
    method Finish(task: Task, outcome: Outcome, now: int, pushUp: bool, clearUp: bool)
      requires Wired() && task.status == Running
      requires task.id in tasks.rows && tasks.rows[task.id].key == task.key
      modifies task, tasks, events, queue
      ensures World() == FinishTask(old(World()), task.id, old(task.AsRow()), outcome, now, pushUp, clearUp)
    {
      match outcome {
        case Succeeded(result) =>
          var from := task.status;
          var moved := task.TransitionTo(Completed);
          task.result := Some(result);
          task.finishedAt := Some(now);
          task.error := None;
          var saved := tasks.Save(task);
          events.Append(task.id, TaskCompleted, Some(from), task.status);
        case Errored(error) =>
          var handled := failures.HandleExecutionFailure(task, error, now, pushUp);
      }
      var cleared := queue.ClearInflight(task.id, clearUp);
    }
  }
}
