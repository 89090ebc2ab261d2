/**
 * What each service does to the two stores, one task at a time, as functions on their joint value:
 * the tasks table and audit log (Postgres) and the delivery structures (Redis).
 * A flag named `...Up` tells whether the Redis call of that name is accepted; a call that raises has no effect.
 */
module Protocol {
  import opened Prelude
  import opened Domain
  import opened ScheduledSet
  import ReadyQueue

  /** `redelivers` selects the repaired release step; the shipped code has it false. */
  datatype Config = Config(maxPayloadBytes: nat, redelivers: bool)

  /** One list per priority level. */
  type ReadyLists = lists: seq<seq<TaskId>> | 0 < |lists| witness [[]]

  datatype Redis = Redis(
    ready: ReadyLists,
    scheduled: map<TaskId, int>,
    inflight: map<TaskId, int>,
    cancelled: set<TaskId>,
    dlq: seq<TaskId>)

  /** `order` holds the ids of the table by creation time; `inflight` maps a key to its expiry. */
  datatype Store = Store(rows: map<TaskId, Row>, order: seq<TaskId>, log: seq<Event>, redis: Redis)

  // ---------------------------------------------------------------- ports

  /** Inserts a new row, or updates every column but the idempotency key, which only an insert sets. */
  function Save(s: Store, id: TaskId, row: Row): Store {
    if id in s.rows then s.(rows := s.rows[id := row.(key := s.rows[id].key)])
    else s.(rows := s.rows[id := row], order := s.order + [id])
  }

  function Append(s: Store, e: Event): Store {
    s.(log := s.log + [e])
  }

  /** A service's save and the audit event after it. */
  function Commit(s: Store, id: TaskId, row: Row, kind: EventKind, from: Option<Status>): Store {
    Append(Save(s, id, row), Event(id, kind, from, row.status))
  }

  function EnqueueReady(s: Store, id: TaskId, priority: nat): Store {
    s.(redis := s.redis.(ready := ReadyQueue.Push(s.redis.ready, priority, id)))
  }

  function EnqueueScheduled(s: Store, id: TaskId, at: int): Store {
    s.(redis := s.redis.(scheduled := s.redis.scheduled[id := at]))
  }

  function RemoveScheduled(s: Store, id: TaskId): Store {
    s.(redis := s.redis.(scheduled := s.redis.scheduled - {id}))
  }

  function MarkInflight(s: Store, id: TaskId, expiry: int): Store {
    s.(redis := s.redis.(inflight := s.redis.inflight[id := expiry]))
  }

  function ClearInflight(s: Store, id: TaskId): Store {
    s.(redis := s.redis.(inflight := s.redis.inflight - {id}))
  }

  function MarkCancelled(s: Store, id: TaskId): Store {
    s.(redis := s.redis.(cancelled := s.redis.cancelled + {id}))
  }

  function ClearCancelled(s: Store, id: TaskId): Store {
    s.(redis := s.redis.(cancelled := s.redis.cancelled - {id}))
  }

  function EnqueueDlq(s: Store, id: TaskId): Store {
    s.(redis := s.redis.(dlq := [id] + s.redis.dlq))
  }

  /** Keys that have not expired. */
  function InflightIds(s: Store, now: int): set<TaskId> {
    set id | id in s.redis.inflight && now < s.redis.inflight[id]
  }

  /** The rows of a status, most recent first, up to a limit. */
  function ListByStatus(rows: map<TaskId, Row>, order: seq<TaskId>, status: Status, limit: nat): seq<TaskId> {
    if order == [] || limit == 0 then []
    else
      var last := |order| - 1;
      if order[last] in rows && rows[order[last]].status == status
      then [order[last]] + ListByStatus(rows, order[..last], status, limit - 1)
      else ListByStatus(rows, order[..last], status, limit)
  }

  /** The most recent row with this idempotency key. */
  function FindByKey(rows: map<TaskId, Row>, order: seq<TaskId>, key: string): Option<TaskId> {
    if order == [] then None
    else
      var last := |order| - 1;
      if order[last] in rows && rows[order[last]].key == Some(key) then Some(order[last])
      else FindByKey(rows, order[..last], key)
  }

  // ---------------------------------------------------------------- QueueManager

  datatype Enqueued = Enqueued(store: Store, row: Row, ok: bool)

  /** Push, then transition, then save: the push happens even when the transition is refused. */
  function EnqueueTask(s: Store, id: TaskId, row: Row, now: int, up: bool): Enqueued {
    if !up then Enqueued(s, row, false)
    else
      var future := IsFuture(row.scheduledAt, now);
      var to := if future then Scheduled else Queued;
      var pushed :=
        if future then EnqueueScheduled(s, id, row.scheduledAt.value)
        else EnqueueReady(s, id, row.priority);
      if Allowed(row.status, to) then
        var r := row.(status := to);
        Enqueued(Commit(pushed, id, r, TaskEnqueued, Some(row.status)), r, true)
      else Enqueued(pushed, row, false)
  }

  datatype SubmitResult =
    | Accepted(id: TaskId)
    | Existing(id: TaskId)
    | PayloadTooLarge
    | DuplicateKey
    | EnqueueFailure(id: TaskId)

  /**
   * Submission under a fresh id. The clock is read at creation (`now`) and again at enqueueing (`later`).
   * An empty key is not looked up first, so only the unique index stops a second one.
   */
  function SubmitTask(c: Config, s: Store, q: Request, id: TaskId, now: int, later: int, up: bool):
      (Store, SubmitResult) {
    if q.key.Some? && q.key.value != "" && FindByKey(s.rows, s.order, q.key.value).Some? then
      (s, Existing(FindByKey(s.rows, s.order, q.key.value).value))
    else if q.payloadSize > c.maxPayloadBytes then (s, PayloadTooLarge)
    else if q.key.Some? && FindByKey(s.rows, s.order, q.key.value).Some? then (s, DuplicateKey)
    else
      var row := NewRow(q, now);
      var e := EnqueueTask(Commit(s, id, row, TaskSubmitted, None), id, row, later, up);
      if e.ok then (e.store, Accepted(id))
      else (Commit(e.store, id, e.row.(status := EnqueueFailed), TaskEnqueueFailed, Some(e.row.status)),
          EnqueueFailure(id))
  }

  datatype ServiceResult = Done | NotFound | InvalidState | InvalidTransition | RedisRaised

  function ReplayTask(s: Store, id: TaskId, up: bool): (Store, ServiceResult) {
    if id !in s.rows then (s, NotFound)
    else
      var row := s.rows[id];
      if row.status != DeadLetter && row.status != Failed then (s, InvalidState)
      else if !up then (s, RedisRaised)
      else (Commit(EnqueueReady(s, id, row.priority), id, ReplayedRow(row), TaskRetried, Some(row.status)), Done)
  }

  /** One iteration of the enqueue-failure reconciler. */
  function RepairTask(s: Store, id: TaskId, now: int, up: bool): (Store, bool) {
    if id !in s.rows || s.rows[id].status != EnqueueFailed then (s, false)
    else
      var e := EnqueueTask(s, id, s.rows[id], now, up);
      (e.store, e.ok)
  }

  // ---------------------------------------------------------------- CancellationService

  function CancelTask(s: Store, id: TaskId, now: int, markUp: bool, removeUp: bool): (Store, ServiceResult) {
    if id !in s.rows then (s, NotFound)
    else
      var row := s.rows[id];
      if row.status == Completed || row.status == Cancelled || row.status == DeadLetter then (s, InvalidState)
      else if !markUp then (s, RedisRaised)
      else
        var marked := MarkCancelled(s, id);
        if row.status == Scheduled && !removeUp then (marked, RedisRaised)
        else
          var removed := if row.status == Scheduled then RemoveScheduled(marked, id) else marked;
          if Allowed(row.status, Cancelled) then
            (Commit(removed, id, CancelledRow(row, now), TaskCancelled, Some(row.status)), Done)
          else (removed, InvalidTransition)
  }

  // ---------------------------------------------------------------- SchedulerService

  /** A queued row that has failed before and was put off to the ZSET. */
  predicate AwaitsRetry(r: Row) {
    r.status == Queued && r.attempts > 0
  }

  datatype Release = Skipped | Delivered | Raised

  /**
   * One iteration of the release loop over claimed ids. The shipped code releases only SCHEDULED rows;
   * the repaired variant also delivers a QUEUED row that is waiting to be retried.
   */
  function ReleaseTask(c: Config, s: Store, id: TaskId, up: bool): (Store, Release) {
    if id !in s.rows then (s, Skipped)
    else
      var row := s.rows[id];
      if row.status == Scheduled then
        if !up then (s, Raised)
        else
          (Commit(EnqueueReady(s, id, row.priority), id, row.(status := Queued), TaskScheduledRelease,
              Some(row.status)),
           Delivered)
      else if c.redelivers && AwaitsRetry(row) then
        if !up then (s, Raised) else (EnqueueReady(RemoveScheduled(s, id), id, row.priority), Delivered)
      else (s, Skipped)
  }

  // ---------------------------------------------------------------- TaskFailureHandler, InflightReconciler

  /** The queue push of a failed run, then its save and event; nothing is saved when the push raises. */
  function ResolveTask(s: Store, id: TaskId, r: Row, retryKind: EventKind, now: int, pushUp: bool): Store {
    if !pushUp then s
    else if r.status == Queued then
      Commit(EnqueueScheduled(s, id, now + RetryDelay(r)), id, r, retryKind, Some(Running))
    else Commit(EnqueueDlq(s, id), id, r, TaskDeadLetter, Some(Running))
  }

  datatype Sweep = Cleared | Requeued | Waiting | SweepRaised

  /** One iteration of the inflight reconciler. */
  function SweepTask(s: Store, id: TaskId, now: int, pushUp: bool, clearUp: bool): (Store, Sweep) {
    if id !in s.rows || s.rows[id].status != Running then
      if clearUp then (ClearInflight(s, id), Cleared) else (s, SweepRaised)
    else if !Overdue(s.rows[id], now) then (s, Waiting)
    else if !pushUp then (s, SweepRaised)
    else
      var resolved := ResolveTask(s, id, TimedOutRow(s.rows[id], now), TaskRequeuedTimeout, now, true);
      if clearUp then (ClearInflight(resolved, id), Requeued) else (resolved, SweepRaised)
  }

  // ---------------------------------------------------------------- worker

  datatype StartResult = NotQueued | StartRaised | CancelledAtStart | Launched(copy: Row)

  /**
   * A worker takes up an id it dequeued: loads the row, honours a cancel mark, or writes RUNNING.
   * `writeUp` is the second Redis call: clearing the mark, or setting the inflight key.
   */
  function StartTask(s: Store, id: TaskId, worker: string, now: int, checkUp: bool, writeUp: bool):
      (Store, StartResult) {
    if id !in s.rows || s.rows[id].status != Queued then (s, NotQueued)
    else if !checkUp then (s, StartRaised)
    else
      var row := s.rows[id];
      if id in s.redis.cancelled then
        var s1 := Commit(s, id, CancelledRow(row, now), TaskCancelled, Some(Queued));
        (if writeUp then ClearCancelled(s1, id) else s1, CancelledAtStart)
      else
        var r := StartedRow(row, worker, now);
        var s1 := Commit(s, id, r, TaskStarted, Some(Queued));
        if writeUp then (MarkInflight(s1, id, now + r.timeoutSeconds + 60), Launched(r)) else (s1, StartRaised)
  }

  datatype Outcome = Succeeded(result: string) | Errored(error: string)

  /** The end of a run: what the worker writes comes from its own copy of the row. */
  function FinishTask(s: Store, id: TaskId, copy: Row, outcome: Outcome, now: int, pushUp: bool, clearUp: bool): Store {
    var s1 := match outcome
      case Succeeded(result) => Commit(s, id, CompletedRow(copy, result, now), TaskCompleted, Some(Running))
      case Errored(error) => ResolveTask(s, id, FailedRow(copy, error, now), TaskRetryScheduled, now, pushUp);
    if clearUp then ClearInflight(s1, id) else s1
  }

  // ---------------------------------------------------------------- whole service calls, which loop over tasks

  /** A loop returns its counter, or a Redis call raises out of it. */
  datatype Loop = Counted(count: nat) | Aborted

  function Plus(n: nat, l: Loop): Loop {
    if l.Counted? then Counted(n + l.count) else l
  }

  /** The release loop; `up` holds the ids whose push is accepted. */
  function ReleaseAll(c: Config, s: Store, ids: seq<TaskId>, up: set<TaskId>): (Store, Loop)
    decreases |ids|
  {
    if ids == [] then (s, Counted(0))
    else
      var (s1, release) := ReleaseTask(c, s, ids[0], ids[0] in up);
      if release == Raised then (s1, Aborted)
      else
        var (s2, rest) := ReleaseAll(c, s1, ids[1..], up);
        (s2, Plus(if release == Delivered then 1 else 0, rest))
  }

  /** `process_due_tasks`: claim a batch atomically, then release it one by one. */
  function ProcessDue(c: Config, s: Store, now: int, batch: nat, up: set<TaskId>): (Store, Loop) {
    var ids := Range(s.redis.scheduled, now, batch);
    ReleaseAll(c, s.(redis := s.redis.(scheduled := s.redis.scheduled - Members(ids))), ids, up)
  }

  /** What the clock reads when a loop comes to a task. */
  type Clock = TaskId -> int

  /** `reconcile`, over the inflight ids as enumerated. */
  function SweepAll(s: Store, ids: seq<TaskId>, clock: Clock, pushUp: set<TaskId>, clearUp: set<TaskId>): (Store, Loop)
    decreases |ids|
  {
    if ids == [] then (s, Counted(0))
    else
      var (s1, sweep) := SweepTask(s, ids[0], clock(ids[0]), ids[0] in pushUp, ids[0] in clearUp);
      if sweep == SweepRaised then (s1, Aborted)
      else
        var (s2, rest) := SweepAll(s1, ids[1..], clock, pushUp, clearUp);
        (s2, Plus(if sweep == Requeued then 1 else 0, rest))
  }

  /** The repair loop catches what a task's enqueue raises and goes on. */
  function RepairAll(s: Store, ids: seq<TaskId>, clock: Clock, up: set<TaskId>): (Store, nat)
    decreases |ids|
  {
    if ids == [] then (s, 0)
    else
      var (s1, ok) := RepairTask(s, ids[0], clock(ids[0]), ids[0] in up);
      var (s2, rest) := RepairAll(s1, ids[1..], clock, up);
      (s2, rest + if ok then 1 else 0)
  }

  /** `reconcile_enqueue_failed`. */
  function ReconcileEnqueueFailed(s: Store, clock: Clock, batch: nat, up: set<TaskId>): (Store, nat) {
    RepairAll(s, ListByStatus(s.rows, s.order, EnqueueFailed, batch), clock, up)
  }
}
