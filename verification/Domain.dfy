/** The task entity as a value: statuses, the transition table, and what each service writes into a row. */
module Domain {
  import opened Prelude
  import opened Backoff

  /** A UUID, by its numeric value: that order is also the order of its canonical text. */
  type TaskId = nat

  datatype Status =
    | Pending
    | Scheduled
    | Queued
    | Running
    | Completed
    | Failed
    | Cancelled
    | DeadLetter
    | EnqueueFailed

  /** The transition table. */
  predicate Allowed(from: Status, to: Status) {
    match from
    case Pending => to == Queued || to == EnqueueFailed || to == Cancelled
    case Scheduled => to == Queued || to == Cancelled || to == EnqueueFailed
    case Queued => to == Running || to == Cancelled
    case Running => to == Completed || to == Failed || to == Cancelled || to == Queued || to == DeadLetter
    case Failed => to == Queued || to == DeadLetter
    case EnqueueFailed => to == Queued || to == Scheduled
    case DeadLetter => to == Queued
    case Completed => false
    case Cancelled => false
  }

  /** The table by the status entered: who may become what. */
  lemma WhoMayEnter(from: Status, to: Status)
    ensures Allowed(from, to) == (from in match to
      case Pending => {}
      case Scheduled => {EnqueueFailed}
      case Queued => {Pending, Scheduled, Running, Failed, EnqueueFailed, DeadLetter}
      case Running => {Queued}
      case Completed => {Running}
      case Failed => {Running}
      case Cancelled => {Pending, Scheduled, Queued, Running}
      case DeadLetter => {Running, Failed}
      case EnqueueFailed => {Pending, Scheduled})
  {}

  /** One row of the tasks table; times are seconds since the epoch. */
  datatype Row = Row(
    status: Status,
    priority: nat,
    maxRetries: nat,
    attempts: nat,
    scheduledAt: Option<int>,
    timeoutSeconds: nat,
    backoff: BackoffPolicy,
    workerId: Option<string>,
    result: Option<string>,
    error: Option<string>,
    key: Option<string>,
    startedAt: Option<int>,
    finishedAt: Option<int>)

  datatype Request = Request(
    payloadSize: nat,
    priority: nat,
    maxRetries: nat,
    scheduledAt: Option<int>,
    timeoutSeconds: nat,
    backoff: Option<BackoffPolicy>,
    key: Option<string>)

  datatype EventKind =
    | TaskSubmitted
    | TaskEnqueued
    | TaskEnqueueFailed
    | TaskRetried
    | TaskCancelled
    | TaskScheduledRelease
    | TaskStarted
    | TaskCompleted
    | TaskRetryScheduled
    | TaskRequeuedTimeout
    | TaskDeadLetter

  /** One entry of the audit log. */
  datatype Event = Event(id: TaskId, kind: EventKind, from: Option<Status>, to: Status)

  predicate IsFailure(kind: EventKind) {
    kind == TaskRetryScheduled || kind == TaskRequeuedTimeout || kind == TaskDeadLetter
  }

  predicate IsRetry(kind: EventKind) {
    kind == TaskRetryScheduled || kind == TaskRequeuedTimeout
  }

  predicate IsFuture(at: Option<int>, now: int) {
    at.Some? && at.value > now
  }

  predicate CanRetry(r: Row) {
    r.attempts < r.maxRetries
  }

  function RetryDelay(r: Row): int {
    r.backoff.DelayForAttempt(r.attempts)
  }

  /** An overdue run: the reconciler's threshold is the timeout plus 30 seconds. */
  predicate Overdue(r: Row, now: int) {
    r.status == Running && r.startedAt.Some? && now - r.startedAt.value > r.timeoutSeconds + 30
  }

  function NewRow(q: Request, now: int): Row {
    Row(
      if IsFuture(q.scheduledAt, now) then Scheduled else Pending,
      q.priority, q.maxRetries, 0, q.scheduledAt, q.timeoutSeconds,
      if q.backoff.Some? then q.backoff.value else DEFAULT_POLICY,
      None, None, None, q.key, None, None)
  }

  function StartedRow(r: Row, worker: string, now: int): Row {
    r.(status := Running, workerId := Some(worker), startedAt := Some(now))
  }

  function CompletedRow(r: Row, result: string, now: int): Row {
    r.(status := Completed, result := Some(result), finishedAt := Some(now), error := None)
  }

  function CancelledRow(r: Row, now: int): Row {
    r.(status := Cancelled, finishedAt := Some(now))
  }

  function ReplayedRow(r: Row): Row {
    r.(status := Queued, error := None, attempts := 0, workerId := None, startedAt := None, finishedAt := None)
  }

  /** Where a run that just failed goes, its attempt already counted. */
  function Resolved(r: Row, now: int): Row {
    if CanRetry(r) then r.(status := Queued) else r.(status := DeadLetter, finishedAt := Some(now))
  }

  function FailedRow(r: Row, error: string, now: int): Row {
    Resolved(r.(attempts := r.attempts + 1, error := Some(error)), now)
  }

  function TimedOutRow(r: Row, now: int): Row {
    Resolved(r.(attempts := r.attempts + 1, workerId := None, startedAt := None), now)
  }
}
