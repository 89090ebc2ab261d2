/**
 * What each service does to the two stores and what it answers, column by column and list by list,
 * in every reachable state.
 */
module Results {
  import opened Prelude
  import opened Domain
  import opened Backoff
  import opened Protocol
  import opened Machine
  import opened Views
  import opened Local
  import opened Invariants
  import opened Reachability
  import opened Conservation
  import opened ReadyQueue

  /** One row of the table is rewritten and one event of the task appended. */
  predicate Rewrites(s: Store, s': Store, id: TaskId, row: Row, kind: EventKind, from: Status) {
    && s'.rows == s.rows[id := row] && s'.order == s.order
    && s'.log == s.log + [Event(id, kind, Some(from), row.status)]
  }

  predicate SameTables(s: Store, s': Store) {
    s'.rows == s.rows && s'.order == s.order && s'.log == s.log
  }

  /** The id takes its place in the delivery order, behind all of its own or a better level; else Redis is as it was. */
  predicate Enters(r: Redis, r': Redis, id: TaskId, priority: nat) {
    && Order(r'.ready) == StableInsert(Order(r.ready), Entry(Min(priority, |r.ready| - 1), id))
    && |r'.ready| == |r.ready| && r' == r.(ready := r'.ready)
  }

  lemma PushEnters(s: Store, id: TaskId, priority: nat)
    ensures Enters(s.redis, EnqueueReady(s, id, priority).redis, id, priority)
  {
    PushIsStableInsert(s.redis.ready, priority, id);
  }

  /** The row a live worker overwrites is that of the same request. */
  lemma CopyOfRequest(st: State, slot: Slot)
    requires Reachable(ANY, st) && slot in st.workers && st.workers[slot].Executing?
    ensures var w := st.workers[slot];
      && w.id in st.store.rows && SameRequest(w.copy, st.store.rows[w.id]) && w.copy.status == Running
  {
    var id := st.workers[slot].id;
    ReachableAt(ANY, st, id);
    assert slot in ViewOf(st, id).hands;
    assert CopyOk(ViewOf(st, id).hands[slot], id, st.store.rows[id]);
  }

  // ---------------------------------------------------------------- submission

  /** What a request asks for, as its row holds it; the default policy waits 5 seconds every time. */
  predicate AsRequested(q: Request, r: Row) {
    && r.priority == q.priority && r.maxRetries == q.maxRetries && r.scheduledAt == q.scheduledAt
    && r.timeoutSeconds == q.timeoutSeconds && r.key == q.key
    && r.backoff == if q.backoff.Some? then q.backoff.value else BackoffPolicy(Fixed, 5, 300, 2.0)
  }

  /** Some task has the request's key. */
  ghost predicate KeyTaken(s: Store, q: Request) {
    q.key.Some? && exists j :: j in s.rows && s.rows[j].key == q.key
  }

  predicate InFuture(at: Option<int>, now: int) {
    at.Some? && now < at.value
  }

  /**
   * The answer to a submission: a known key that is not empty gives its task, whatever the payload; then the payload
   * must not exceed the limit; then a taken key, which can only be the empty one, is refused; all without effect.
   */
  lemma SubmissionTurnedAway(st: State, q: Request, id: TaskId, now: int, later: int, up: bool)
    requires Reachable(ANY, st)
    ensures var (s', answer) := SubmitTask(st.config, st.store, q, id, now, later, up);
      var known := KeyTaken(st.store, q) && q.key != Some("");
      var large := q.payloadSize > st.config.maxPayloadBytes;
      && (answer.Existing? <==> known)
      && (known ==> answer.id in st.store.rows && st.store.rows[answer.id].key == q.key)
      && (answer == PayloadTooLarge <==> !known && large)
      && (answer == DuplicateKey <==> !known && !large && KeyTaken(st.store, q))
      && (answer.Existing? || answer == PayloadTooLarge || answer == DuplicateKey ==> s' == st.store)
  {
    ReachableKeys(st);
    if q.key.Some? {
      FindByKeyFinds(st.store.rows, st.store.order, q.key.value);
    }
  }

  /** A new row as requested, at a status, with nothing else set, and the two events that led there. */
  predicate Inserts(s: Store, s': Store, q: Request, id: TaskId, now: int, kind: EventKind, status: Status) {
    && id in s'.rows && s'.rows == s.rows[id := s'.rows[id]] && s'.order == s.order + [id]
    && (var first := if InFuture(q.scheduledAt, now) then Scheduled else Pending;
        s'.log == s.log + [Event(id, TaskSubmitted, None, first)] + [Event(id, kind, Some(first), status)])
    && (var row := s'.rows[id];
        && AsRequested(q, row) && row.status == status && row.attempts == 0
        && row.workerId == None && row.result == None && row.error == None
        && row.startedAt == None && row.finishedAt == None)
  }

  /**
   * A submission that is not turned away inserts a row as requested. When the push is accepted and the task is due
   * it is
   * QUEUED and its id enters the delivery order at its priority. A future one is pushed into the ZSET with its due time
   * as score, and it and one whose push is refused end in ENQUEUE_FAILED.
   */
  lemma SubmissionInserts(c: Config, s: Store, q: Request, id: TaskId, now: int, later: int, up: bool)
    requires id !in s.rows
    ensures var (s', answer) := SubmitTask(c, s, q, id, now, later, up);
      && (answer.Accepted? ==>
            && answer.id == id && up && !InFuture(q.scheduledAt, later)
            && Inserts(s, s', q, id, now, TaskEnqueued, Queued) && Enters(s.redis, s'.redis, id, q.priority))
      && (answer.EnqueueFailure? ==>
            && answer.id == id && (up ==> InFuture(q.scheduledAt, later))
            && Inserts(s, s', q, id, now, TaskEnqueueFailed, EnqueueFailed)
            && s'.redis == if up then s.redis.(scheduled := s.redis.scheduled[id := q.scheduledAt.value]) else s.redis)
  {
    PushEnters(Commit(s, id, NewRow(q, now), TaskSubmitted, None), id, q.priority);
  }

  /** In any run, a task's row keeps its request's columns. */
  lemma {:induction false} RequestIsKept(st: State, steps: seq<Step>, id: TaskId)
    requires GoodAt(ANY, st, id) && id in st.store.rows && ValidRun(st, steps, ANY)
    ensures var rows := Run(st, steps, ANY).store.rows; id in rows && SameRequest(rows[id], st.store.rows[id])
    decreases |steps|
  {
    if steps != [] {
      GoodAtNext(ANY, st, steps[0], id);
      StepEffect(st, steps[0], id);
      if Focus(st, steps[0]) == Some(id) {
        StepKeepsRequest(st.config, st.now, id, ViewOf(st, id), steps[0]);
      }
      assert FactsOf(Next(st, steps[0]).store, id).row.Some?;
      RequestIsKept(Next(st, steps[0]), steps[1..], id);
    }
  }

  lemma ServiceKeepsRequest(c: Config, now: int, id: TaskId, v: View, step: Step)
    requires v.f.row.Some? && LocalEnabled(v, id, step)
    requires step.Repair? || step.Replay? || step.Cancel? || step.ReleaseOne?
    ensures var row' := LocalNext(c, now, id, v, step).f.row; row'.Some? && SameRequest(row'.value, v.f.row.value)
  {}

  lemma StepKeepsRequest(c: Config, now: int, id: TaskId, v: View, step: Step)
    requires Basic(v, id) && v.f.row.Some? && LocalEnabled(v, id, step)
    ensures var row' := LocalNext(c, now, id, v, step).f.row; row'.Some? && SameRequest(row'.value, v.f.row.value)
  {
    if step.Repair? || step.Replay? || step.Cancel? || step.ReleaseOne? {
      ServiceKeepsRequest(c, now, id, v, step);
    } else if step.Finish? {
      assert CopyOk(v.hands[step.slot], id, v.f.row.value);
    }
  }

  lemma SubmittedRow(st: State, q: Request, id: TaskId, wait: nat, up: bool)
    requires id !in st.store.rows && id in Next(st, Submit(q, id, wait, up)).store.rows
    ensures AsRequested(q, Next(st, Submit(q, id, wait, up)).store.rows[id])
  {
    SubmissionInserts(st.config, st.store, q, id, st.now, st.now + wait, up);
  }

  /** What was submitted is what every later state of the task's row holds. */
  lemma RowIsAsRequested(st: State, q: Request, id: TaskId, wait: nat, up: bool, steps: seq<Step>)
    requires Reachable(ANY, st) && id !in st.store.rows
    requires id in Next(st, Submit(q, id, wait, up)).store.rows
    requires ValidRun(Next(st, Submit(q, id, wait, up)), steps, ANY)
    ensures var rows := Run(Next(st, Submit(q, id, wait, up)), steps, ANY).store.rows;
      id in rows && AsRequested(q, rows[id])
  {
    ReachableAt(ANY, st, id);
    GoodAtNext(ANY, st, Submit(q, id, wait, up), id);
    SubmittedRow(st, q, id, wait, up);
    RequestIsKept(Next(st, Submit(q, id, wait, up)), steps, id);
  }

  // ---------------------------------------------------------------- enqueue repair

  /** A repair makes a failed row SCHEDULED with its due time in the ZSET, or QUEUED and entered at its priority. */
  lemma RepairResult(s: Store, id: TaskId, now: int, up: bool)
    ensures var (s', ok) := RepairTask(s, id, now, up);
      && (ok <==> up && id in s.rows && s.rows[id].status == EnqueueFailed)
      && (!ok ==> s' == s)
      && (ok ==>
            var row := s.rows[id];
            if InFuture(row.scheduledAt, now)
            then && Rewrites(s, s', id, row.(status := Scheduled), TaskEnqueued, EnqueueFailed)
                 && s'.redis == s.redis.(scheduled := s.redis.scheduled[id := row.scheduledAt.value])
            else && Rewrites(s, s', id, row.(status := Queued), TaskEnqueued, EnqueueFailed)
                 && Enters(s.redis, s'.redis, id, row.priority))
  {
    if id in s.rows {
      PushEnters(s, id, s.rows[id].priority);
    }
  }

  // ---------------------------------------------------------------- replay and cancel

  /**
   * The answer to a replay, in any reachable state: Done exactly when a dead letter becomes a fresh first attempt,
   * entered at its priority; otherwise nothing changes, and the answer tells which guard failed.
   */
  lemma ReplayResult(st: State, id: TaskId, up: bool)
    requires Reachable(ANY, st)
    ensures var s := st.store; var (s', answer) := ReplayTask(s, id, up);
      && (answer == NotFound <==> id !in s.rows)
      && (answer == InvalidState <==> id in s.rows && s.rows[id].status != DeadLetter)
      && (answer == RedisRaised <==> id in s.rows && s.rows[id].status == DeadLetter && !up)
      && (answer == Done <==> id in s.rows && s'.log == s.log + [Event(id, TaskRetried, Some(DeadLetter), Queued)])
      && (answer != Done ==> s' == s)
      && (answer == Done ==>
            var again := s.rows[id].(status := Queued, attempts := 0, error := None, workerId := None,
              startedAt := None, finishedAt := None);
            Rewrites(s, s', id, again, TaskRetried, DeadLetter) && Enters(s.redis, s'.redis, id, s.rows[id].priority))
  {
    ReachableAt(ANY, st, id);
    if id in st.store.rows {
      PushEnters(st.store, id, st.store.rows[id].priority);
    }
  }

  predicate Finished(status: Status) {
    status == Completed || status == Cancelled || status == DeadLetter
  }

  /** The row becomes CANCELLED in this call, and one cancellation is logged. */
  predicate CancelsNow(s: Store, s': Store, id: TaskId, now: int) {
    && id in s.rows && s.rows[id].status != Cancelled
    && Rewrites(s, s', id, s.rows[id].(status := Cancelled, finishedAt := Some(now)), TaskCancelled, s.rows[id].status)
  }

  /**
   * The answer to a cancellation, in any reachable state: Done exactly when the row becomes CANCELLED in this call with
   * one event logged, InvalidTransition exactly when an unfinished task is marked, both Redis calls accepted, with row
   * and log left alone, which happens to ENQUEUE_FAILED tasks and no others.
   */
  lemma CancelAnswer(st: State, id: TaskId, now: int, markUp: bool, removeUp: bool)
    requires Reachable(ANY, st)
    ensures var s := st.store; var (s', answer) := CancelTask(s, id, now, markUp, removeUp);
      var open := id in s.rows && !Finished(s.rows[id].status);
      var accepted := markUp && (id in s.rows && s.rows[id].status == Scheduled ==> removeUp);
      && (answer == NotFound <==> id !in s.rows)
      && (answer == InvalidState <==> id in s.rows && !open)
      && (answer == RedisRaised <==> open && !accepted)
      && (answer == Done <==> CancelsNow(s, s', id, now))
      && (answer == InvalidTransition <==> open && accepted && id in s'.redis.cancelled && SameTables(s, s'))
      && (answer == InvalidTransition <==> id in s.rows && s.rows[id].status == EnqueueFailed && markUp)
  {
    ReachableAt(ANY, st, id);
  }

  /**
   * What a cancellation does to Redis: a mark, and out of the ZSET for a SCHEDULED task; nothing when it is refused
   * early.
   */
  lemma CancelMarks(s: Store, id: TaskId, now: int, markUp: bool, removeUp: bool)
    ensures var (s', answer) := CancelTask(s, id, now, markUp, removeUp);
      && (answer == NotFound || answer == InvalidState || !markUp ==> s' == s)
      && (answer == Done || answer == InvalidTransition || (answer == RedisRaised && markUp) ==>
            s'.redis == s.redis.(cancelled := s.redis.cancelled + {id},
              scheduled := if answer != RedisRaised && s.rows[id].status == Scheduled then s.redis.scheduled - {id}
                           else s.redis.scheduled))
      && (answer == RedisRaised ==> SameTables(s, s'))
  {}

  // ---------------------------------------------------------------- release

  /** One shipped release iteration delivers a SCHEDULED task at its priority, raises with its push, or skips. */
  lemma ReleaseResult(c: Config, s: Store, id: TaskId, up: bool)
    requires !c.redelivers
    ensures var (s', answer) := ReleaseTask(c, s, id, up);
      && (answer == Delivered <==> up && id in s.rows && s.rows[id].status == Scheduled)
      && (answer == Raised <==> !up && id in s.rows && s.rows[id].status == Scheduled)
      && (answer != Delivered ==> s' == s)
      && (answer == Delivered ==>
            && Rewrites(s, s', id, s.rows[id].(status := Queued), TaskScheduledRelease, Scheduled)
            && Enters(s.redis, s'.redis, id, s.rows[id].priority))
  {
    if id in s.rows {
      PushEnters(s, id, s.rows[id].priority);
    }
  }

  // ---------------------------------------------------------------- worker start

  /**
   * A start of a queued task that is not marked writes RUNNING with worker and start time, and then the key, which
   * outlives the timeout by a minute; the run is on when both are done.
   */
  lemma StartRuns(s: Store, id: TaskId, worker: string, now: int, writeUp: bool)
    requires id in s.rows && s.rows[id].status == Queued && id !in s.redis.cancelled
    ensures var (s', answer) := StartTask(s, id, worker, now, true, writeUp);
      var running := s.rows[id].(status := Running, workerId := Some(worker), startedAt := Some(now));
      && Rewrites(s, s', id, running, TaskStarted, Queued)
      && answer == (if writeUp then Launched(running) else StartRaised)
      && s'.redis == (if writeUp
                      then s.redis.(inflight := s.redis.inflight[id := now + s.rows[id].timeoutSeconds + 60])
                      else s.redis)
  {}

  /** A start of a marked queued task cancels it and clears the mark; one that cannot begin changes nothing. */
  lemma StartDeclines(s: Store, id: TaskId, worker: string, now: int, checkUp: bool, writeUp: bool)
    requires id in s.rows && s.rows[id].status == Queued && checkUp ==> id in s.redis.cancelled
    ensures var (s', answer) := StartTask(s, id, worker, now, checkUp, writeUp);
      if id in s.rows && s.rows[id].status == Queued && checkUp
      then && answer == CancelledAtStart
           && Rewrites(s, s', id, s.rows[id].(status := Cancelled, finishedAt := Some(now)), TaskCancelled, Queued)
           && s'.redis == (if writeUp then s.redis.(cancelled := s.redis.cancelled - {id}) else s.redis)
      else && s' == s
           && answer == if id in s.rows && s.rows[id].status == Queued then StartRaised else NotQueued
  {}

  // ---------------------------------------------------------------- worker finish

  function Without(inflight: map<TaskId, int>, id: TaskId, cleared: bool): map<TaskId, int> {
    if cleared then inflight - {id} else inflight
  }

  /** A success stores the handler's own result, with every other column from the worker's copy. */
  lemma SuccessIsStored(st: State, slot: Slot, x: string, pushUp: bool, clearUp: bool)
    requires Reachable(ANY, st) && slot in st.workers && st.workers[slot].Executing?
    ensures var s, s', w := st.store, Next(st, Finish(slot, Succeeded(x), pushUp, clearUp)).store, st.workers[slot];
      && Rewrites(s, s', w.id,
           w.copy.(status := Completed, result := Some(x), error := None, finishedAt := Some(st.now)),
           TaskCompleted, Running)
      && s'.redis == s.redis.(inflight := Without(s.redis.inflight, w.id, clearUp))
  {
    CopyOfRequest(st, slot);
  }

  /**
   * A failure with attempts left puts the task off: its ZSET score is the present time plus the delay that the
   * policy of
   * the stored row gives for the attempt that failed.
   */
  lemma FailureIsPutOff(st: State, slot: Slot, error: string, clearUp: bool)
    requires Reachable(ANY, st) && slot in st.workers && st.workers[slot].Executing?
    requires st.workers[slot].copy.attempts + 1 < st.workers[slot].copy.maxRetries
    ensures var s, s', w := st.store, Next(st, Finish(slot, Errored(error), true, clearUp)).store, st.workers[slot];
      && w.id in s.rows
      && Rewrites(s, s', w.id, w.copy.(status := Queued, attempts := w.copy.attempts + 1, error := Some(error)),
           TaskRetryScheduled, Running)
      && s'.redis == s.redis.(inflight := Without(s.redis.inflight, w.id, clearUp),
           scheduled := s.redis.scheduled[w.id :=
             st.now + s.rows[w.id].backoff.DelayForAttempt(w.copy.attempts + 1)])
  {
    CopyOfRequest(st, slot);
  }

  /** A failure without attempts left dead-letters the task. */
  lemma FailureIsBuried(st: State, slot: Slot, error: string, clearUp: bool)
    requires Reachable(ANY, st) && slot in st.workers && st.workers[slot].Executing?
    requires st.workers[slot].copy.attempts + 1 >= st.workers[slot].copy.maxRetries
    ensures var s, s', w := st.store, Next(st, Finish(slot, Errored(error), true, clearUp)).store, st.workers[slot];
      && Rewrites(s, s', w.id,
           w.copy.(status := DeadLetter, attempts := w.copy.attempts + 1, error := Some(error),
             finishedAt := Some(st.now)),
           TaskDeadLetter, Running)
      && s'.redis == s.redis.(inflight := Without(s.redis.inflight, w.id, clearUp), dlq := [w.id] + s.redis.dlq)
  {
    CopyOfRequest(st, slot);
  }

  /** A failure whose push raises saves nothing; the key is cleared all the same. */
  lemma FailureIsLost(st: State, slot: Slot, error: string, clearUp: bool)
    requires slot in st.workers && st.workers[slot].Executing?
    ensures var s, s', id := st.store, Next(st, Finish(slot, Errored(error), false, clearUp)).store,
        st.workers[slot].id;
      SameTables(s, s') && s'.redis == s.redis.(inflight := Without(s.redis.inflight, id, clearUp))
  {}

  // ---------------------------------------------------------------- timeouts

  /** RUNNING for more than its timeout and thirty seconds. */
  predicate TooLong(s: Store, id: TaskId, now: int) {
    && id in s.rows && s.rows[id].status == Running
    && s.rows[id].startedAt.Some? && s.rows[id].startedAt.value + s.rows[id].timeoutSeconds + 30 < now
  }

  /**
   * A sweep clears the key of a task that is not RUNNING, leaves a run that has not taken too long, and raises with the
   * first Redis call that does. Only of a run that took too long is anything saved.
   */
  lemma SweepAnswer(s: Store, id: TaskId, now: int, pushUp: bool, clearUp: bool)
    ensures var (s', answer) := SweepTask(s, id, now, pushUp, clearUp);
      var running := id in s.rows && s.rows[id].status == Running;
      && (answer == Cleared <==> !running && clearUp)
      && (answer == Waiting <==> running && !TooLong(s, id, now))
      && (answer == Requeued <==> TooLong(s, id, now) && pushUp && clearUp)
      && (!TooLong(s, id, now) ==>
            s' == if running then s else s.(redis := s.redis.(inflight := Without(s.redis.inflight, id, clearUp))))
      && (TooLong(s, id, now) && !pushUp ==> s' == s)
  {}

  /** A run that took too long, with attempts left, is put off by its own policy, its worker and start time cleared. */
  lemma TimeoutIsPutOff(s: Store, id: TaskId, now: int, clearUp: bool)
    requires TooLong(s, id, now) && s.rows[id].attempts + 1 < s.rows[id].maxRetries
    ensures var s', r := SweepTask(s, id, now, true, clearUp).0, s.rows[id];
      && Rewrites(s, s', id, r.(status := Queued, attempts := r.attempts + 1, workerId := None, startedAt := None),
           TaskRequeuedTimeout, Running)
      && s'.redis == s.redis.(inflight := Without(s.redis.inflight, id, clearUp),
           scheduled := s.redis.scheduled[id := now + r.backoff.DelayForAttempt(r.attempts + 1)])
  {}

  /** One without attempts left is dead-lettered. */
  lemma TimeoutIsBuried(s: Store, id: TaskId, now: int, clearUp: bool)
    requires TooLong(s, id, now) && s.rows[id].attempts + 1 >= s.rows[id].maxRetries
    ensures var s', r := SweepTask(s, id, now, true, clearUp).0, s.rows[id];
      && Rewrites(s, s', id,
           r.(status := DeadLetter, attempts := r.attempts + 1, workerId := None, startedAt := None,
             finishedAt := Some(now)),
           TaskDeadLetter, Running)
      && s'.redis == s.redis.(inflight := Without(s.redis.inflight, id, clearUp), dlq := [id] + s.redis.dlq)
  {}

  // ---------------------------------------------------------------- claim and dequeue

  /** A claim takes one due id out of the ZSET into the scheduler's hands. */
  lemma ClaimResult(st: State, id: TaskId)
    requires id in st.store.redis.scheduled && 0 <= st.store.redis.scheduled[id] <= st.now
    ensures Enabled(st, Claim(id))
    ensures var next := Next(st, Claim(id));
      && SameTables(st.store, next.store) && next.claimed == st.claimed + {id}
      && next.store.redis == st.store.redis.(scheduled := st.store.redis.scheduled - {id})
  {}

  /** A dequeue hands the head of the delivery order to a worker. */
  lemma DequeueResult(st: State, slot: Slot)
    requires slot !in st.workers && Order(st.store.redis.ready) != []
    ensures Enabled(st, Step.Dequeue(slot))
    ensures var order, next := Order(st.store.redis.ready), Next(st, Step.Dequeue(slot));
      && next.workers == st.workers[slot := Held(order[0].item)] && Order(next.store.redis.ready) == order[1..]
      && SameTables(st.store, next.store)
      && next.store.redis == st.store.redis.(ready := next.store.redis.ready)
  {
    PopIsHead(st.store.redis.ready);
  }

  // ---------------------------------------------------------------- whole calls

  /** `n` events of the given kinds are logged on top. */
  predicate Logs(before: seq<Event>, after: seq<Event>, n: nat, kinds: set<EventKind>) {
    && |after| == |before| + n && before <= after
    && forall i :: |before| <= i < |after| ==> after[i].kind in kinds
  }

  lemma LogsOn(a: seq<Event>, b: seq<Event>, c: seq<Event>, m: nat, n: nat, kinds: set<EventKind>)
    requires Logs(a, b, m, kinds) && Logs(b, c, n, kinds)
    ensures Logs(a, c, m + n, kinds)
  {
    assert forall i :: 0 <= i < |b| ==> c[i] == b[i];
  }

  predicate IsScheduled(s: Store, id: TaskId) {
    id in s.rows && s.rows[id].status == Scheduled
  }

  predicate Different(ids: seq<TaskId>) {
    forall i, j :: 0 <= i < j < |ids| ==> ids[i] != ids[j]
  }

  /** The scheduled tasks among the first k are QUEUED, and all other rows as they were. */
  predicate ReleasedUpTo(s: Store, s': Store, ids: seq<TaskId>, k: nat)
    requires k <= |ids|
  {
    && s'.rows.Keys == s.rows.Keys
    && forall id :: id in s.rows ==>
         s'.rows[id] == if id in ids[..k] && IsScheduled(s, id) then s.rows[id].(status := Queued) else s.rows[id]
  }

  lemma ReleasedFirst(s: Store, s1: Store, s2: Store, ids: seq<TaskId>, k: nat)
    requires 0 < k <= |ids| && Different(ids) && ReleasedUpTo(s, s1, ids, 1) && ReleasedUpTo(s1, s2, ids[1..], k - 1)
    ensures ReleasedUpTo(s, s2, ids, k)
  {
    FirstOf(ids, k);
    FirstOf(ids, 1);
    assert ids[0] !in ids[1..][..k - 1];
  }

  /**
   * The shipped release loop comes as far as the first scheduled task whose push is refused, at `k`, where it
   * raises, or
   * to the end; up to there it has released what was scheduled, and the count is what was logged.
   */
  predicate ReleaseLoop(s: Store, s': Store, loop: Loop, ids: seq<TaskId>, up: set<TaskId>, k: nat) {
    && k <= |ids| && (loop.Aborted? <==> k < |ids|)
    && (forall i :: 0 <= i < k && IsScheduled(s, ids[i]) ==> ids[i] in up)
    && (k < |ids| ==> IsScheduled(s, ids[k]) && ids[k] !in up)
    && ReleasedUpTo(s, s', ids, k)
    && (loop.Counted? ==> Logs(s.log, s'.log, loop.count, {TaskScheduledRelease}))
  }

  lemma ReleaseLoopOn(s: Store, s1: Store, s2: Store, loop: Loop, ids: seq<TaskId>, up: set<TaskId>, k: nat, n: nat)
    requires ids != [] && Different(ids) && ReleaseLoop(s1, s2, loop, ids[1..], up, k)
    requires IsScheduled(s, ids[0]) ==> ids[0] in up
    requires ReleasedUpTo(s, s1, ids, 1) && Logs(s.log, s1.log, n, {TaskScheduledRelease})
    ensures ReleaseLoop(s, s2, Plus(n, loop), ids, up, k + 1)
  {
    ReleasedFirst(s, s1, s2, ids, k + 1);
    FirstOf(ids, 1);
    assert forall i :: 0 < i < |ids| ==> ids[i] == ids[1..][i - 1] && ids[i] != ids[0];
    assert forall i :: 0 < i < |ids| ==> IsScheduled(s1, ids[i]) == IsScheduled(s, ids[i]);
    if loop.Counted? {
      LogsOn(s.log, s1.log, s2.log, n, loop.count, {TaskScheduledRelease});
    }
  }

  lemma ReleasedOne(c: Config, s: Store, ids: seq<TaskId>, up: bool)
    requires !c.redelivers && ids != []
    ensures var (s', answer) := ReleaseTask(c, s, ids[0], up);
      && (answer == Raised ==> ReleasedUpTo(s, s', ids, 0) && s' == s && IsScheduled(s, ids[0]) && !up)
      && (answer != Raised ==>
            && ReleasedUpTo(s, s', ids, 1) && (IsScheduled(s, ids[0]) ==> up)
            && Logs(s.log, s'.log, if answer == Delivered then 1 else 0, {TaskScheduledRelease}))
  {
    ReleaseResult(c, s, ids[0], up);
    FirstOf(ids, 1);
  }

  lemma {:induction false} ReleaseLoopResult(c: Config, s: Store, ids: seq<TaskId>, up: set<TaskId>) returns (k: nat)
    requires !c.redelivers && Different(ids)
    ensures var (s', loop) := ReleaseAll(c, s, ids, up); ReleaseLoop(s, s', loop, ids, up, k)
    decreases |ids|
  {
    k := 0;
    if ids != [] {
      var (s1, answer) := ReleaseTask(c, s, ids[0], ids[0] in up);
      ReleasedOne(c, s, ids, ids[0] in up);
      if answer != Raised {
        var k1 := ReleaseLoopResult(c, s1, ids[1..], up);
        var (s2, loop) := ReleaseAll(c, s1, ids[1..], up);
        ReleaseLoopOn(s, s1, s2, loop, ids, up, k1, if answer == Delivered then 1 else 0);
        k := k1 + 1;
      }
    }
  }

  lemma FirstOf(ids: seq<TaskId>, k: nat)
    requires 0 < k <= |ids|
    ensures ids[..k] == [ids[0]] + ids[1..][..k - 1]
    ensures forall id :: id in ids[..k] <==> id == ids[0] || id in ids[1..][..k - 1]
  {}

  /** The row of a run that took too long, found so at `now`. */
  function TimedOut(r: Row, now: int): Row {
    if r.attempts + 1 < r.maxRetries
    then r.(status := Queued, attempts := r.attempts + 1, workerId := None, startedAt := None)
    else r.(status := DeadLetter, attempts := r.attempts + 1, workerId := None, startedAt := None,
        finishedAt := Some(now))
  }

  /** Some Redis call that a sweep of the task makes is refused. */
  predicate SweepFails(s: Store, id: TaskId, now: int, pushUp: set<TaskId>, clearUp: set<TaskId>) {
    if id in s.rows && s.rows[id].status == Running
    then TooLong(s, id, now) && (id !in pushUp || id !in clearUp)
    else id !in clearUp
  }

  lemma SweptRow(s: Store, id: TaskId, now: int, pushUp: set<TaskId>, clearUp: set<TaskId>)
    ensures var (s', answer) := SweepTask(s, id, now, id in pushUp, id in clearUp);
      && (answer == SweepRaised <==> SweepFails(s, id, now, pushUp, clearUp))
      && (answer != SweepRaised ==> (answer == Requeued <==> TooLong(s, id, now) && id in pushUp))
      && s'.rows == (if TooLong(s, id, now) && id in pushUp then s.rows[id := TimedOut(s.rows[id], now)] else s.rows)
      && Logs(s.log, s'.log, if TooLong(s, id, now) && id in pushUp then 1
          else 0, {TaskRequeuedTimeout, TaskDeadLetter})
  {
    SweepAnswer(s, id, now, id in pushUp, id in clearUp);
    if TooLong(s, id, now) && id in pushUp {
      if s.rows[id].attempts + 1 < s.rows[id].maxRetries {
        TimeoutIsPutOff(s, id, now, id in clearUp);
      } else {
        TimeoutIsBuried(s, id, now, id in clearUp);
      }
    }
  }

  /** The runs among the first k that took too long are timed out; all other rows but the one at k are as they were. */
  predicate TimedOutUpTo(s: Store, s': Store, ids: seq<TaskId>, clock: Clock, k: nat)
    requires k <= |ids|
  {
    && s'.rows.Keys == s.rows.Keys
    && forall id :: id in s.rows && (k < |ids| ==> id != ids[k]) ==>
         s'.rows[id] == if id in ids[..k] && TooLong(s, id, clock(id)) then TimedOut(s.rows[id], clock(id))
             else s.rows[id]
  }

  lemma TimedOutFirst(s: Store, s1: Store, s2: Store, ids: seq<TaskId>, clock: Clock, k: nat)
    requires 0 < k <= |ids| && Different(ids) && TimedOutUpTo(s1, s2, ids[1..], clock, k - 1)
    requires s1.rows == if TooLong(s, ids[0], clock(ids[0]))
                        then s.rows[ids[0] := TimedOut(s.rows[ids[0]], clock(ids[0]))] else s.rows
    ensures TimedOutUpTo(s, s2, ids, clock, k)
  {
    FirstOf(ids, k);
    assert ids[0] !in ids[1..][..k - 1];
    assert k < |ids| ==> ids[k] == ids[1..][k - 1];
    assert forall id :: id != ids[0] ==> TooLong(s1, id, clock(id)) == TooLong(s, id, clock(id));
  }

  /**
   * The sweep loop comes as far as the first task a Redis call for which is refused, at `k`, where it raises, or to the
   * end; up to there it has timed out what took too long, and the count is what was logged.
   */
  predicate SweepLoop(s: Store, s': Store, loop: Loop, ids: seq<TaskId>, clock: Clock, pushUp: set<TaskId>,
      clearUp: set<TaskId>, k: nat) {
    && k <= |ids| && (loop.Aborted? <==> k < |ids|)
    && (forall i :: 0 <= i < k ==> !SweepFails(s, ids[i], clock(ids[i]), pushUp, clearUp))
    && (k < |ids| ==> SweepFails(s, ids[k], clock(ids[k]), pushUp, clearUp))
    && TimedOutUpTo(s, s', ids, clock, k)
    && (loop.Counted? ==> Logs(s.log, s'.log, loop.count, {TaskRequeuedTimeout, TaskDeadLetter}))
  }

  lemma SweepLoopOn(s: Store, s1: Store, s2: Store, loop: Loop, ids: seq<TaskId>, clock: Clock, pushUp: set<TaskId>,
      clearUp: set<TaskId>, k: nat, n: nat)
    requires ids != [] && Different(ids) && SweepLoop(s1, s2, loop, ids[1..], clock, pushUp, clearUp, k)
    requires !SweepFails(s, ids[0], clock(ids[0]), pushUp, clearUp)
    requires s1.rows == if TooLong(s, ids[0], clock(ids[0]))
                        then s.rows[ids[0] := TimedOut(s.rows[ids[0]], clock(ids[0]))] else s.rows
    requires Logs(s.log, s1.log, n, {TaskRequeuedTimeout, TaskDeadLetter})
    ensures SweepLoop(s, s2, Plus(n, loop), ids, clock, pushUp, clearUp, k + 1)
  {
    TimedOutFirst(s, s1, s2, ids, clock, k + 1);
    assert forall i :: 0 < i < |ids| ==> ids[i] == ids[1..][i - 1] && ids[i] != ids[0];
    assert forall j {:trigger SweepFails(s1, j, clock(j), pushUp, clearUp)} :: j != ids[0] ==>
      (SweepFails(s1, j, clock(j), pushUp, clearUp) <==> SweepFails(s, j, clock(j), pushUp, clearUp));
    if loop.Counted? {
      LogsOn(s.log, s1.log, s2.log, n, loop.count, {TaskRequeuedTimeout, TaskDeadLetter});
    }
  }

  lemma {:induction false} SweepLoopResult(s: Store, ids: seq<TaskId>, clock: Clock, pushUp: set<TaskId>,
      clearUp: set<TaskId>) returns (k: nat)
    requires Different(ids)
    ensures var (s', loop) := SweepAll(s, ids, clock, pushUp, clearUp);
      SweepLoop(s, s', loop, ids, clock, pushUp, clearUp, k)
    decreases |ids|
  {
    k := 0;
    if ids != [] {
      var id, at := ids[0], clock(ids[0]);
      var (s1, answer) := SweepTask(s, id, at, id in pushUp, id in clearUp);
      SweptRow(s, id, at, pushUp, clearUp);
      if answer != SweepRaised {
        var k1 := SweepLoopResult(s1, ids[1..], clock, pushUp, clearUp);
        var (s2, loop) := SweepAll(s1, ids[1..], clock, pushUp, clearUp);
        SweepLoopOn(s, s1, s2, loop, ids, clock, pushUp, clearUp, k1, if answer == Requeued then 1 else 0);
        k := k1 + 1;
      }
    }
  }

  /**
   * The repair loop goes on past a push that is refused: every failed task it was given whose push is accepted is
   * enqueued, all other rows are as they were, and the count is what was logged.
   */
  lemma {:induction false} RepairLoopResult(s: Store, ids: seq<TaskId>, clock: Clock, up: set<TaskId>)
    requires Different(ids)
    ensures var (s', count) := RepairAll(s, ids, clock, up);
      && Logs(s.log, s'.log, count, {TaskEnqueued}) && s'.rows.Keys == s.rows.Keys
      && (forall id :: id in s.rows ==>
            s'.rows[id] == if id in ids && id in up && s.rows[id].status == EnqueueFailed
                           then s.rows[id].(status :=
                             if InFuture(s.rows[id].scheduledAt, clock(id)) then Scheduled else Queued)
                           else s.rows[id])
    decreases |ids|
  {
    if ids != [] {
      var id, at := ids[0], clock(ids[0]);
      var (s1, ok) := RepairTask(s, id, at, id in up);
      RepairResult(s, id, at, id in up);
      var rest := ids[1..];
      RepairLoopResult(s1, rest, clock, up);
      FirstOf(ids, |ids|);
      assert ids[..|ids|] == ids && rest[..|ids| - 1] == rest && id !in rest;
      var (s2, count) := RepairAll(s1, rest, clock, up);
      LogsOn(s.log, s1.log, s2.log, if ok then 1 else 0, count, {TaskEnqueued});
    }
  }
}
