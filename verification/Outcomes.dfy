/** What follows from the invariants across steps: stranded tasks, retries, and the limits of the disciplines. */
module Outcomes {
  import opened Prelude
  import opened Domain
  import opened ScheduledSet
  import opened Protocol
  import opened Machine
  import opened Views
  import opened Local
  import opened Invariants
  import opened Delivery
  import opened Audit
  import opened Reachability

  // ---------------------------------------------------------------- tasks without a pointer

  /** Queued, with no pointer anywhere and no run that could still write the row. */
  predicate Stranded(v: View) {
    v.f.row.Some? && v.f.row.value.status == Queued && Unpointed(v) && !v.f.zset && !v.claimed
  }

  /** A stranded task stays exactly as it is until somebody cancels it; then it is finished for good. */
  lemma StrandedStep(c: Config, now: int, id: TaskId, v: View, step: Step)
    requires Basic(v, id) && Stranded(v) && LocalEnabled(v, id, step)
    ensures var v' := LocalNext(c, now, id, v, step);
      || (Stranded(v') && v'.f.row == v.f.row && v'.f.trail == v.f.trail)
      || (step.Cancel? && v'.f.row.Some? && v'.f.row.value.status == Cancelled && Unpointed(v'))
  {}

  lemma {:induction false} StrandedRun(st: State, steps: seq<Step>, id: TaskId)
    requires Inv(ANY, st) && Stranded(ViewOf(st, id)) && ValidRun(st, steps, ANY)
    requires forall i :: 0 <= i < |steps| ==> !(steps[i].Cancel? && steps[i].id == id)
    ensures var v, v' := ViewOf(st, id), ViewOf(Run(st, steps, ANY), id);
      Stranded(v') && v'.f.row == v.f.row && v'.f.trail == v.f.trail
    decreases |steps|
  {
    if steps != [] {
      NextInv(ANY, st, steps[0]);
      assert GoodAt(ANY, st, id);
      StepEffect(st, steps[0], id);
      if Focus(st, steps[0]) == Some(id) {
        StrandedStep(st.config, st.now, id, ViewOf(st, id), steps[0]);
      }
      StrandedRun(Next(st, steps[0]), steps[1..], id);
    }
  }

  /** In any run, a queued task without a pointer or a live run leaves QUEUED only by a cancellation. */
  lemma StrandedUntilCancelled(st: State, steps: seq<Step>, id: TaskId)
    requires Reachable(ANY, st) && id in st.store.rows && st.store.rows[id].status == Queued
    requires Copies(st.store.redis.ready, id) == 0 && (forall slot :: slot in st.workers ==> st.workers[slot].id != id)
    requires id !in st.store.redis.scheduled && id !in st.claimed
    requires ValidRun(st, steps, ANY)
    requires forall i :: 0 <= i < |steps| ==> !(steps[i].Cancel? && steps[i].id == id)
    ensures var st' := Run(st, steps, ANY);
      && id in st'.store.rows && st'.store.rows[id] == st.store.rows[id]
      && Trail(st'.store.log, id) == Trail(st.store.log, id)
  {
    ReachableInv(ANY, st);
    assert HandsOf(st.workers, id) == map[];
    StrandedRun(st, steps, id);
  }

  // ---------------------------------------------------------------- retries

  /**
   * The promise of a retry, met or not: once the ZSET entry of a retried task is due, claiming and releasing it
   * delivers the task exactly when the release step is the repaired one. As shipped it strands the task instead.
   */
  lemma RetryIsDeliveredIff(st: State, id: TaskId)
    requires Reachable(SparesLive(id), st) && id in st.store.rows && AwaitsRetry(st.store.rows[id])
    requires id in DueIds(st.store.redis.scheduled, st.now)
    ensures var st' := Next(Next(st, Claim(id)), ReleaseOne(id, true));
      && (Copies(st'.store.redis.ready, id) == 1 <==> st.config.redelivers)
      && (Stranded(ViewOf(st', id)) <==> !st.config.redelivers)
  {
    ReachableAt(SparesLive(id), st, id);
    var mid := Next(st, Claim(id));
    StepEffect(st, Claim(id), id);
    StepEffect(mid, ReleaseOne(id, true), id);
  }

  // ---------------------------------------------------------------- submissions for the future

  /**
   * A new task is accepted exactly when the push is and its due time, if any, has come by then. One that is still in
   * the future is pushed into the ZSET, refused by the transition table, and left in ENQUEUE_FAILED.
   */
  lemma SubmissionAcceptedIff(c: Config, s: Store, q: Request, id: TaskId, now: nat, wait: nat, up: bool)
    requires id !in s.rows && q.payloadSize <= c.maxPayloadBytes
    requires q.key.Some? ==> FindByKey(s.rows, s.order, q.key.value).None?
    ensures var (s', result) := SubmitTask(c, s, q, id, now, now + wait, up);
      && id in s'.rows
      && (result == Accepted(id) <==> up && !IsFuture(q.scheduledAt, now + wait))
      && (result == EnqueueFailure(id) <==> !up || IsFuture(q.scheduledAt, now + wait))
      && s'.rows[id].status == (if result == Accepted(id) then Queued else EnqueueFailed)
      && (Copies(s'.redis.ready, id) == Copies(s.redis.ready, id) + if result == Accepted(id) then 1 else 0)
      && s'.redis.scheduled == if up && IsFuture(q.scheduledAt, now + wait)
                               then s.redis.scheduled[id := q.scheduledAt.value] else s.redis.scheduled
  {
    EnqueueReadyFacts(Commit(s, id, NewRow(q, now), TaskSubmitted, None), id, q.priority, id);
  }

  // ---------------------------------------------------------------- where the disciplines are needed

  lemma CancelThenComplete(id: TaskId, f: Facts, copy: Row, now: int, result: string, pushUp: bool)
    requires f.row.Some? && f.row.value.status == Running
    requires ReplayLog(f.trail).Alive? && ReplayLog(f.trail).status == Running
    ensures var g := CancelFacts(id, f, f.row.value, now, true, true);
      ReplayLog(FinishFacts(id, g, copy, Succeeded(result), now, pushUp).trail) == Broken
  {}

  /** Cancelling a live run and letting it report success breaks the audit chain, every time. */
  lemma LiveCancelBreaksLog(st: State, slot: Slot, result: string, pushUp: bool, clearUp: bool)
    requires slot in st.workers && st.workers[slot].Executing? && Reachable(RowExclusive(st.workers[slot].id), st)
    requires st.workers[slot].id in st.store.rows
    ensures var mid := Next(st, Cancel(st.workers[slot].id, true, true));
      && Enabled(mid, Finish(slot, Succeeded(result), pushUp, clearUp))
      && ReplayLog(Trail(Next(mid, Finish(slot, Succeeded(result), pushUp, clearUp)).store.log,
          st.workers[slot].id)) == Broken
  {
    var id, copy := st.workers[slot].id, st.workers[slot].copy;
    var mid := Next(st, Cancel(id, true, true));
    ReachableAt(RowExclusive(id), st, id);
    LiveIsLiveView(st, id);
    StepEffect(st, Cancel(id, true, true), id);
    StepEffect(mid, Finish(slot, Succeeded(result), pushUp, clearUp), id);
    CancelThenComplete(id, ViewOf(st, id).f, copy, st.now, result, pushUp);
  }

  lemma TimedOutReplayed(id: TaskId, f: Facts, r: Row, now: int)
    requires f.row == Some(r) && Overdue(r, now) && r.attempts + 1 >= r.maxRetries
    ensures var g := SweepFacts(id, f, r, now, true);
      g.row.Some? && ReplayFacts(id, g, g.row.value, true).waiting == f.waiting + 1
  {}

  /**
   * Timing out a live run whose budget is spent and replaying the task puts a second pointer beside the live run:
   * the next worker to pop it runs the task a second time at once.
   */
  lemma LiveTimeoutDoublesPointers(st: State, id: TaskId, clearUp: bool)
    requires Reachable(SparesLive(id), st) && id in st.store.rows && Live(st, id)
    requires Overdue(st.store.rows[id], st.now) && st.store.rows[id].attempts + 1 >= st.store.rows[id].maxRetries
    ensures var st' := Next(Next(st, SweepOne(id, true, clearUp)), Replay(id, true));
      Live(st', id) && Copies(st'.store.redis.ready, id) + |HandsOf(st'.workers, id)| == 2
  {
    ReachableAt(SparesLive(id), st, id);
    LiveIsLiveView(st, id);
    var slot :| slot in ViewOf(st, id).hands && ViewOf(st, id).hands[slot].Executing?;
    OneHand(ViewOf(st, id).hands, slot);
    var mid := Next(st, SweepOne(id, true, clearUp));
    StepEffect(st, SweepOne(id, true, clearUp), id);
    StepEffect(mid, Replay(id, true), id);
    TimedOutReplayed(id, ViewOf(st, id).f, st.store.rows[id], st.now);
    assert slot in st.workers && st.workers[slot].id == id;
  }
}
