/**
 * Runs whose worker died: exactly when the reconciler recovers them, and why it never touches a run
 * whose worker reports in time.
 */
module Orphans {
  import opened Prelude
  import opened Domain
  import opened ScheduledSet
  import opened Protocol
  import opened Machine
  import opened Views
  import opened Local
  import opened Delivery
  import opened Audit
  import opened Reachability
  import opened Keys
  import opened Calls

  // ---------------------------------------------------------------- live workers are spared

  /** Every live run of the task ends, or is still within, 30 seconds after its own timeout. */
  ghost predicate Prompt(st: State, id: TaskId) {
    forall slot :: slot in st.workers && st.workers[slot].id == id && st.workers[slot].Executing? ==>
      var r := st.workers[slot].copy;
      r.startedAt.Some? ==> st.now - r.startedAt.value <= r.timeoutSeconds + 30
  }

  ghost predicate PromptRun(st: State, steps: seq<Step>, id: TaskId)
    requires ValidRun(st, steps, ANY)
    decreases |steps|
  {
    Prompt(st, id) && (steps == [] || PromptRun(Next(st, steps[0]), steps[1..], id))
  }

  lemma PromptStep(st: State, step: Step, id: TaskId)
    requires GoodAt(SparesLive(id), st, id) && Prompt(st, id) && Enabled(st, step)
    ensures Obeys(st, step, SparesLive(id))
  {
    if step.SweepOne? && step.id == id && id in st.store.rows && Live(st, id) {
      var slot :| slot in st.workers && st.workers[slot].id == id && st.workers[slot].Executing?;
      assert slot in ViewOf(st, id).hands && HoldOk(ViewOf(st, id).hands[slot], st.store.rows[id]);
    }
  }

  lemma {:induction false} PromptRunSpares(st: State, steps: seq<Step>, id: TaskId)
    requires GoodAt(SparesLive(id), st, id) && ValidRun(st, steps, ANY) && PromptRun(st, steps, id)
    ensures ValidRun(st, steps, SparesLive(id))
    decreases |steps|
  {
    if steps != [] {
      PromptStep(st, steps[0], id);
      GoodAtNext(SparesLive(id), st, steps[0], id);
      PromptRunSpares(Next(st, steps[0]), steps[1..], id);
    }
  }

  /**
   * When every worker of a task reports within 30 seconds after its timeout, the reconciler never times out a live
   * run of it: any run at all then spares the task's live workers.
   */
  lemma PromptWorkersAreSpared(c: Config, levels: nat, steps: seq<Step>, id: TaskId)
    requires 0 < levels && ValidRun(Init(c, levels), steps, ANY) && PromptRun(Init(c, levels), steps, id)
    ensures ValidRun(Init(c, levels), steps, SparesLive(id))
  {
    InitInv(SparesLive(id), c, levels);
    assert GoodAt(SparesLive(id), Init(c, levels), id);
    PromptRunSpares(Init(c, levels), steps, id);
  }

  // ---------------------------------------------------------------- dead runs

  /** RUNNING with no worker behind it, and with an inflight key that expires at `expiry`, or with none. */
  predicate Orphan(st: State, id: TaskId, r: Row, expiry: Option<int>) {
    && OrphanIn(st.store, id, r, expiry)
    && HandsOf(st.workers, id) == map[]
  }

  predicate OrphanIn(s: Store, id: TaskId, r: Row, expiry: Option<int>) {
    && id in s.rows && s.rows[id] == r
    && r.status == Running && r.startedAt.Some?
    && Copies(s.redis.ready, id) == 0
    && KeyOf(s, id) == expiry
  }

  /** The reconciler's enumeration at `now` meets the key. */
  predicate Seen(expiry: Option<int>, now: int) {
    expiry.Some? && now < expiry.value
  }

  /** When the reconciler begins to see the run as overdue. */
  function Deadline(r: Row): int
    requires r.startedAt.Some?
  {
    r.startedAt.value + r.timeoutSeconds + 30
  }

  predicate EndsRun(e: Event) {
    e.from == Some(Running) && (e.kind == TaskRequeuedTimeout || e.kind == TaskDeadLetter || e.kind == TaskCancelled)
  }

  /** The first event logged after `trail` ended the run. */
  predicate ResolvedSince(trail: seq<Event>, now: seq<Event>) {
    |trail| < |now| && trail <= now && EndsRun(now[|trail|])
  }

  /** The step, taken by itself, cancels the run or times it out. */
  predicate EndsByStep(st: State, step: Step, id: TaskId, r: Row) {
    match step
    case Cancel(j, markUp, _) => j == id && markUp
    case SweepOne(j, pushUp, _) => j == id && pushUp && Overdue(r, st.now)
    case _ => false
  }

  lemma OrphanInNoHand(st: State, step: Step, id: TaskId, r: Row, expiry: Option<int>)
    requires Enabled(st, step) && Orphan(st, id, r, expiry) && Focus(st, step) == Some(id)
    ensures !step.Submit? && !step.Start? && !step.Finish? && !step.Crash? && !step.Dequeue?
  {
    assert forall slot :: slot in st.workers && st.workers[slot].id == id ==> slot in HandsOf(st.workers, id);
    StepEffect(st, step, id);
  }

  lemma OwnKeyStays(st: State, step: Step, id: TaskId, r: Row, expiry: Option<int>)
    requires Enabled(st, step) && Orphan(st, id, r, expiry) && Focus(st, step) == Some(id)
    requires !EndsByStep(st, step, id, r)
    ensures Next(st, step).store.redis.inflight == st.store.redis.inflight
  {
    OrphanInNoHand(st, step, id, r, expiry);
    match step
    case SweepOne(j, pushUp, clearUp) => SweepKeys(st.store, j, st.now, pushUp, clearUp);
    case _ => ServiceKeepsKey(st, step, id);
  }

  /** On a dead run's view, a step does nothing to the run unless it ends it. */
  lemma OrphanViewStep(st: State, id: TaskId, v: View, step: Step)
    requires v.f.row.Some? && v.f.row.value.status == Running && Unpointed(v) && LocalEnabled(v, id, step)
    requires step.Cancel? || step.SweepOne? ==> step.id == id
    ensures var f' := LocalNext(st.config, st.now, id, v, step).f;
      if EndsByStep(st, step, id, v.f.row.value) then ResolvedSince(v.f.trail, f'.trail)
      else f'.row == v.f.row && f'.trail == v.f.trail && f'.waiting == 0
  {}

  /** One step ends the run, or leaves it as it is. */
  lemma OrphanStep(st: State, step: Step, id: TaskId, r: Row, expiry: Option<int>)
    requires Enabled(st, step) && Orphan(st, id, r, expiry)
    ensures var trail, next := Trail(st.store.log, id), Next(st, step);
      if EndsByStep(st, step, id, r) then ResolvedSince(trail, Trail(next.store.log, id))
      else Orphan(next, id, r, expiry) && Trail(next.store.log, id) == trail
  {
    StepEffect(st, step, id);
    if Focus(st, step) != Some(id) {
      KeyFrame(st, step, id);
    } else {
      OrphanInNoHand(st, step, id, r, expiry);
      OrphanViewStep(st, id, ViewOf(st, id), step);
      if !EndsByStep(st, step, id, r) {
        OwnKeyStays(st, step, id, r, expiry);
      }
    }
  }

  // ---------------------------------------------------------------- a reconcile call

  lemma SweptOrphan(s: Store, j: TaskId, now: int, id: TaskId, r: Row, expiry: Option<int>)
    requires OrphanIn(s, id, r, expiry)
    ensures var s', trail := SweepTask(s, j, now, true, true).0, Trail(s.log, id);
      if j == id && Overdue(r, now) then ResolvedSince(trail, Trail(s'.log, id))
      else OrphanIn(s', id, r, expiry) && Trail(s'.log, id) == trail
  {
    if j in s.rows {
      SweepEffect(s, j, now, true, true, id);
    }
    SweepKeys(s, j, now, true, true);
  }

  lemma SweepExtendsTrail(s: Store, j: TaskId, now: int, pushUp: bool, clearUp: bool, id: TaskId)
    ensures Trail(s.log, id) <= Trail(SweepTask(s, j, now, pushUp, clearUp).0.log, id)
  {
    if j in s.rows {
      SweepEffect(s, j, now, pushUp, clearUp, id);
      assert FactsOf(s, id).trail <= FactsOf(SweepTask(s, j, now, pushUp, clearUp).0, id).trail;
    }
  }

  lemma {:induction false} SweepsExtendTrail(s: Store, ids: seq<TaskId>, clock: Clock, up: set<TaskId>, id: TaskId)
    ensures Trail(s.log, id) <= Trail(SweepAll(s, ids, clock, up, up).0.log, id)
    decreases |ids|
  {
    if ids != [] {
      var (s1, sweep) := SweepTask(s, ids[0], clock(ids[0]), ids[0] in up, ids[0] in up);
      SweepExtendsTrail(s, ids[0], clock(ids[0]), ids[0] in up, ids[0] in up, id);
      if sweep != SweepRaised {
        SweepsExtendTrail(s1, ids[1..], clock, up, id);
      }
    }
  }

  /** An accepted call ends the run exactly when it enumerated its key and reads the clock for it after the deadline. */
  lemma {:induction false} OrphanSweeps(s: Store, ids: seq<TaskId>, clock: Clock, up: set<TaskId>, id: TaskId,
      r: Row, expiry: Option<int>)
    requires OrphanIn(s, id, r, expiry) && Members(ids) <= up
    ensures var s', trail := SweepAll(s, ids, clock, up, up).0, Trail(s.log, id);
      if id in ids && Overdue(r, clock(id)) then ResolvedSince(trail, Trail(s'.log, id))
      else OrphanIn(s', id, r, expiry) && Trail(s'.log, id) == trail
    decreases |ids|
  {
    if ids != [] {
      var rest := ids[1..];
      assert [ids[0]] + rest == ids;
      MembersOfCons(ids[0], rest);
      var s1 := SweepTask(s, ids[0], clock(ids[0]), true, true).0;
      SweptOrphan(s, ids[0], clock(ids[0]), id, r, expiry);
      if ids[0] == id && Overdue(r, clock(id)) {
        SweepsExtendTrail(s1, rest, clock, up, id);
      } else {
        OrphanSweeps(s1, rest, clock, up, id, r, expiry);
      }
    }
  }

  // ---------------------------------------------------------------- histories with whole reconcile calls

  /**
   * Any step, or a whole reconcile call that Redis accepts: it enumerates every unexpired key, then reads `clock` for
   * each.
   */
  datatype Beat = Do(step: Step) | Round(ids: seq<TaskId>, clock: Clock)

  ghost predicate Possible(st: State, beat: Beat) {
    match beat
    case Do(step) => Enabled(st, step)
    case Round(ids, clock) => Members(ids) == InflightIds(st.store, st.now) && Rising(st.now, ids, clock)
  }

  ghost function After(st: State, beat: Beat): State
    requires Possible(st, beat)
  {
    match beat
    case Do(step) => Next(st, step)
    case Round(ids, clock) =>
      ReconcileCall(st, ids, clock, Members(ids), Members(ids));
      Run(st, SweepSteps(st.store, ids, st.now, clock, Members(ids), Members(ids)), ANY)
  }

  ghost predicate Played(st: State, beats: seq<Beat>)
    decreases |beats|
  {
    |beats| == 0 || (Possible(st, beats[0]) && Played(After(st, beats[0]), beats[1..]))
  }

  ghost function Final(st: State, beats: seq<Beat>): State
    requires Played(st, beats)
    decreases |beats|
  {
    if |beats| == 0 then st else Final(After(st, beats[0]), beats[1..])
  }

  /** The beat ends the run: a step of its own, or a call that begins before the key expires and meets it overdue. */
  ghost predicate Ends(st: State, beat: Beat, id: TaskId, r: Row, expiry: Option<int>) {
    match beat
    case Do(step) => EndsByStep(st, step, id, r)
    case Round(_, clock) => Seen(expiry, st.now) && Overdue(r, clock(id))
  }

  ghost predicate EndsIn(st: State, beats: seq<Beat>, id: TaskId, r: Row, expiry: Option<int>)
    requires Played(st, beats)
    decreases |beats|
  {
    |beats| > 0 && (Ends(st, beats[0], id, r, expiry) || EndsIn(After(st, beats[0]), beats[1..], id, r, expiry))
  }

  lemma OrphanBeat(st: State, beat: Beat, id: TaskId, r: Row, expiry: Option<int>)
    requires Possible(st, beat) && Orphan(st, id, r, expiry)
    ensures var trail, next := Trail(st.store.log, id), After(st, beat);
      if Ends(st, beat, id, r, expiry) then ResolvedSince(trail, Trail(next.store.log, id))
      else Orphan(next, id, r, expiry) && Trail(next.store.log, id) == trail
  {
    match beat
    case Do(step) => OrphanStep(st, step, id, r, expiry);
    case Round(ids, clock) =>
      ReconcileCall(st, ids, clock, Members(ids), Members(ids));
      OrphanSweeps(st.store, ids, clock, Members(ids), id, r, expiry);
      assert id in ids <==> id in Members(ids);
  }

  lemma ResolvedStays(st: State, beat: Beat, id: TaskId, trail: seq<Event>)
    requires Possible(st, beat) && ResolvedSince(trail, Trail(st.store.log, id))
    ensures ResolvedSince(trail, Trail(After(st, beat).store.log, id))
  {
    match beat
    case Do(step) =>
      StepEffect(st, step, id);
      if Focus(st, step) == Some(id) {
        TrailOnlyGrows(st.config, st.now, id, ViewOf(st, id), step);
      }
    case Round(ids, clock) =>
      ReconcileCall(st, ids, clock, Members(ids), Members(ids));
      SweepsExtendTrail(st.store, ids, clock, Members(ids), id);
  }

  lemma {:induction false} ResolvedToTheEnd(st: State, beats: seq<Beat>, id: TaskId, trail: seq<Event>)
    requires Played(st, beats) && ResolvedSince(trail, Trail(st.store.log, id))
    ensures ResolvedSince(trail, Trail(Final(st, beats).store.log, id))
    decreases |beats|
  {
    if |beats| > 0 {
      ResolvedStays(st, beats[0], id, trail);
      ResolvedToTheEnd(After(st, beats[0]), beats[1..], id, trail);
    }
  }

  /**
   * Recovery, exactly. In any history a dead run is over, and what ended it is the first thing logged after, if and
   * only if it is cancelled or swept by itself or some reconcile call begins before its inflight key expires and reads
   * the clock for it after timeout + 30; otherwise it is still there as it was.
   */
  lemma {:induction false} OrphanIsResolvedIff(st: State, beats: seq<Beat>, id: TaskId, r: Row, expiry: Option<int>)
    requires Orphan(st, id, r, expiry) && Played(st, beats)
    ensures var end := Final(st, beats);
      && (ResolvedSince(Trail(st.store.log, id), Trail(end.store.log, id)) <==> EndsIn(st, beats, id, r, expiry))
      && (!EndsIn(st, beats, id, r, expiry) ==>
            Orphan(end, id, r, expiry) && Trail(end.store.log, id) == Trail(st.store.log, id))
    decreases |beats|
  {
    if |beats| > 0 {
      OrphanBeat(st, beats[0], id, r, expiry);
      if Ends(st, beats[0], id, r, expiry) {
        ResolvedToTheEnd(After(st, beats[0]), beats[1..], id, Trail(st.store.log, id));
      } else {
        OrphanIsResolvedIff(After(st, beats[0]), beats[1..], id, r, expiry);
      }
    }
  }

  // ---------------------------------------------------------------- calls close together

  /** When a call last read the clock for the task. */
  ghost function LastReading(beat: Beat, id: TaskId, last: int): int {
    if beat.Round? && id in beat.ids then beat.clock(id) else last
  }

  /** The clock never gets 30 seconds past the last reading for the task, not even for the next. */
  ghost predicate Timely(st: State, beats: seq<Beat>, id: TaskId, last: int)
    requires Played(st, beats)
    decreases |beats|
  {
    st.now - last < 30 &&
    (|beats| > 0 ==>
      && LastReading(beats[0], id, last) - last < 30
      && Timely(After(st, beats[0]), beats[1..], id, LastReading(beats[0], id, last)))
  }

  lemma {:induction false} WindowIsHit(st: State, beats: seq<Beat>, id: TaskId, r: Row, expiry: Option<int>, last: int)
    requires Orphan(st, id, r, expiry) && Seen(expiry, Deadline(r) + 29) && last <= Deadline(r)
    requires Played(st, beats) && Timely(st, beats, id, last)
    requires Final(st, beats).now >= Deadline(r) + 30
    ensures EndsIn(st, beats, id, r, expiry)
    decreases |beats|
  {
    if |beats| > 0 && !Ends(st, beats[0], id, r, expiry) {
      OrphanBeat(st, beats[0], id, r, expiry);
      WindowIsHit(After(st, beats[0]), beats[1..], id, r, expiry, LastReading(beats[0], id, last));
    }
  }

  /**
   * Orphan recovery: while accepted reconcile calls come less than 30 seconds apart, a dead worker's run with the key
   * its start set is over before that key expires, and what ended it is the first thing logged for the task.
   */
  lemma OrphanIsResolvedInWindow(st: State, beats: seq<Beat>, id: TaskId, r: Row, last: int)
    requires r.startedAt.Some? && Orphan(st, id, r, Some(KeyExpiry(r))) && last <= Deadline(r)
    requires Played(st, beats) && Timely(st, beats, id, last)
    ensures var end := Final(st, beats);
      end.now >= KeyExpiry(r) ==> ResolvedSince(Trail(st.store.log, id), Trail(end.store.log, id))
  {
    if Final(st, beats).now >= KeyExpiry(r) {
      WindowIsHit(st, beats, id, r, Some(KeyExpiry(r)), last);
      OrphanIsResolvedIff(st, beats, id, r, Some(KeyExpiry(r)));
    }
  }

  // ---------------------------------------------------------------- calls too late

  /** Nobody sweeps or cancels the task by itself. */
  predicate LeavesAlone(beats: seq<Beat>, id: TaskId) {
    forall i :: 0 <= i < |beats| && beats[i].Do? ==>
      !(beats[i].step.SweepOne? && beats[i].step.id == id) && !(beats[i].step.Cancel? && beats[i].step.id == id)
  }

  lemma ClockRises(st: State, beat: Beat)
    requires Possible(st, beat)
    ensures After(st, beat).now >= st.now
  {
    if beat.Round? {
      ReconcileCall(st, beat.ids, beat.clock, Members(beat.ids), Members(beat.ids));
    }
  }

  lemma {:induction false} WindowIsMissed(st: State, beats: seq<Beat>, id: TaskId, r: Row, expiry: Option<int>)
    requires !Seen(expiry, st.now) && Played(st, beats) && LeavesAlone(beats, id)
    ensures !EndsIn(st, beats, id, r, expiry)
    decreases |beats|
  {
    if |beats| > 0 {
      ClockRises(st, beats[0]);
      assert LeavesAlone(beats[1..], id);
      WindowIsMissed(After(st, beats[0]), beats[1..], id, r, expiry);
    }
  }

  /**
   * Without a key, or once its key has expired, a dead run is out of the reconciler's sight: however often it is
   * called, the task stays RUNNING until somebody cancels it.
   */
  lemma ExpiredOrphanIsStuck(st: State, beats: seq<Beat>, id: TaskId, r: Row, expiry: Option<int>)
    requires Orphan(st, id, r, expiry) && !Seen(expiry, st.now)
    requires Played(st, beats) && LeavesAlone(beats, id)
    ensures var end := Final(st, beats); id in end.store.rows && end.store.rows[id] == r && r.status == Running
  {
    WindowIsMissed(st, beats, id, r, expiry);
    OrphanIsResolvedIff(st, beats, id, r, expiry);
  }

  // ---------------------------------------------------------------- from a crash to a dead run

  /** At most one failure per start: a run is never resolved twice. */
  lemma RunsResolvedAtMostOnce(st: State, id: TaskId)
    requires Reachable(RowExclusive(id), st) && id in st.store.rows
    ensures var t := Trail(st.store.log, id);
      Failures(t) <= Count(t, TaskStarted) <= Failures(t) + 1
  {
    ReachableAt(RowExclusive(id), st, id);
  }

  /** A worker lets go of its run and writes nothing. */
  predicate DropsRun(st: State, slot: Slot, step: Step)
    requires slot in st.workers
  {
    match step
    case Crash(s, _) => s == slot && st.workers[slot].Executing?
    case Finish(s, outcome, pushUp, _) => s == slot && st.workers[slot].Executing? && outcome.Errored? && !pushUp
    case _ => false
  }

  /** The inflight key is cleared on the way out. */
  predicate ClearsKey(step: Step) {
    (step.Crash? && step.cleanup) || (step.Finish? && step.clearUp)
  }

  lemma DroppedStore(st: State, slot: Slot, step: Step)
    requires slot in st.workers && DropsRun(st, slot, step)
    ensures var s, id, next := st.store, st.workers[slot].id, Next(st, step);
      && next.store == (if ClearsKey(step) then ClearInflight(s, id) else s) && next.workers == st.workers - {slot}
  {}

  /**
   * A worker that dies in mid-run, or whose failure handling raises at its push, leaves a dead run, unless the task was
   * cancelled under it. The key is the one its start set, or there is none if it was cleared on the way out.
   */
  lemma DroppedRunIsOrphan(st: State, slot: Slot, step: Step)
    requires slot in st.workers && Reachable(SparesLive(st.workers[slot].id), st) && DropsRun(st, slot, step)
    ensures var id, copy := st.workers[slot].id, st.workers[slot].copy;
      && id in st.store.rows && copy.startedAt.Some?
      && (st.store.rows[id].status == Cancelled
          || Orphan(Next(st, step), id, copy, if ClearsKey(step) then None else Some(KeyExpiry(copy))))
  {
    var id, v := st.workers[slot].id, ViewOf(st, st.workers[slot].id);
    CopyIsRow(st, slot);
    LiveRunHasKey(st, id);
    ReachableAt(SparesLive(id), st, id);
    assert slot in v.hands;
    OneHand(v.hands, slot);
    DroppedStore(st, slot, step);
    HandsAfterDrop(st.workers, slot);
    if st.store.rows[id].status != Cancelled {
      assert Runs(st, id, slot);
    }
  }

  lemma HandsAfterDrop(workers: map<Slot, Worker>, slot: Slot)
    requires slot in workers && HandsOf(workers, workers[slot].id) - {slot} == map[]
    ensures HandsOf(workers - {slot}, workers[slot].id) == map[]
  {
    var id := workers[slot].id;
    assert HandsOf(workers - {slot}, id) == HandsOf(workers, id) - {slot};
  }

  /** A start whose key write raises leaves a dead run, with whatever key the task had before. */
  lemma UnmarkedStartIsOrphan(st: State, slot: Slot, worker: string)
    requires slot in st.workers && st.workers[slot].Held? && Reachable(SparesLive(st.workers[slot].id), st)
    requires st.workers[slot].id in st.store.rows && st.store.rows[st.workers[slot].id].status == Queued
    requires st.workers[slot].id !in st.store.redis.cancelled
    ensures var id := st.workers[slot].id;
      Orphan(Next(st, Start(slot, worker, true, false)), id, StartedRow(st.store.rows[id], worker, st.now),
        KeyOf(st.store, id))
  {
    var id, v := st.workers[slot].id, ViewOf(st, st.workers[slot].id);
    ReachableAt(SparesLive(id), st, id);
    assert slot in v.hands;
    OneHand(v.hands, slot);
    StepEffect(st, Start(slot, worker, true, false), id);
    HandsAfterDrop(st.workers, slot);
  }
}
