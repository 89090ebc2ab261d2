/**
 * Cancel marks: when a mark is final, and exactly when a later start of the task can still be logged.
 */
module Marks {
  import opened Prelude
  import opened Domain
  import opened Protocol
  import opened Machine
  import opened Views
  import opened Local
  import opened Invariants
  import opened Delivery
  import opened Audit
  import opened Reachability

  /** Starts logged for the task so far. */
  function Starts(st: State, id: TaskId): nat {
    Count(Trail(st.store.log, id), TaskStarted)
  }

  // ---------------------------------------------------------------- steps that log no start

  lemma QuietWrite(f: Facts, id: TaskId, row: Row, kind: EventKind, from: Option<Status>)
    requires kind != TaskStarted
    ensures Count(Wrote(f, id, row, kind, from).trail, TaskStarted) == Count(f.trail, TaskStarted)
  {}

  /** No start logged, and no cancel mark cleared. */
  predicate Quiet(f: Facts, f': Facts) {
    f'.row.Some? && (f.marked ==> f'.marked) && Count(f'.trail, TaskStarted) == Count(f.trail, TaskStarted)
  }

  lemma QuietRepair(id: TaskId, f: Facts, r: Row, now: int, up: bool)
    requires f.row == Some(r)
    ensures Quiet(f, RepairFacts(id, f, r, now, up))
  {}

  lemma QuietReplay(id: TaskId, f: Facts, r: Row, up: bool)
    requires f.row == Some(r)
    ensures Quiet(f, ReplayFacts(id, f, r, up))
  {}

  lemma QuietCancel(id: TaskId, f: Facts, r: Row, now: int, markUp: bool, removeUp: bool)
    requires f.row == Some(r)
    ensures Quiet(f, CancelFacts(id, f, r, now, markUp, removeUp))
  {}

  lemma QuietRelease(c: Config, id: TaskId, f: Facts, r: Row, up: bool)
    requires f.row == Some(r)
    ensures Quiet(f, ReleaseFacts(c, id, f, r, up))
  {}

  lemma QuietResolve(id: TaskId, f: Facts, r: Row, kind: EventKind, pushUp: bool)
    requires f.row.Some? && IsRetry(kind)
    ensures Quiet(f, ResolveFacts(id, f, r, kind, pushUp))
  {}

  lemma QuietFinish(id: TaskId, f: Facts, copy: Row, outcome: Outcome, now: int, pushUp: bool)
    requires f.row.Some?
    ensures Quiet(f, FinishFacts(id, f, copy, outcome, now, pushUp))
  {}

  /** Apart from a worker's start, no step logs a start, and none clears a cancel mark. */
  lemma OnlyStartStarts(c: Config, now: int, id: TaskId, v: View, step: Step)
    requires v.f.row.Some? && LocalEnabled(v, id, step) && !step.Start?
    ensures Quiet(v.f, LocalNext(c, now, id, v, step).f)
  {
    var r := v.f.row.value;
    match step
    case Repair(_, up) => QuietRepair(id, v.f, r, now, up);
    case Replay(_, up) => QuietReplay(id, v.f, r, up);
    case Cancel(_, markUp, removeUp) => QuietCancel(id, v.f, r, now, markUp, removeUp);
    case ReleaseOne(_, up) => QuietRelease(c, id, v.f, r, up);
    case SweepOne(_, pushUp, _) => QuietResolve(id, v.f, TimedOutRow(r, now), TaskRequeuedTimeout, pushUp);
    case Finish(slot, outcome, pushUp, _) => QuietFinish(id, v.f, v.hands[slot].copy, outcome, now, pushUp);
    case _ =>
  }

  // ---------------------------------------------------------------- marks with no stale run about

  /** Marked or cancelled, with no run in progress. */
  predicate Doomed(v: View) {
    v.f.row.Some? && !LiveView(v) && (v.f.marked || v.f.row.value.status == Cancelled)
  }

  /** Marked and cancelled under the only worker that has the task, with no other pointer to it. */
  predicate Overtaken(v: View) {
    v.f.row.Some? && v.f.row.value.status == Cancelled && v.f.marked && v.f.waiting + |v.hands| <= 1
  }

  lemma DoomedStart(id: TaskId, v: View, slot: Slot, worker: string, now: int, checkUp: bool, writeUp: bool)
    requires v.f.row.Some? && slot in v.hands && v.hands[slot] == Held(id)
    requires v.f.row.value.status == Queued ==> v.f.marked
    ensures var v' := StartView(v, id, slot, worker, now, checkUp, writeUp);
      && v'.hands == v.hands - {slot} && Count(v'.f.trail, TaskStarted) == Count(v.f.trail, TaskStarted)
      && (v'.f == v.f || (v.f.row.value.status == Queued && v'.f.row.Some? && v'.f.row.value.status == Cancelled
                          && v'.f.waiting == v.f.waiting && v'.f.marked == !writeUp))
  {
    QuietWrite(v.f, id, CancelledRow(v.f.row.value, now), TaskCancelled, Some(Queued));
  }

  lemma FewerLive(v: View, slot: Slot)
    ensures LiveView(v.(hands := v.hands - {slot})) ==> LiveView(v)
  {
    var v' := v.(hands := v.hands - {slot});
    if LiveView(v') {
      var other :| other in v'.hands && v'.hands[other].Executing?;
      assert other in v.hands && v.hands[other].Executing?;
    }
  }

  lemma DoomedStep(c: Config, now: int, id: TaskId, v: View, step: Step)
    requires Basic(v, id) && Doomed(v) && LocalEnabled(v, id, step)
    ensures var v' := LocalNext(c, now, id, v, step);
      Doomed(v') && Count(v'.f.trail, TaskStarted) == Count(v.f.trail, TaskStarted)
  {
    var v' := LocalNext(c, now, id, v, step);
    if step.Start? {
      DoomedStart(id, v, step.slot, step.worker, now, step.checkUp, step.writeUp);
      FewerLive(v, step.slot);
    } else {
      OnlyStartStarts(c, now, id, v, step);
      if step.Dequeue? {
        assert forall slot :: slot in v'.hands && v'.hands[slot].Executing? ==>
            slot in v.hands && v.hands[slot].Executing?;
      } else if step.Crash? {
        FewerLive(v, step.slot);
      } else {
        assert v'.hands == v.hands;
      }
    }
  }

  lemma OvertakenStep(c: Config, now: int, id: TaskId, v: View, step: Step)
    requires Basic(v, id) && Overtaken(v) && LocalEnabled(v, id, step)
    ensures var v' := LocalNext(c, now, id, v, step);
      && (Overtaken(v') || Doomed(v')) && Count(v'.f.trail, TaskStarted) == Count(v.f.trail, TaskStarted)
  {
    if step.Start? || step.Finish? || step.Crash? {
      OneHand(v.hands, step.slot);
    }
    if step.Start? {
      DoomedStart(id, v, step.slot, step.worker, now, step.checkUp, step.writeUp);
    } else {
      OnlyStartStarts(c, now, id, v, step);
    }
  }

  lemma {:induction false} DoomedRun(st: State, steps: seq<Step>, id: TaskId)
    requires Inv(ANY, st) && ValidRun(st, steps, ANY)
    requires Doomed(ViewOf(st, id)) || Overtaken(ViewOf(st, id))
    ensures Starts(Run(st, steps, ANY), id) == Starts(st, id)
    decreases |steps|
  {
    if steps != [] {
      var v := ViewOf(st, id);
      NextInv(ANY, st, steps[0]);
      assert GoodAt(ANY, st, id);
      StepEffect(st, steps[0], id);
      if Focus(st, steps[0]) == Some(id) {
        if Doomed(v) {
          DoomedStep(st.config, st.now, id, v, steps[0]);
        } else {
          OvertakenStep(st.config, st.now, id, v, steps[0]);
        }
      }
      assert Starts(Next(st, steps[0]), id) == Starts(st, id);
      DoomedRun(Next(st, steps[0]), steps[1..], id);
    }
  }

  /**
   * In any run whatever, once the id of a task that no live worker runs is in the cancel set, no later start of it is
   * ever logged, even when `cancel` itself was refused.
   */
  lemma MarkWithoutLiveRunIsFinal(st: State, steps: seq<Step>, id: TaskId)
    requires Reachable(ANY, st) && id in st.store.rows && id in st.store.redis.cancelled && !Live(st, id)
    requires ValidRun(st, steps, ANY)
    ensures Starts(Run(st, steps, ANY), id) == Starts(st, id)
  {
    ReachableInv(ANY, st);
    LiveIsLiveView(st, id);
    DoomedRun(st, steps, id);
  }

  /**
   * A cancel mark is final, even when it reached the task in mid-run: if no live run of the task was timed out before
   * the mark, no start of it is ever logged after, whatever is timed out or replayed from then on.
   */
  lemma CancelMarkIsFinal(st: State, steps: seq<Step>, id: TaskId)
    requires Reachable(SparesLive(id), st) && id in st.store.rows && id in st.store.redis.cancelled
    requires ValidRun(st, steps, ANY)
    ensures Starts(Run(st, steps, ANY), id) == Starts(st, id)
  {
    StricterReachesLess(st, SparesLive(id), ANY);
    ReachableInv(ANY, st);
    ReachableAt(SparesLive(id), st, id);
    var v := ViewOf(st, id);
    if LiveView(v) {
      var slot :| slot in v.hands && v.hands[slot].Executing?;
      assert HoldOk(v.hands[slot], v.f.row.value);
    }
    DoomedRun(st, steps, id);
  }
}
