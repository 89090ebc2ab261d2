/**
 * Delivery pointers: at most one per task while live runs are spared by the reconciler,
 * and what becomes of a retried task.
 */
module Delivery {
  import opened Domain
  import opened Protocol
  import opened Machine
  import opened Views
  import opened Local
  import opened Invariants

  predicate Unpointed(v: View) {
    v.f.waiting == 0 && v.hands == map[]
  }

  /** A worker's hold on the task agrees with the row, unless the task was cancelled meanwhile. */
  predicate HoldOk(w: Worker, row: Row) {
    match w
    case Held(_) => row.status == Queued || row.status == Cancelled
    case Executing(_, copy) => (row.status == Running && row == copy) || row.status == Cancelled
  }

  predicate Pointers(c: Config, v: View) {
    && v.f.waiting + |v.hands| <= 1
    && match v.f.row
       case None => true
       case Some(row) =>
         && (v.f.waiting > 0 ==> row.status == Queued || row.status == Cancelled)
         && (forall slot :: slot in v.hands ==> HoldOk(v.hands[slot], row))
         && (AwaitsRetry(row) && (!c.redelivers || v.f.zset || v.claimed) ==> Unpointed(v))
  }

  lemma OneHand(hands: map<Slot, Worker>, slot: Slot)
    requires |hands| <= 1 && slot in hands
    ensures |hands| == 1 && hands - {slot} == map[] && forall other :: other in hands ==> other == slot
  {
    assert hands.Keys == {slot} by {
      if other :| other in hands && other != slot {
        assert {slot, other} <= hands.Keys;
        assert |{slot, other}| <= |hands.Keys| by { SetSize({slot, other}, hands.Keys); }
      }
    }
  }

  lemma SetSize(a: set<Slot>, b: set<Slot>)
    requires a <= b
    ensures |a| <= |b|
  {
    assert b == a + (b - a);
  }

  lemma PointersSubmit(c: Config, id: TaskId, v: View, q: Request, now: int, wait: nat, up: bool)
    requires Untouched(v)
    ensures Pointers(c, v.(f := SubmitFacts(id, v.f, q, now, now + wait, up)))
  {}

  lemma PointersServiceStep(c: Config, now: int, id: TaskId, v: View, step: Step)
    requires Basic(v, id) && Pointers(c, v) && v.f.row.Some? && (step.Repair? || step.Replay? || step.Cancel?)
    ensures Pointers(c, LocalNext(c, now, id, v, step))
  {
    var row := v.f.row.value;
    match step
    case Repair(_, _) => if row.status == EnqueueFailed { NoHands(v, row); }
    case Replay(_, _) => if row.status == DeadLetter { NoHands(v, row); }
    case Cancel(_, _, _) => assert LocalNext(c, now, id, v, step).hands == v.hands;
  }

  lemma NoHands(v: View, row: Row)
    requires forall slot :: slot in v.hands ==> HoldOk(v.hands[slot], row)
    requires row.status != Queued && row.status != Running && row.status != Cancelled
    ensures v.hands == map[]
  {}

  lemma PointersSchedulerStep(c: Config, now: int, id: TaskId, v: View, step: Step)
    requires Basic(v, id) && Pointers(c, v) && v.f.row.Some? && LocalEnabled(v, id, step)
    requires SweepSpares(v, step, now)
    requires step.SweepOne? || step.ReleaseOne? || step.Claim?
    ensures Pointers(c, LocalNext(c, now, id, v, step))
  {}

  lemma PointersDequeue(c: Config, id: TaskId, v: View, slot: Slot)
    requires Pointers(c, v) && slot !in v.hands && v.f.waiting > 0
    ensures Pointers(c, v.(f := v.f.(waiting := v.f.waiting - 1), hands := v.hands[slot := Held(id)]))
  {}

  lemma PointersStart(c: Config, id: TaskId, v: View, slot: Slot, worker: string, now: int, checkUp: bool,
      writeUp: bool)
    requires Basic(v, id) && Pointers(c, v) && v.f.row.Some? && slot in v.hands && v.hands[slot] == Held(id)
    ensures Pointers(c, StartView(v, id, slot, worker, now, checkUp, writeUp))
  {}

  lemma PointersFinish(c: Config, id: TaskId, v: View, slot: Slot, outcome: Outcome, now: int, pushUp: bool)
    requires Basic(v, id) && Pointers(c, v) && v.f.row.Some?
    requires slot in v.hands && v.hands[slot].Executing? && v.hands[slot].id == id
    ensures Pointers(c, v.(f := FinishFacts(id, v.f, v.hands[slot].copy, outcome, now, pushUp),
        hands := v.hands - {slot}))
  {}

  lemma PointersCrash(c: Config, v: View, slot: Slot)
    requires Pointers(c, v) && slot in v.hands
    ensures Pointers(c, v.(hands := v.hands - {slot}))
  {}

  lemma PointersStep(c: Config, now: int, id: TaskId, v: View, step: Step)
    requires Basic(v, id) && Pointers(c, v) && LocalEnabled(v, id, step) && SweepSpares(v, step, now)
    ensures Pointers(c, LocalNext(c, now, id, v, step))
  {
    match step
    case Submit(q, _, wait, up) => PointersSubmit(c, id, v, q, now, wait, up);
    case Repair(_, _) => if v.f.row.Some? { PointersServiceStep(c, now, id, v, step); }
    case Replay(_, _) => if v.f.row.Some? { PointersServiceStep(c, now, id, v, step); }
    case Cancel(_, _, _) => if v.f.row.Some? { PointersServiceStep(c, now, id, v, step); }
    case SweepOne(_, _, _) => if v.f.row.Some? { PointersSchedulerStep(c, now, id, v, step); }
    case ReleaseOne(_, _) => PointersSchedulerStep(c, now, id, v, step);
    case Claim(_) => PointersSchedulerStep(c, now, id, v, step);
    case Dequeue(slot) => PointersDequeue(c, id, v, slot);
    case Start(slot, worker, checkUp, writeUp) => PointersStart(c, id, v, slot, worker, now, checkUp, writeUp);
    case Finish(slot, outcome, pushUp, _) => PointersFinish(c, id, v, slot, outcome, now, pushUp);
    case Crash(slot, _) => PointersCrash(c, v, slot);
    case Tick(_) =>
  }

  // ---------------------------------------------------------------- retries under the shipped release step

  /** The retry at `i` is where the audit trail stops, but for one cancellation. */
  predicate StopsAt(v: View, i: nat)
    requires i < |v.f.trail| && v.f.row.Some?
  {
    || (i == |v.f.trail| - 1 && AwaitsRetry(v.f.row.value))
    || (i == |v.f.trail| - 2 && v.f.trail[i + 1].kind == TaskCancelled && v.f.row.value.status == Cancelled)
  }

  predicate DeadEnd(v: View) {
    forall i :: 0 <= i < |v.f.trail| && IsRetry(v.f.trail[i].kind) ==> v.f.row.Some? && Unpointed(v) && StopsAt(v, i)
  }

  lemma DeadEndSubmit(id: TaskId, v: View, q: Request, now: int, wait: nat, up: bool)
    requires Untouched(v)
    ensures DeadEnd(v.(f := SubmitFacts(id, v.f, q, now, now + wait, up)))
  {}

  lemma DeadEndService(c: Config, now: int, id: TaskId, v: View, step: Step)
    requires Basic(v, id) && DeadEnd(v) && (step.Repair? || step.Replay? || step.Cancel?)
    ensures DeadEnd(LocalNext(c, now, id, v, step))
  {
    var v' := LocalNext(c, now, id, v, step);
    assert v.f.trail <= v'.f.trail && |v'.f.trail| <= |v.f.trail| + 1;
  }

  lemma NoRetryYet(v: View)
    requires DeadEnd(v) && !Unpointed(v)
    ensures forall i :: 0 <= i < |v.f.trail| ==> !IsRetry(v.f.trail[i].kind)
  {}

  lemma DeadEndStart(id: TaskId, v: View, slot: Slot, worker: string, now: int, checkUp: bool, writeUp: bool)
    requires DeadEnd(v) && slot in v.hands
    ensures DeadEnd(StartView(v, id, slot, worker, now, checkUp, writeUp))
  {}

  lemma DeadEndFinish(c: Config, id: TaskId, v: View, slot: Slot, outcome: Outcome, now: int, pushUp: bool)
    requires Pointers(c, v) && DeadEnd(v) && v.f.row.Some? && slot in v.hands && v.hands[slot].Executing?
    ensures DeadEnd(v.(f := FinishFacts(id, v.f, v.hands[slot].copy, outcome, now, pushUp), hands := v.hands - {slot}))
  {
    NoRetryYet(v);
    OneHand(v.hands, slot);
  }

  lemma DeadEndStep(c: Config, now: int, id: TaskId, v: View, step: Step)
    requires Basic(v, id) && Pointers(c, v) && DeadEnd(v) && !c.redelivers
    requires LocalEnabled(v, id, step) && SweepSpares(v, step, now)
    ensures DeadEnd(LocalNext(c, now, id, v, step))
  {
    match step
    case Submit(q, _, wait, up) => DeadEndSubmit(id, v, q, now, wait, up);
    case Repair(_, _) => DeadEndService(c, now, id, v, step);
    case Replay(_, _) => DeadEndService(c, now, id, v, step);
    case Cancel(_, _, _) => DeadEndService(c, now, id, v, step);
    case SweepOne(_, _, _) => if v.f.row.Some? { DeadEndSweep(c, now, id, v, step); }
    case Dequeue(_) => NoRetryYet(v);
    case Start(slot, worker, checkUp, writeUp) => DeadEndStart(id, v, slot, worker, now, checkUp, writeUp);
    case Finish(slot, outcome, pushUp, _) => DeadEndFinish(c, id, v, slot, outcome, now, pushUp);
    case Crash(_, _) => NoRetryYet(v);
    case ReleaseOne(_, _) =>
    case Claim(_) =>
    case Tick(_) =>
  }

  lemma DeadEndSweep(c: Config, now: int, id: TaskId, v: View, step: Step)
    requires Basic(v, id) && Pointers(c, v) && DeadEnd(v) && v.f.row.Some? && step.SweepOne?
    requires SweepSpares(v, step, now)
    ensures DeadEnd(LocalNext(c, now, id, v, step))
  {}
}
