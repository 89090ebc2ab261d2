/** Invariants of the one-task automaton, each with the discipline on runs it needs. */
module Invariants {
  import opened Prelude
  import opened Domain
  import opened Backoff
  import opened Protocol
  import opened Machine
  import opened Views
  import opened Local

  // ---------------------------------------------------------------- every run: rows and copies

  predicate RowOk(r: Row) {
    var m := Budget(r.maxRetries);
    && r.status != Failed && r.status != Pending
    && r.attempts <= m
    && (r.status == Queued || r.status == Running ==> r.attempts < m)
    && (r.status == DeadLetter ==> r.attempts == m)
    && (r.status == Scheduled || r.status == EnqueueFailed ==> r.attempts == 0)
    && (r.finishedAt.Some? <==> r.status == Completed || r.status == Cancelled || r.status == DeadLetter)
    && (r.result.Some? <==> r.status == Completed)
    && (r.status == Running ==> r.workerId.Some? && r.startedAt.Some?)
  }

  /** What no service ever changes in a row. */
  predicate SameRequest(a: Row, b: Row) {
    && a.priority == b.priority && a.maxRetries == b.maxRetries && a.scheduledAt == b.scheduledAt
    && a.timeoutSeconds == b.timeoutSeconds && a.backoff == b.backoff && a.key == b.key
  }

  predicate Untouched(v: View) {
    && v.f == Facts(None, [], 0, false, false, 0)
    && v.hands == map[] && !v.claimed && !v.adrift
  }

  predicate CopyOk(w: Worker, id: TaskId, row: Row) {
    w.id == id && (w.Executing? ==> w.copy.status == Running && RowOk(w.copy) && SameRequest(w.copy, row))
  }

  predicate Basic(v: View, id: TaskId) {
    match v.f.row
    case None => Untouched(v)
    case Some(row) =>
      && RowOk(row)
      && (forall slot :: slot in v.hands ==> CopyOk(v.hands[slot], id, row))
      && (row.status == Scheduled || row.status == EnqueueFailed ==> v.f.waiting == 0 && v.hands == map[])
      && (v.f.marked ==> row.status != Running)
  }

  lemma BasicSubmit(id: TaskId, v: View, q: Request, now: int, wait: nat, up: bool)
    requires Untouched(v)
    ensures Basic(v.(f := SubmitFacts(id, v.f, q, now, now + wait, up)), id)
  {}

  /** A step that keeps some of the hands and rewrites the row within its request keeps the copies sound. */
  lemma BasicRewrite(id: TaskId, v: View, v': View)
    requires Basic(v, id) && v.f.row.Some? && v'.f.row.Some?
    requires forall slot :: slot in v'.hands ==> slot in v.hands && v'.hands[slot] == v.hands[slot]
    requires RowOk(v'.f.row.value) && SameRequest(v'.f.row.value, v.f.row.value)
    requires v'.f.row.value.status == Scheduled || v'.f.row.value.status == EnqueueFailed ==>
      v'.f.waiting == 0 && v'.hands == map[]
    requires v'.f.marked ==> v'.f.row.value.status != Running
    ensures Basic(v', id)
  {}

  lemma FinishedRowsOk(r: Row, result: string, error: string, now: int)
    requires RowOk(r) && r.status == Running
    ensures RowOk(CompletedRow(r, result, now)) && SameRequest(CompletedRow(r, result, now), r)
    ensures RowOk(FailedRow(r, error, now)) && SameRequest(FailedRow(r, error, now), r)
    ensures RowOk(TimedOutRow(r, now)) && SameRequest(TimedOutRow(r, now), r)
  {}

  lemma BasicStoreStep(c: Config, now: int, id: TaskId, v: View, step: Step)
    requires Basic(v, id) && v.f.row.Some? && (step.Repair? || step.Replay? || step.Cancel?)
    ensures Basic(LocalNext(c, now, id, v, step), id)
  {
    BasicRewrite(id, v, LocalNext(c, now, id, v, step));
  }

  lemma BasicSchedulerStep(c: Config, now: int, id: TaskId, v: View, step: Step)
    requires Basic(v, id) && v.f.row.Some? && LocalEnabled(v, id, step)
    requires step.SweepOne? || step.ReleaseOne? || step.Claim?
    ensures Basic(LocalNext(c, now, id, v, step), id)
  {
    var v' := LocalNext(c, now, id, v, step);
    assert v'.hands == v.hands;
    match step
    case Claim(_) =>
    case ReleaseOne(_, up) =>
      assert v'.f.row.value == v.f.row.value || v'.f.row.value == v.f.row.value.(status := Queued);
      BasicRewrite(id, v, v');
    case SweepOne(_, _, _) =>
      if v.f.row.value.status == Running {
        FinishedRowsOk(v.f.row.value, "", "", now);
      }
      BasicRewrite(id, v, v');
  }

  lemma BasicDequeue(id: TaskId, v: View, slot: Slot)
    requires Basic(v, id) && LocalEnabled(v, id, Dequeue(slot))
    ensures Basic(v.(f := v.f.(waiting := v.f.waiting - 1), hands := v.hands[slot := Held(id)]), id)
  {}

  lemma BasicStart(id: TaskId, v: View, slot: Slot, worker: string, now: int, checkUp: bool, writeUp: bool)
    requires Basic(v, id) && v.f.row.Some? && slot in v.hands && v.hands[slot] == Held(id)
    ensures Basic(StartView(v, id, slot, worker, now, checkUp, writeUp), id)
  {}

  lemma BasicFinish(id: TaskId, v: View, slot: Slot, outcome: Outcome, now: int, pushUp: bool)
    requires Basic(v, id) && v.f.row.Some? && slot in v.hands && v.hands[slot].Executing? && v.hands[slot].id == id
    ensures Basic(v.(f := FinishFacts(id, v.f, v.hands[slot].copy, outcome, now, pushUp),
        hands := v.hands - {slot}), id)
  {
    var v' := v.(f := FinishFacts(id, v.f, v.hands[slot].copy, outcome, now, pushUp), hands := v.hands - {slot});
    var copy := v.hands[slot].copy;
    assert CopyOk(v.hands[slot], id, v.f.row.value);
    FinishedRowsOk(copy, if outcome.Succeeded? then outcome.result else "",
      if outcome.Errored? then outcome.error else "", now);
    BasicRewrite(id, v, v');
  }

  lemma BasicCrash(id: TaskId, v: View, slot: Slot)
    requires Basic(v, id) && v.f.row.Some? && slot in v.hands
    ensures Basic(v.(hands := v.hands - {slot}), id)
  {
    BasicRewrite(id, v, v.(hands := v.hands - {slot}));
  }

  lemma BasicStep(c: Config, now: int, id: TaskId, v: View, step: Step)
    requires Basic(v, id) && LocalEnabled(v, id, step)
    ensures Basic(LocalNext(c, now, id, v, step), id)
  {
    match step
    case Submit(q, _, wait, up) => BasicSubmit(id, v, q, now, wait, up);
    case Repair(_, _) => if v.f.row.Some? { BasicStoreStep(c, now, id, v, step); }
    case Replay(_, _) => if v.f.row.Some? { BasicStoreStep(c, now, id, v, step); }
    case Cancel(_, _, _) => if v.f.row.Some? { BasicStoreStep(c, now, id, v, step); }
    case SweepOne(_, _, _) => if v.f.row.Some? { BasicSchedulerStep(c, now, id, v, step); }
    case ReleaseOne(_, _) => BasicSchedulerStep(c, now, id, v, step);
    case Claim(_) => BasicSchedulerStep(c, now, id, v, step);
    case Dequeue(slot) => BasicDequeue(id, v, slot);
    case Start(slot, worker, checkUp, writeUp) => BasicStart(id, v, slot, worker, now, checkUp, writeUp);
    case Finish(slot, outcome, pushUp, _) => BasicFinish(id, v, slot, outcome, now, pushUp);
    case Crash(slot, _) => BasicCrash(id, v, slot);
    case Tick(_) =>
  }

  // ---------------------------------------------------------------- every run: coverage

  /** A waiting task has a delivery pointer or is on record as adrift, and no task is both. */
  predicate Tracked(v: View) {
    && (v.adrift ==> !PointedView(v))
    && (WaitsFor(v.f) ==> PointedView(v) || v.adrift)
  }

  lemma HeldElsewhere(v: View, v': View, slot: Slot)
    requires slot in v.hands && v.hands[slot].Executing? && v'.hands == v.hands - {slot}
    ensures HeldView(v) ==> HeldView(v')
  {
    if HeldView(v) {
      var other :| other in v.hands && v.hands[other].Held?;
      assert other in v'.hands && v'.hands[other].Held?;
    }
  }

  /** A step that uses up no pointer leaves a task that waits with one, or adrift as it was. */
  lemma StillPointed(c: Config, now: int, id: TaskId, v: View, step: Step)
    requires Basic(v, id) && Tracked(v) && LocalEnabled(v, id, step) && !LocalUsesPointer(v, id, step)
    ensures var v' := LocalNext(c, now, id, v, step);
      WaitsFor(v'.f) ==> PointedView(v') || v'.adrift
  {
    var v' := LocalNext(c, now, id, v, step);
    match step
    case Dequeue(slot) => assert v'.hands[slot].Held?;
    case Finish(slot, _, _, _) =>
      assert CopyOk(v.hands[slot], id, v.f.row.value);
      HeldElsewhere(v, v', slot);
    case Crash(slot, _) => HeldElsewhere(v, v', slot);
    case Start(_, _, _, _) =>
    case ReleaseOne(_, _) =>
    case _ => assert v'.hands == v.hands;
  }

  lemma TrackedStep(c: Config, now: int, id: TaskId, v: View, step: Step)
    requires Basic(v, id) && Tracked(v) && LocalEnabled(v, id, step)
    ensures Tracked(LocalAfter(c, now, id, v, step))
  {
    if !LocalUsesPointer(v, id, step) {
      StillPointed(c, now, id, v, step);
    }
  }
}
