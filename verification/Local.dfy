/**
 * The one-task automaton: what a step does to the view of the task it acts on.
 * `StepEffect` proves that the whole machine moves each task's view by this automaton and leaves all other views alone.
 */
module Local {
  import opened Prelude
  import opened Domain
  import opened Protocol
  import opened Machine
  import opened Views
  import ReadyQueue

  datatype Pushed = Pushed(f: Facts, row: Row, ok: bool)

  function EnqueueFacts(id: TaskId, f: Facts, row: Row, now: int, up: bool): Pushed {
    if !up then Pushed(f, row, false)
    else
      var future := IsFuture(row.scheduledAt, now);
      var to := if future then Scheduled else Queued;
      var g := if future then f.(zset := true) else f.(waiting := f.waiting + 1);
      if Allowed(row.status, to) then
        Pushed(Wrote(g, id, row.(status := to), TaskEnqueued, Some(row.status)), row.(status := to), true)
      else Pushed(g, row, false)
  }

  function SubmitFacts(id: TaskId, f: Facts, q: Request, now: int, later: int, up: bool): Facts {
    var row := NewRow(q, now);
    var p := EnqueueFacts(id, Wrote(f, id, row, TaskSubmitted, None), row, later, up);
    if p.ok then p.f else Wrote(p.f, id, p.row.(status := EnqueueFailed), TaskEnqueueFailed, Some(p.row.status))
  }

  function ReplayFacts(id: TaskId, f: Facts, r: Row, up: bool): Facts {
    if (r.status == DeadLetter || r.status == Failed) && up then
      Wrote(f.(waiting := f.waiting + 1), id, ReplayedRow(r), TaskRetried, Some(r.status))
    else f
  }

  function RepairFacts(id: TaskId, f: Facts, r: Row, now: int, up: bool): Facts {
    if r.status == EnqueueFailed then EnqueueFacts(id, f, r, now, up).f else f
  }

  function CancelFacts(id: TaskId, f: Facts, r: Row, now: int, markUp: bool, removeUp: bool): Facts {
    if r.status == Completed || r.status == Cancelled || r.status == DeadLetter || !markUp then f
    else if r.status == Scheduled && !removeUp then f.(marked := true)
    else
      var g := f.(marked := true, zset := f.zset && r.status != Scheduled);
      if Allowed(r.status, Cancelled) then Wrote(g, id, CancelledRow(r, now), TaskCancelled, Some(r.status)) else g
  }

  function ReleaseFacts(c: Config, id: TaskId, f: Facts, r: Row, up: bool): Facts {
    if r.status == Scheduled && up then
      Wrote(f.(waiting := f.waiting + 1), id, r.(status := Queued), TaskScheduledRelease, Some(Scheduled))
    else if c.redelivers && AwaitsRetry(r) && up then f.(waiting := f.waiting + 1, zset := false)
    else f
  }

  function ResolveFacts(id: TaskId, f: Facts, r: Row, retryKind: EventKind, pushUp: bool): Facts {
    if !pushUp then f
    else if r.status == Queued then Wrote(f.(zset := true), id, r, retryKind, Some(Running))
    else Wrote(f.(dlq := f.dlq + 1), id, r, TaskDeadLetter, Some(Running))
  }

  function SweepFacts(id: TaskId, f: Facts, r: Row, now: int, pushUp: bool): Facts {
    if Overdue(r, now) then ResolveFacts(id, f, TimedOutRow(r, now), TaskRequeuedTimeout, pushUp) else f
  }

  function FinishFacts(id: TaskId, f: Facts, copy: Row, outcome: Outcome, now: int, pushUp: bool): Facts {
    match outcome
    case Succeeded(result) => Wrote(f, id, CompletedRow(copy, result, now), TaskCompleted, Some(Running))
    case Errored(error) => ResolveFacts(id, f, FailedRow(copy, error, now), TaskRetryScheduled, pushUp)
  }

  predicate WaitsFor(f: Facts) {
    f.row.Some? && (f.row.value.status == Scheduled || f.row.value.status == Queued)
  }

  predicate Launches(f: Facts, checkUp: bool, writeUp: bool) {
    f.row.Some? && f.row.value.status == Queued && checkUp && !f.marked && writeUp
  }

  function StartFacts(id: TaskId, f: Facts, worker: string, now: int, checkUp: bool, writeUp: bool): Facts {
    if f.row.None? || f.row.value.status != Queued || !checkUp then f
    else if f.marked then
      Wrote(f, id, CancelledRow(f.row.value, now), TaskCancelled, Some(Queued)).(marked := !writeUp)
    else Wrote(f, id, StartedRow(f.row.value, worker, now), TaskStarted, Some(Queued))
  }

  function StartView(v: View, id: TaskId, slot: Slot, worker: string, now: int, checkUp: bool, writeUp: bool): View {
    var f := StartFacts(id, v.f, worker, now, checkUp, writeUp);
    v.(f := f,
       hands := if Launches(v.f, checkUp, writeUp) then v.hands[slot := Executing(id, f.row.value)]
           else v.hands - {slot})
  }

  /** What must hold of a view for a step to act on it. */
  predicate LocalEnabled(v: View, id: TaskId, step: Step) {
    match step
    case Submit(_, _, _, _) => v.f.row.None?
    case Claim(_) => v.f.zset
    case ReleaseOne(_, _) => v.claimed
    case Dequeue(slot) => slot !in v.hands && v.f.waiting > 0
    case Start(slot, _, _, _) => slot in v.hands && v.hands[slot] == Held(id)
    case Finish(slot, _, _, _) => slot in v.hands && v.hands[slot].Executing? && v.hands[slot].id == id
    case Crash(slot, _) => slot in v.hands && v.hands[slot].id == id
    case _ => true
  }

  predicate LiveView(v: View) {
    exists slot :: slot in v.hands && v.hands[slot].Executing?
  }

  /** The step does not time out a live run. */
  predicate SweepSpares(v: View, step: Step, now: int) {
    step.SweepOne? && v.f.row.Some? && Overdue(v.f.row.value, now) ==> !LiveView(v)
  }

  /** The step does not cancel the task under a live run. */
  predicate CancelSpares(v: View, step: Step) {
    step.Cancel? ==> !LiveView(v)
  }

  predicate HeldView(v: View) {
    exists slot :: slot in v.hands && v.hands[slot].Held?
  }

  predicate PointedView(v: View) {
    v.f.waiting > 0 || HeldView(v) || v.f.zset || v.claimed
  }

  predicate LocalUsesPointer(v: View, id: TaskId, step: Step)
    requires LocalEnabled(v, id, step)
  {
    step.ReleaseOne? || step.Start? || (step.Crash? && v.hands[step.slot].Held?)
  }

  /** The record of being adrift, brought up to date. */
  function Settled(v: View, used: bool): View {
    v.(adrift := !PointedView(v) && ((used && WaitsFor(v.f)) || v.adrift))
  }

  /** The view after the step, but for the record of being adrift. */
  function LocalNext(c: Config, now: int, id: TaskId, v: View, step: Step): View
    requires LocalEnabled(v, id, step)
  {
    match step
    case Submit(q, _, wait, up) => v.(f := SubmitFacts(id, v.f, q, now, now + wait, up))
    case Repair(_, up) => if v.f.row.None? then v else v.(f := RepairFacts(id, v.f, v.f.row.value, now, up))
    case Replay(_, up) => if v.f.row.None? then v else v.(f := ReplayFacts(id, v.f, v.f.row.value, up))
    case Cancel(_, markUp, removeUp) =>
      if v.f.row.None? then v else v.(f := CancelFacts(id, v.f, v.f.row.value, now, markUp, removeUp))
    case Claim(_) => v.(f := v.f.(zset := false), claimed := true)
    case ReleaseOne(_, up) =>
      if v.f.row.None? then v.(claimed := false)
      else v.(f := ReleaseFacts(c, id, v.f, v.f.row.value, up), claimed := false)
    case SweepOne(_, pushUp, _) => if v.f.row.None? then v else v.(f := SweepFacts(id, v.f, v.f.row.value, now, pushUp))
    case Dequeue(slot) => v.(f := v.f.(waiting := v.f.waiting - 1), hands := v.hands[slot := Held(id)])
    case Start(slot, worker, checkUp, writeUp) => StartView(v, id, slot, worker, now, checkUp, writeUp)
    case Finish(slot, outcome, pushUp, _) =>
      v.(f := FinishFacts(id, v.f, v.hands[slot].copy, outcome, now, pushUp), hands := v.hands - {slot})
    case Crash(slot, _) => v.(hands := v.hands - {slot})
    case Tick(_) => v
  }

  /** The view after the step. */
  function LocalAfter(c: Config, now: int, id: TaskId, v: View, step: Step): View
    requires LocalEnabled(v, id, step)
  {
    Settled(LocalNext(c, now, id, v, step), LocalUsesPointer(v, id, step))
  }

  // ---------------------------------------------------------------- the machine moves views by this automaton

  lemma EnqueueLaterEffect(s: Store, id: TaskId, row: Row, now: int, j: TaskId)
    requires id in s.rows && row.key == s.rows[id].key && IsFuture(row.scheduledAt, now)
    ensures EnqueueEffectAt(s, id, row, now, true, j)
  {}

  lemma EnqueueNowEffect(s: Store, id: TaskId, row: Row, now: int, j: TaskId)
    requires id in s.rows && row.key == s.rows[id].key && !IsFuture(row.scheduledAt, now)
    ensures EnqueueEffectAt(s, id, row, now, true, j)
  {
    EnqueueReadyFacts(s, id, row.priority, j);
    CommitFacts(EnqueueReady(s, id, row.priority), id, row.(status := Queued), TaskEnqueued, Some(row.status), j);
  }

  predicate EnqueueEffectAt(s: Store, id: TaskId, row: Row, now: int, up: bool, j: TaskId) {
    var e := EnqueueTask(s, id, row, now, up);
    && (j != id ==> FactsOf(e.store, j) == FactsOf(s, j))
    && (j == id ==> var p := EnqueueFacts(id, FactsOf(s, id), row, now, up);
          FactsOf(e.store, id) == p.f && e.row == p.row && e.ok == p.ok)
    && id in e.store.rows && e.store.rows[id].key == e.row.key == row.key
  }

  lemma EnqueueEffect(s: Store, id: TaskId, row: Row, now: int, up: bool, j: TaskId)
    requires id in s.rows && row.key == s.rows[id].key
    ensures EnqueueEffectAt(s, id, row, now, up, j)
  {
    if up {
      if IsFuture(row.scheduledAt, now) {
        EnqueueLaterEffect(s, id, row, now, j);
      } else {
        EnqueueNowEffect(s, id, row, now, j);
      }
    }
  }

  lemma SubmitEffect(c: Config, s: Store, q: Request, id: TaskId, now: int, later: int, up: bool, j: TaskId)
    requires id !in s.rows
    ensures var s' := SubmitTask(c, s, q, id, now, later, up).0;
      && (j != id ==> FactsOf(s', j) == FactsOf(s, j))
      && (j == id ==> s' == s || FactsOf(s', id) == SubmitFacts(id, FactsOf(s, id), q, now, later, up))
  {
    var row := NewRow(q, now);
    var s1 := Commit(s, id, row, TaskSubmitted, None);
    CommitFacts(s, id, row, TaskSubmitted, None, j);
    EnqueueEffect(s1, id, row, later, up, j);
    var e := EnqueueTask(s1, id, row, later, up);
    CommitFacts(e.store, id, e.row.(status := EnqueueFailed), TaskEnqueueFailed, Some(e.row.status), j);
  }

  lemma ReplayEffect(s: Store, id: TaskId, up: bool, j: TaskId)
    requires id in s.rows
    ensures FactsOf(ReplayTask(s, id, up).0, j)
         == if j == id then ReplayFacts(id, FactsOf(s, id), s.rows[id], up) else FactsOf(s, j)
  {
    var row := s.rows[id];
    EnqueueReadyFacts(s, id, row.priority, j);
    CommitFacts(EnqueueReady(s, id, row.priority), id, ReplayedRow(row), TaskRetried, Some(row.status), j);
  }

  lemma CancelEffect(s: Store, id: TaskId, now: int, markUp: bool, removeUp: bool, j: TaskId)
    requires id in s.rows
    ensures FactsOf(CancelTask(s, id, now, markUp, removeUp).0, j)
         == if j == id then CancelFacts(id, FactsOf(s, id), s.rows[id], now, markUp, removeUp) else FactsOf(s, j)
  {
    var row := s.rows[id];
    var s' := CancelTask(s, id, now, markUp, removeUp).0;
    var marked := MarkCancelled(s, id);
    SetFacts(s, id, 0, j);
    if row.status == Completed || row.status == Cancelled || row.status == DeadLetter || !markUp {
      assert s' == s;
    } else if row.status == Scheduled && !removeUp {
      assert s' == marked;
    } else {
      SetFacts(marked, id, 0, j);
      var removed := if row.status == Scheduled then RemoveScheduled(marked, id) else marked;
      if Allowed(row.status, Cancelled) {
        assert s' == Commit(removed, id, CancelledRow(row, now), TaskCancelled, Some(row.status));
        CommitFacts(removed, id, CancelledRow(row, now), TaskCancelled, Some(row.status), j);
      } else {
        assert s' == removed;
      }
    }
  }

  lemma ReleaseEffect(c: Config, s: Store, id: TaskId, up: bool, j: TaskId)
    requires id in s.rows
    ensures FactsOf(ReleaseTask(c, s, id, up).0, j)
         == if j == id then ReleaseFacts(c, id, FactsOf(s, id), s.rows[id], up) else FactsOf(s, j)
  {
    var row := s.rows[id];
    SetFacts(s, id, 0, j);
    EnqueueReadyFacts(RemoveScheduled(s, id), id, row.priority, j);
    EnqueueReadyFacts(s, id, row.priority, j);
    CommitFacts(EnqueueReady(s, id, row.priority), id, row.(status := Queued), TaskScheduledRelease,
        Some(row.status), j);
  }

  lemma RetryEffect(s: Store, id: TaskId, r: Row, kind: EventKind, at: int, j: TaskId)
    ensures FactsOf(Commit(EnqueueScheduled(s, id, at), id, r, kind, Some(Running)), j)
         == if j == id then Wrote(FactsOf(s, id).(zset := true), id, r, kind, Some(Running)) else FactsOf(s, j)
  {}

  lemma DeadLetterEffect(s: Store, id: TaskId, r: Row, j: TaskId)
    ensures var f := FactsOf(s, id);
      FactsOf(Commit(EnqueueDlq(s, id), id, r, TaskDeadLetter, Some(Running)), j)
        == if j == id then Wrote(f.(dlq := f.dlq + 1), id, r, TaskDeadLetter, Some(Running)) else FactsOf(s, j)
  {}

  lemma ResolveEffect(s: Store, id: TaskId, r: Row, kind: EventKind, now: int, pushUp: bool, j: TaskId)
    ensures FactsOf(ResolveTask(s, id, r, kind, now, pushUp), j)
         == if j == id then ResolveFacts(id, FactsOf(s, id), r, kind, pushUp) else FactsOf(s, j)
  {
    var s' := ResolveTask(s, id, r, kind, now, pushUp);
    if pushUp && r.status == Queued {
      assert s' == Commit(EnqueueScheduled(s, id, now + RetryDelay(r)), id, r, kind, Some(Running));
      RetryEffect(s, id, r, kind, now + RetryDelay(r), j);
    } else if pushUp {
      assert s' == Commit(EnqueueDlq(s, id), id, r, TaskDeadLetter, Some(Running));
      DeadLetterEffect(s, id, r, j);
    } else {
      assert s' == s;
    }
  }

  lemma ClearedFacts(s: Store, id: TaskId, clearUp: bool, j: TaskId)
    ensures FactsOf(if clearUp then ClearInflight(s, id) else s, j) == FactsOf(s, j)
  {}

  lemma SweepEffect(s: Store, id: TaskId, now: int, pushUp: bool, clearUp: bool, j: TaskId)
    requires id in s.rows
    ensures FactsOf(SweepTask(s, id, now, pushUp, clearUp).0, j)
         == if j == id then SweepFacts(id, FactsOf(s, id), s.rows[id], now, pushUp) else FactsOf(s, j)
  {
    var row := s.rows[id];
    if row.status != Running {
      ClearedFacts(s, id, clearUp, j);
    } else if Overdue(row, now) && pushUp {
      var r := TimedOutRow(row, now);
      ResolveEffect(s, id, r, TaskRequeuedTimeout, now, true, j);
      ClearedFacts(ResolveTask(s, id, r, TaskRequeuedTimeout, now, true), id, clearUp, j);
    }
  }

  lemma FinishEffect(s: Store, id: TaskId, copy: Row, outcome: Outcome, now: int, pushUp: bool, clearUp: bool,
      j: TaskId)
    ensures FactsOf(FinishTask(s, id, copy, outcome, now, pushUp, clearUp), j)
         == if j == id then FinishFacts(id, FactsOf(s, id), copy, outcome, now, pushUp) else FactsOf(s, j)
  {
    match outcome
    case Succeeded(result) =>
      var r := CompletedRow(copy, result, now);
      CommitFacts(s, id, r, TaskCompleted, Some(Running), j);
      ClearedFacts(Commit(s, id, r, TaskCompleted, Some(Running)), id, clearUp, j);
    case Errored(error) =>
      var r := FailedRow(copy, error, now);
      ResolveEffect(s, id, r, TaskRetryScheduled, now, pushUp, j);
      ClearedFacts(ResolveTask(s, id, r, TaskRetryScheduled, now, pushUp), id, clearUp, j);
  }

  lemma CancelledAtStartEffect(s: Store, id: TaskId, r: Row, writeUp: bool, j: TaskId)
    ensures var s1 := Commit(s, id, r, TaskCancelled, Some(Queued));
      FactsOf(if writeUp then ClearCancelled(s1, id) else s1, j)
        == if j == id
           then Wrote(FactsOf(s, id), id, r, TaskCancelled, Some(Queued))
                  .(marked := !writeUp && id in s.redis.cancelled)
           else FactsOf(s, j)
  {}

  lemma LaunchEffect(s: Store, id: TaskId, r: Row, expiry: int, writeUp: bool, j: TaskId)
    ensures var s1 := Commit(s, id, r, TaskStarted, Some(Queued));
      FactsOf(if writeUp then MarkInflight(s1, id, expiry) else s1, j)
        == if j == id then Wrote(FactsOf(s, id), id, r, TaskStarted, Some(Queued)) else FactsOf(s, j)
  {}

  lemma StartStoreEffect(s: Store, id: TaskId, worker: string, now: int, checkUp: bool, writeUp: bool, j: TaskId)
    ensures var (s', result) := StartTask(s, id, worker, now, checkUp, writeUp);
      && FactsOf(s', j)
         == (if j == id then StartFacts(id, FactsOf(s, id), worker, now, checkUp, writeUp) else FactsOf(s, j))
      && result.Launched? == Launches(FactsOf(s, id), checkUp, writeUp)
      && (result.Launched? ==> id in s'.rows && s'.rows[id] == result.copy)
  {
    if id in s.rows && s.rows[id].status == Queued && checkUp {
      var s' := StartTask(s, id, worker, now, checkUp, writeUp).0;
      if id in s.redis.cancelled {
        var r := CancelledRow(s.rows[id], now);
        var s1 := Commit(s, id, r, TaskCancelled, Some(Queued));
        assert s' == if writeUp then ClearCancelled(s1, id) else s1;
        CancelledAtStartEffect(s, id, r, writeUp, j);
      } else {
        var r := StartedRow(s.rows[id], worker, now);
        var s1 := Commit(s, id, r, TaskStarted, Some(Queued));
        assert s' == if writeUp then MarkInflight(s1, id, now + r.timeoutSeconds + 60) else s1;
        LaunchEffect(s, id, r, now + r.timeoutSeconds + 60, writeUp, j);
      }
    }
  }

  /** The view after a start, from what the start did to the stores. */
  lemma StartedView(st: State, slot: Slot, s': Store, result: StartResult, worker: string, checkUp: bool,
      writeUp: bool, j: TaskId)
    requires slot in st.workers && st.workers[slot].Held?
    requires var id, f := st.workers[slot].id, FactsOf(st.store, st.workers[slot].id);
      && FactsOf(s', j) == (if j == id then StartFacts(id, f, worker, st.now, checkUp, writeUp)
          else FactsOf(st.store, j))
      && result.Launched? == Launches(f, checkUp, writeUp)
      && (result.Launched? ==> id in s'.rows && s'.rows[id] == result.copy)
    ensures ViewOf(AfterStart(st, slot, s', result), j)
         == if j != st.workers[slot].id then ViewOf(st, j)
            else StartView(ViewOf(st, j), j, slot, worker, st.now, checkUp, writeUp)
  {}

  lemma StartMoves(st: State, slot: Slot, worker: string, checkUp: bool, writeUp: bool, j: TaskId)
    requires slot in st.workers && st.workers[slot].Held?
    ensures ViewOf(Moved(st, Start(slot, worker, checkUp, writeUp)), j)
         == if j != st.workers[slot].id then ViewOf(st, j)
            else StartView(ViewOf(st, j), j, slot, worker, st.now, checkUp, writeUp)
  {
    var id := st.workers[slot].id;
    StartStoreEffect(st.store, id, worker, st.now, checkUp, writeUp, j);
    var (s', result) := StartTask(st.store, id, worker, st.now, checkUp, writeUp);
    assert Moved(st, Start(slot, worker, checkUp, writeUp)) == AfterStart(st, slot, s', result);
    StartedView(st, slot, s', result, worker, checkUp, writeUp, j);
  }

  lemma StartStepMoves(st: State, slot: Slot, worker: string, checkUp: bool, writeUp: bool, j: TaskId)
    requires Enabled(st, Start(slot, worker, checkUp, writeUp))
    ensures MovesAt(st, Start(slot, worker, checkUp, writeUp), j)
  {
    StartMoves(st, slot, worker, checkUp, writeUp, j);
  }

  /** Apart from the record of tasks adrift, every step moves only the view of its task, by the automaton. */
  predicate MovesAt(st: State, step: Step, j: TaskId)
    requires Enabled(st, step)
  {
    var v, v' := ViewOf(st, j), ViewOf(Moved(st, step), j);
    if Focus(st, step) != Some(j) then v' == v
    else LocalEnabled(v, j, step) && (v' == LocalNext(st.config, st.now, j, v, step) || (step.Submit? && v' == v))
  }

  /** The view after a submission, from what it did to the stores. */
  lemma SubmittedView(st: State, s': Store, now: nat, f': Facts, id: TaskId, j: TaskId)
    requires j != id ==> FactsOf(s', j) == FactsOf(st.store, j)
    requires j == id ==> s' == st.store || FactsOf(s', id) == f'
    ensures var v, v' := ViewOf(st, j), ViewOf(st.(store := s', now := now), j);
      v' == v || (j == id && v' == v.(f := f'))
  {}

  lemma SubmitMoves(st: State, next: State, q: Request, id: TaskId, later: nat, up: bool, j: TaskId)
    requires id !in st.store.rows
    requires next == st.(store := SubmitTask(st.config, st.store, q, id, st.now, later, up).0, now := later)
    ensures var v, v' := ViewOf(st, j), ViewOf(next, j);
      v' == v || (j == id && v' == v.(f := SubmitFacts(id, v.f, q, st.now, later, up)))
  {
    SubmitEffect(st.config, st.store, q, id, st.now, later, up, j);
    SubmittedView(st, next.store, later, SubmitFacts(id, FactsOf(st.store, id), q, st.now, later, up), id, j);
  }

  lemma SubmitMoved(st: State, q: Request, id: TaskId, wait: nat, up: bool)
    requires id !in st.store.rows
    ensures Moved(st, Submit(q, id, wait, up))
         == st.(store := SubmitTask(st.config, st.store, q, id, st.now, st.now + wait, up).0, now := st.now + wait)
  {}

  lemma SubmitStepMoves(st: State, q: Request, id: TaskId, wait: nat, up: bool, j: TaskId)
    requires Enabled(st, Submit(q, id, wait, up))
    ensures MovesAt(st, Submit(q, id, wait, up), j)
  {
    SubmitMoved(st, q, id, wait, up);
    SubmitMoves(st, Moved(st, Submit(q, id, wait, up)), q, id, st.now + wait, up, j);
  }

  /** A change of nothing but the stores and the clock changes a view only through the stores. */
  lemma StoreOnly(st: State, s': Store, now: nat, j: TaskId)
    ensures ViewOf(st.(store := s', now := now), j) == ViewOf(st, j).(f := FactsOf(s', j))
  {}

  lemma SlotFreed(st: State, slot: Slot, s': Store, j: TaskId)
    requires slot in st.workers
    ensures var v := ViewOf(st, j);
      ViewOf(st.(store := s', workers := st.workers - {slot}), j)
        == v.(f := FactsOf(s', j), hands := if j == st.workers[slot].id then v.hands - {slot} else v.hands)
  {}

  lemma RepairStepMoves(st: State, id: TaskId, up: bool, j: TaskId)
    ensures MovesAt(st, Repair(id, up), j)
  {
    if id in st.store.rows {
      EnqueueEffect(st.store, id, st.store.rows[id], st.now, up, j);
    }
  }

  lemma ReplayStepMoves(st: State, id: TaskId, up: bool, j: TaskId)
    ensures MovesAt(st, Replay(id, up), j)
  {
    if id in st.store.rows {
      ReplayEffect(st.store, id, up, j);
    }
  }

  lemma CancelStepMoves(st: State, id: TaskId, markUp: bool, removeUp: bool, j: TaskId)
    ensures MovesAt(st, Cancel(id, markUp, removeUp), j)
  {
    if id in st.store.rows {
      CancelEffect(st.store, id, st.now, markUp, removeUp, j);
    }
  }

  lemma SweepStepMoves(st: State, id: TaskId, pushUp: bool, clearUp: bool, j: TaskId)
    ensures MovesAt(st, SweepOne(id, pushUp, clearUp), j)
  {
    var s' := SweepTask(st.store, id, st.now, pushUp, clearUp).0;
    if id in st.store.rows {
      SweepEffect(st.store, id, st.now, pushUp, clearUp, j);
    } else {
      ClearedFacts(st.store, id, clearUp, j);
    }
    StoreOnly(st, s', st.now, j);
  }

  lemma ClaimStepMoves(st: State, id: TaskId, j: TaskId)
    requires Enabled(st, Claim(id))
    ensures MovesAt(st, Claim(id), j)
  {}

  lemma ReleaseMoves(st: State, next: State, id: TaskId, up: bool, j: TaskId)
    requires id in st.store.rows
    requires next == st.(store := ReleaseTask(st.config, st.store, id, up).0, claimed := st.claimed - {id})
    ensures var v, r := ViewOf(st, j), st.store.rows[id];
      ViewOf(next, j) == if j != id then v else v.(f := ReleaseFacts(st.config, id, v.f, r, up), claimed := false)
  {
    ReleaseEffect(st.config, st.store, id, up, j);
  }

  lemma ReleaseStepMoves(st: State, id: TaskId, up: bool, j: TaskId)
    requires Enabled(st, ReleaseOne(id, up))
    ensures MovesAt(st, ReleaseOne(id, up), j)
  {
    if id in st.store.rows {
      ReleaseMoves(st, Moved(st, ReleaseOne(id, up)), id, up, j);
    }
  }

  lemma DequeueStepMoves(st: State, slot: Slot, j: TaskId)
    requires Enabled(st, Dequeue(slot))
    ensures MovesAt(st, Dequeue(slot), j)
  {
    PopFacts(st.store, j);
    HandsAfterUpdate(st.workers, slot, Held(ReadyQueue.Pop(st.store.redis.ready).value.0), j);
  }

  lemma FinishStepMoves(st: State, slot: Slot, outcome: Outcome, pushUp: bool, clearUp: bool, j: TaskId)
    requires Enabled(st, Finish(slot, outcome, pushUp, clearUp))
    ensures MovesAt(st, Finish(slot, outcome, pushUp, clearUp), j)
  {
    var w := st.workers[slot];
    var s' := FinishTask(st.store, w.id, w.copy, outcome, st.now, pushUp, clearUp);
    assert Moved(st, Finish(slot, outcome, pushUp, clearUp)) == st.(store := s', workers := st.workers - {slot});
    SlotFreed(st, slot, s', j);
    FinishEffect(st.store, w.id, w.copy, outcome, st.now, pushUp, clearUp, j);
  }

  lemma CrashStepMoves(st: State, slot: Slot, cleanup: bool, j: TaskId)
    requires Enabled(st, Crash(slot, cleanup))
    ensures MovesAt(st, Crash(slot, cleanup), j)
  {}

  lemma StepMoves(st: State, step: Step, j: TaskId)
    requires Enabled(st, step)
    ensures MovesAt(st, step, j)
  {
    match step
    case Start(slot, worker, checkUp, writeUp) => StartStepMoves(st, slot, worker, checkUp, writeUp, j);
    case Tick(_) =>
    case Claim(id) => ClaimStepMoves(st, id, j);
    case ReleaseOne(id, up) => ReleaseStepMoves(st, id, up, j);
    case Dequeue(slot) => DequeueStepMoves(st, slot, j);
    case Finish(slot, outcome, pushUp, clearUp) => FinishStepMoves(st, slot, outcome, pushUp, clearUp, j);
    case Crash(slot, cleanup) => CrashStepMoves(st, slot, cleanup, j);
    case Submit(q, id, wait, up) => SubmitStepMoves(st, q, id, wait, up, j);
    case Repair(id, up) => RepairStepMoves(st, id, up, j);
    case Replay(id, up) => ReplayStepMoves(st, id, up, j);
    case Cancel(id, markUp, removeUp) => CancelStepMoves(st, id, markUp, removeUp, j);
    case SweepOne(id, pushUp, clearUp) => SweepStepMoves(st, id, pushUp, clearUp, j);
  }

  lemma HeldIsInHand(st: State, id: TaskId)
    ensures InHand(st, id) <==> HeldView(ViewOf(st, id))
  {
    var v := ViewOf(st, id);
    if InHand(st, id) {
      var slot :| slot in st.workers && st.workers[slot] == Held(id);
      assert slot in v.hands && v.hands[slot].Held?;
    }
    if HeldView(v) {
      var slot :| slot in v.hands && v.hands[slot].Held?;
      assert st.workers[slot] == Held(id);
    }
  }

  lemma RecordedView(st: State, id: TaskId, used: bool, j: TaskId)
    ensures ViewOf(Recorded(st, id, used), j) == if j == id then Settled(ViewOf(st, j), used) else ViewOf(st, j)
  {
    HeldIsInHand(st, id);
  }

  /** Every step moves the view of the task it acts on by the automaton, and no other view. */
  predicate EffectAt(st: State, step: Step, j: TaskId)
    requires Enabled(st, step)
  {
    var v, v' := ViewOf(st, j), ViewOf(Next(st, step), j);
    if Focus(st, step) != Some(j) then v' == v
    else
      && LocalEnabled(v, j, step)
      && (v' == LocalAfter(st.config, st.now, j, v, step) || (step.Submit? && v' == Settled(v, false)))
  }

  lemma StepEffect(st: State, step: Step, j: TaskId)
    requires Enabled(st, step)
    ensures EffectAt(st, step, j)
  {
    StepMoves(st, step, j);
    if !step.Tick? {
      RecordedView(Moved(st, step), Focus(st, step).value, UsesPointer(st, step), j);
    }
  }

  lemma LiveIsLiveView(st: State, id: TaskId)
    ensures Live(st, id) <==> LiveView(ViewOf(st, id))
  {
    var v := ViewOf(st, id);
    if Live(st, id) {
      var slot :| slot in st.workers && st.workers[slot].id == id && st.workers[slot].Executing?;
      assert slot in v.hands && v.hands[slot].Executing?;
    }
    if LiveView(v) {
      var slot :| slot in v.hands && v.hands[slot].Executing?;
      assert slot in st.workers && st.workers[slot].id == id && st.workers[slot].Executing?;
    }
  }

  lemma ObeysLocally(st: State, step: Step, rules: Rules, id: TaskId)
    requires Enabled(st, step) && Obeys(st, step, rules) && Focus(st, step) == Some(id)
    ensures id in rules.sparesLive ==> SweepSpares(ViewOf(st, id), step, st.now)
    ensures id in rules.sparesCancel ==> CancelSpares(ViewOf(st, id), step)
  {
    LiveIsLiveView(st, id);
  }
}
