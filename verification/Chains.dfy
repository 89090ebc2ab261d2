/**
 * Audit-log replay without a discipline: in any run of the shipped code, the trail of a task rebuilds its row exactly
 * when every finish that logged met a RUNNING row.
 */
module Chains {
  import opened Prelude
  import opened Domain
  import opened Protocol
  import opened Machine
  import opened Views
  import opened Local
  import opened Invariants
  import opened Audit
  import opened Reachability
  import opened Shipped

  /** The trail rebuilds the row's status and attempts. */
  predicate Chained(f: Facts) {
    match f.row
    case None => f.trail == []
    case Some(r) => ReplayLog(f.trail) == Alive(r.status, r.attempts)
  }

  /** A worker reports the end of its run over a row that is not RUNNING any more. */
  predicate StaleReport(v: View, step: Step) {
    step.Finish? && (step.outcome.Succeeded? || step.pushUp) && v.f.row.Some? && v.f.row.value.status != Running
  }

  lemma WroteChain(f: Facts, id: TaskId, row: Row, kind: EventKind, from: Option<Status>)
    ensures ReplayLog(Wrote(f, id, row, kind, from).trail)
         == Extend(ReplayLog(f.trail), Event(id, kind, from, row.status))
  {
    WroteLedger(f, id, row, kind, from);
  }

  lemma SubmitChains(id: TaskId, f: Facts, q: Request, now: int, wait: nat, up: bool)
    requires f == Facts(None, [], 0, false, false, 0)
    ensures Chained(SubmitFacts(id, f, q, now, now + wait, up))
  {
    var row := NewRow(q, now);
    var accepted := up && !IsFuture(row.scheduledAt, now + wait);
    SubmittedTrail(id, f, q, now, wait, up);
    SubmittedLedger(Event(id, TaskSubmitted, None, row.status),
      if accepted then Event(id, TaskEnqueued, Some(row.status), Queued)
      else Event(id, TaskEnqueueFailed, Some(row.status), EnqueueFailed));
  }

  lemma RepairChains(id: TaskId, f: Facts, r: Row, now: int, up: bool)
    requires f.row == Some(r) && Chained(f)
    ensures Chained(RepairFacts(id, f, r, now, up))
  {
    if r.status == EnqueueFailed && up {
      var future := IsFuture(r.scheduledAt, now);
      var g := if future then f.(zset := true) else f.(waiting := f.waiting + 1);
      var to := r.(status := if future then Scheduled else Queued);
      assert RepairFacts(id, f, r, now, up) == Wrote(g, id, to, TaskEnqueued, Some(r.status));
      WroteChain(g, id, to, TaskEnqueued, Some(r.status));
    } else {
      assert RepairFacts(id, f, r, now, up) == f;
    }
  }

  lemma ReplayChains(id: TaskId, f: Facts, r: Row, up: bool)
    requires f.row == Some(r) && Chained(f)
    ensures Chained(ReplayFacts(id, f, r, up))
  {
    WroteChain(f.(waiting := f.waiting + 1), id, ReplayedRow(r), TaskRetried, Some(r.status));
  }

  lemma CancelChains(id: TaskId, f: Facts, r: Row, now: int, markUp: bool, removeUp: bool)
    requires f.row == Some(r) && Chained(f)
    ensures Chained(CancelFacts(id, f, r, now, markUp, removeUp))
  {
    var f' := CancelFacts(id, f, r, now, markUp, removeUp);
    var g := f.(marked := true, zset := f.zset && r.status != Scheduled);
    var wrote := Wrote(g, id, CancelledRow(r, now), TaskCancelled, Some(r.status));
    assert (f'.row == f.row && f'.trail == f.trail) || (f' == wrote && Allowed(r.status, Cancelled));
    WroteChain(g, id, CancelledRow(r, now), TaskCancelled, Some(r.status));
  }

  lemma ReleaseChains(c: Config, id: TaskId, f: Facts, r: Row, up: bool)
    requires f.row == Some(r) && Chained(f)
    ensures Chained(ReleaseFacts(c, id, f, r, up))
  {
    WroteChain(f.(waiting := f.waiting + 1), id, r.(status := Queued), TaskScheduledRelease, Some(Scheduled));
  }

  lemma StartChains(id: TaskId, f: Facts, worker: string, now: int, checkUp: bool, writeUp: bool)
    requires f.row.Some? && Chained(f)
    ensures Chained(StartFacts(id, f, worker, now, checkUp, writeUp))
  {
    var r := f.row.value;
    WroteChain(f, id, CancelledRow(r, now), TaskCancelled, Some(Queued));
    WroteChain(f, id, StartedRow(r, worker, now), TaskStarted, Some(Queued));
  }

  lemma ResolveChains(id: TaskId, f: Facts, r': Row, kind: EventKind, pushUp: bool)
    requires f.row.Some? && f.row.value.status == Running && Chained(f) && IsRetry(kind)
    requires r'.attempts == f.row.value.attempts + 1 && (r'.status == Queued || r'.status == DeadLetter)
    ensures Chained(ResolveFacts(id, f, r', kind, pushUp))
  {
    WroteChain(f.(zset := true), id, r', kind, Some(Running));
    WroteChain(f.(dlq := f.dlq + 1), id, r', TaskDeadLetter, Some(Running));
  }

  lemma FinishChains(id: TaskId, f: Facts, copy: Row, outcome: Outcome, now: int, pushUp: bool)
    requires f.row.Some? && f.row.value.status == Running && Chained(f) && copy.attempts == f.row.value.attempts
    ensures Chained(FinishFacts(id, f, copy, outcome, now, pushUp))
  {
    match outcome
    case Succeeded(result) => WroteChain(f, id, CompletedRow(copy, result, now), TaskCompleted, Some(Running));
    case Errored(error) => ResolveChains(id, f, FailedRow(copy, error, now), TaskRetryScheduled, pushUp);
  }

  /** A stale report leaves from RUNNING where the trail stands elsewhere. */
  lemma StaleReportBreaks(id: TaskId, f: Facts, copy: Row, outcome: Outcome, now: int, pushUp: bool)
    requires f.row.Some? && f.row.value.status != Running && Chained(f) && (outcome.Succeeded? || pushUp)
    ensures ReplayLog(FinishFacts(id, f, copy, outcome, now, pushUp).trail) == Broken
  {
    match outcome
    case Succeeded(result) => WroteChain(f, id, CompletedRow(copy, result, now), TaskCompleted, Some(Running));
    case Errored(error) =>
      var r := FailedRow(copy, error, now);
      WroteChain(f.(zset := true), id, r, TaskRetryScheduled, Some(Running));
      WroteChain(f.(dlq := f.dlq + 1), id, r, TaskDeadLetter, Some(Running));
  }

  /** As shipped, whatever runs is on its first attempt. */
  lemma FirstAttempts(v: View, id: TaskId, slot: Slot)
    requires Basic(v, id) && OneShot(v) && v.f.row.Some? && slot in v.hands && v.hands[slot].Executing?
    ensures v.hands[slot].copy.attempts == 0 && (v.f.row.value.status == Running ==> v.f.row.value.attempts == 0)
  {
    assert CopyOk(v.hands[slot], id, v.f.row.value);
  }

  lemma ChainedService(c: Config, now: int, id: TaskId, v: View, step: Step)
    requires v.f.row.Some? && Chained(v.f) && LocalEnabled(v, id, step)
    requires step.Repair? || step.Replay? || step.Cancel? || step.ReleaseOne?
    ensures Chained(LocalNext(c, now, id, v, step).f)
  {
    var r := v.f.row.value;
    match step
    case Repair(_, up) => RepairChains(id, v.f, r, now, up);
    case Replay(_, up) => ReplayChains(id, v.f, r, up);
    case Cancel(_, markUp, removeUp) => CancelChains(id, v.f, r, now, markUp, removeUp);
    case ReleaseOne(_, up) => ReleaseChains(c, id, v.f, r, up);
  }

  lemma ChainedStep(c: Config, now: int, id: TaskId, v: View, step: Step)
    requires Basic(v, id) && OneShot(v) && Chained(v.f) && LocalEnabled(v, id, step)
    ensures var f' := LocalNext(c, now, id, v, step).f;
      if StaleReport(v, step) then ReplayLog(f'.trail) == Broken else Chained(f')
  {
    match step
    case Submit(q, _, wait, up) => SubmitChains(id, v.f, q, now, wait, up);
    case Start(_, worker, checkUp, writeUp) =>
      if v.f.row.Some? { StartChains(id, v.f, worker, now, checkUp, writeUp); }
    case Finish(slot, outcome, pushUp, _) =>
      FirstAttempts(v, id, slot);
      if StaleReport(v, step) {
        StaleReportBreaks(id, v.f, v.hands[slot].copy, outcome, now, pushUp);
      } else if v.f.row.value.status == Running {
        FinishChains(id, v.f, v.hands[slot].copy, outcome, now, pushUp);
      }
    case SweepOne(_, pushUp, _) =>
      if v.f.row.Some? && Overdue(v.f.row.value, now) {
        ResolveChains(id, v.f, TimedOutRow(v.f.row.value, now), TaskRequeuedTimeout, pushUp);
      }
    case Claim(_) =>
    case Dequeue(_) =>
    case Crash(_, _) =>
    case Tick(_) =>
    case _ => if v.f.row.Some? { ChainedService(c, now, id, v, step); }
  }

  lemma {:induction false} BrokenStays(a: seq<Event>, b: seq<Event>)
    requires a <= b && ReplayLog(a) == Broken
    ensures ReplayLog(b) == Broken
  {
    if |a| < |b| {
      BrokenStays(a, b[..|b| - 1]);
    } else {
      assert a == b;
    }
  }

  // ---------------------------------------------------------------- over whole runs

  /** The step is a stale report on this task. */
  ghost predicate Stale(st: State, step: Step, id: TaskId)
    requires Enabled(st, step)
  {
    Focus(st, step) == Some(id) && StaleReport(ViewOf(st, id), step)
  }

  /** No worker reports on the task over a row that is not RUNNING. */
  ghost predicate NeverStale(st: State, steps: seq<Step>, id: TaskId)
    requires ValidRun(st, steps, ANY)
    decreases |steps|
  {
    steps == [] || (!Stale(st, steps[0], id) && NeverStale(Next(st, steps[0]), steps[1..], id))
  }

  ghost predicate ChainedAt(st: State, id: TaskId) {
    Chained(FactsOf(st.store, id))
  }

  lemma ChainedNext(st: State, step: Step, id: TaskId)
    requires ShippedAt(st, id) && ChainedAt(st, id) && Enabled(st, step)
    ensures var next := Next(st, step);
      if Stale(st, step, id) then ReplayLog(Trail(next.store.log, id)) == Broken else ChainedAt(next, id)
  {
    StepEffect(st, step, id);
    if Focus(st, step) == Some(id) {
      ChainedStep(st.config, st.now, id, ViewOf(st, id), step);
    }
  }

  lemma {:induction false} BrokenRun(st: State, steps: seq<Step>, id: TaskId)
    requires ValidRun(st, steps, ANY) && ReplayLog(Trail(st.store.log, id)) == Broken
    ensures ReplayLog(Trail(Run(st, steps, ANY).store.log, id)) == Broken
    decreases |steps|
  {
    if steps != [] {
      var next := Next(st, steps[0]);
      StepEffect(st, steps[0], id);
      if Focus(st, steps[0]) == Some(id) {
        TrailOnlyGrows(st.config, st.now, id, ViewOf(st, id), steps[0]);
      }
      assert ViewOf(st, id).f.trail <= ViewOf(next, id).f.trail;
      BrokenStays(Trail(st.store.log, id), Trail(next.store.log, id));
      BrokenRun(next, steps[1..], id);
    }
  }

  lemma {:induction false} ChainedRunIff(st: State, steps: seq<Step>, id: TaskId)
    requires ShippedAt(st, id) && ChainedAt(st, id) && ValidRun(st, steps, ANY)
    ensures var end := Run(st, steps, ANY);
      if NeverStale(st, steps, id) then ChainedAt(end, id) else ReplayLog(Trail(end.store.log, id)) == Broken
    decreases |steps|
  {
    if steps != [] {
      ChainedNext(st, steps[0], id);
      ShippedNext(st, steps[0], id);
      if Stale(st, steps[0], id) {
        BrokenRun(Next(st, steps[0]), steps[1..], id);
      } else {
        ChainedRunIff(Next(st, steps[0]), steps[1..], id);
      }
    }
  }

  /**
   * In any run of the shipped code, the trail of a task rebuilds its status and attempts if and only if no worker ever
   * reported the end of its run over a row that was not RUNNING any more; otherwise the chain is broken for good.
   */
  lemma LogReplaysIff(c: Config, levels: nat, steps: seq<Step>, id: TaskId)
    requires 0 < levels && !c.redelivers && ValidRun(Init(c, levels), steps, ANY)
    ensures var st, kept := Run(Init(c, levels), steps, ANY), NeverStale(Init(c, levels), steps, id);
      id in st.store.rows ==>
        var account, r := ReplayLog(Trail(st.store.log, id)), st.store.rows[id];
        (kept <==> account == Alive(r.status, r.attempts)) && (!kept <==> account == Broken)
  {
    InitInv(ANY, c, levels);
    assert GoodAt(ANY, Init(c, levels), id);
    ChainedRunIff(Init(c, levels), steps, id);
  }
}
