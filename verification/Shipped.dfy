/**
 * The shipped code in any run: a task with at least two attempts in its budget gets one ready entry in its life,
 * is never dead-lettered, and never runs again once it has failed.
 */
module Shipped {
  import opened Domain
  import opened Protocol
  import opened Machine
  import opened Views
  import opened Local
  import opened Invariants
  import opened Delivery
  import opened Audit
  import opened Reachability
  import opened Marks
  import opened Escapes
  import opened Results
  import opened Prelude

  // ---------------------------------------------------------------- the invariant

  /** One pointer at most, and only for the first attempt. */
  predicate OneShot(v: View) {
    v.f.row.Some? && v.f.row.value.maxRetries >= 2 ==>
      var row := v.f.row.value;
      && v.f.waiting + |v.hands| <= 1
      && row.status != DeadLetter
      && (row.status == Running ==> row.attempts == 0)
      && (forall slot :: slot in v.hands && v.hands[slot].Executing? ==> v.hands[slot].copy.attempts == 0)
      && (v.f.waiting > 0 || HeldView(v) ==> row.attempts == 0 && row.status != Running)
  }

  /** Off the ready lists and out of hand, for good. */
  predicate AtRest(v: View) {
    && v.f.row.Some? && v.f.row.value.maxRetries >= 2
    && v.f.waiting == 0 && !HeldView(v)
    && (var status := v.f.row.value.status; status == Queued || status == Cancelled || status == Completed)
  }

  /** A task whose trail holds a retry is at rest. */
  predicate RestsAfterRetry(v: View) {
    forall i :: 0 <= i < |v.f.trail| && IsRetry(v.f.trail[i].kind) ==> AtRest(v)
  }

  lemma OneShotService(c: Config, now: int, id: TaskId, v: View, step: Step)
    requires Basic(v, id) && OneShot(v) && v.f.row.Some? && LocalEnabled(v, id, step) && !c.redelivers
    requires !step.Submit? && !step.Dequeue? && !step.Start? && !step.Finish? && !step.Crash?
    ensures OneShot(LocalNext(c, now, id, v, step))
  {
    var v' := LocalNext(c, now, id, v, step);
    assert v'.hands == v.hands;
  }

  lemma OneShotStart(id: TaskId, v: View, slot: Slot, worker: string, now: int, checkUp: bool, writeUp: bool)
    requires OneShot(v) && v.f.row.Some? && slot in v.hands && v.hands[slot] == Held(id)
    ensures OneShot(StartView(v, id, slot, worker, now, checkUp, writeUp))
  {
    if v.f.row.value.maxRetries >= 2 {
      OneHand(v.hands, slot);
      assert HeldView(v);
    }
  }

  lemma OneShotFinish(id: TaskId, v: View, slot: Slot, outcome: Outcome, now: int, pushUp: bool)
    requires Basic(v, id) && OneShot(v) && v.f.row.Some? && slot in v.hands && v.hands[slot].Executing?
    ensures OneShot(v.(f := FinishFacts(id, v.f, v.hands[slot].copy, outcome, now, pushUp), hands := v.hands - {slot}))
  {
    assert CopyOk(v.hands[slot], id, v.f.row.value);
    FinishedStatus(id, v.f, v.hands[slot].copy, outcome, now, pushUp);
    if v.f.row.value.maxRetries >= 2 {
      OneHand(v.hands, slot);
    }
  }

  lemma OneShotCrash(v: View, slot: Slot)
    requires OneShot(v) && v.f.row.Some? && slot in v.hands
    ensures OneShot(v.(hands := v.hands - {slot}))
  {
    if v.f.row.value.maxRetries >= 2 {
      OneHand(v.hands, slot);
    }
  }

  lemma OneShotStep(c: Config, now: int, id: TaskId, v: View, step: Step)
    requires Basic(v, id) && OneShot(v) && LocalEnabled(v, id, step) && !c.redelivers
    ensures OneShot(LocalNext(c, now, id, v, step))
  {
    if v.f.row.Some? {
      match step
      case Dequeue(slot) =>
      case Start(slot, worker, checkUp, writeUp) => OneShotStart(id, v, slot, worker, now, checkUp, writeUp);
      case Finish(slot, outcome, pushUp, _) => OneShotFinish(id, v, slot, outcome, now, pushUp);
      case Crash(slot, _) => OneShotCrash(v, slot);
      case _ => OneShotService(c, now, id, v, step);
    }
  }

  // ---------------------------------------------------------------- rest after a retry

  lemma AtRestFinish(id: TaskId, v: View, slot: Slot, outcome: Outcome, now: int, pushUp: bool)
    requires Basic(v, id) && OneShot(v) && AtRest(v) && slot in v.hands && v.hands[slot].Executing?
    ensures AtRest(v.(f := FinishFacts(id, v.f, v.hands[slot].copy, outcome, now, pushUp), hands := v.hands - {slot}))
  {
    assert CopyOk(v.hands[slot], id, v.f.row.value);
    FinishedStatus(id, v.f, v.hands[slot].copy, outcome, now, pushUp);
    OneHand(v.hands, slot);
  }

  lemma AtRestService(c: Config, now: int, id: TaskId, v: View, step: Step)
    requires Basic(v, id) && AtRest(v) && LocalEnabled(v, id, step) && !c.redelivers
    requires step.Repair? || step.Replay? || step.Cancel? || step.ReleaseOne? || step.SweepOne? || step.Claim?
    ensures AtRest(LocalNext(c, now, id, v, step))
  {
    assert LocalNext(c, now, id, v, step).hands == v.hands;
  }

  lemma AtRestStep(c: Config, now: int, id: TaskId, v: View, step: Step)
    requires Basic(v, id) && OneShot(v) && AtRest(v) && LocalEnabled(v, id, step) && !c.redelivers
    ensures AtRest(LocalNext(c, now, id, v, step))
  {
    match step
    case Submit(_, _, _, _) =>
    case Dequeue(_) =>
    case Start(_, _, _, _) =>
    case Finish(slot, outcome, pushUp, _) => AtRestFinish(id, v, slot, outcome, now, pushUp);
    case Crash(slot, _) => OneHand(v.hands, slot);
    case Tick(_) =>
    case _ => AtRestService(c, now, id, v, step);
  }

  /** Whatever was logged on top of `trail` is no retry. */
  predicate NoRetrySince(trail: seq<Event>, now: seq<Event>) {
    forall i :: |trail| <= i < |now| ==> !IsRetry(now[i].kind)
  }

  lemma SubmitRetriesNothing(id: TaskId, f: Facts, q: Request, now: int, later: int, up: bool)
    ensures NoRetrySince(f.trail, SubmitFacts(id, f, q, now, later, up).trail)
  {}

  lemma StartRetriesNothing(id: TaskId, f: Facts, worker: string, now: int, checkUp: bool, writeUp: bool)
    ensures NoRetrySince(f.trail, StartFacts(id, f, worker, now, checkUp, writeUp).trail)
  {}

  lemma ServiceRetriesNothing(c: Config, id: TaskId, f: Facts, r: Row, now: int, up: bool, removeUp: bool)
    ensures NoRetrySince(f.trail, RepairFacts(id, f, r, now, up).trail)
    ensures NoRetrySince(f.trail, ReplayFacts(id, f, r, up).trail)
    ensures NoRetrySince(f.trail, CancelFacts(id, f, r, now, up, removeUp).trail)
    ensures NoRetrySince(f.trail, ReleaseFacts(c, id, f, r, up).trail)
  {}

  /** Only a failed or a timed-out run is retried. */
  lemma OthersRetryNothing(c: Config, now: int, id: TaskId, v: View, step: Step)
    requires v.f.row.Some? && LocalEnabled(v, id, step) && !step.Finish? && !step.SweepOne?
    ensures NoRetrySince(v.f.trail, LocalNext(c, now, id, v, step).f.trail)
  {
    var r := v.f.row.value;
    match step
    case Repair(_, up) => ServiceRetriesNothing(c, id, v.f, r, now, up, true);
    case Replay(_, up) => ServiceRetriesNothing(c, id, v.f, r, now, up, true);
    case ReleaseOne(_, up) => ServiceRetriesNothing(c, id, v.f, r, now, up, true);
    case Cancel(_, markUp, removeUp) => ServiceRetriesNothing(c, id, v.f, r, now, markUp, removeUp);
    case Start(_, worker, checkUp, writeUp) => StartRetriesNothing(id, v.f, worker, now, checkUp, writeUp);
    case _ =>
  }

  /** A run that is retried leaves its task at rest. */
  predicate RetryRests(v: View, v': View) {
    NoRetrySince(v.f.trail, v'.f.trail) || AtRest(v')
  }

  lemma FailureRests(id: TaskId, v: View, slot: Slot, outcome: Outcome, now: int, pushUp: bool)
    requires Basic(v, id) && OneShot(v) && v.f.row.Some? && slot in v.hands && v.hands[slot].Executing?
    ensures RetryRests(v,
      v.(f := FinishFacts(id, v.f, v.hands[slot].copy, outcome, now, pushUp), hands := v.hands - {slot}))
  {
    assert CopyOk(v.hands[slot], id, v.f.row.value);
    FinishedStatus(id, v.f, v.hands[slot].copy, outcome, now, pushUp);
    if v.f.row.value.maxRetries >= 2 {
      OneHand(v.hands, slot);
    }
  }

  lemma TimeoutRests(id: TaskId, v: View, now: int, pushUp: bool)
    requires Basic(v, id) && OneShot(v) && v.f.row.Some?
    ensures RetryRests(v, v.(f := SweepFacts(id, v.f, v.f.row.value, now, pushUp)))
  {}

  lemma RestStep(c: Config, now: int, id: TaskId, v: View, step: Step)
    requires Basic(v, id) && OneShot(v) && RestsAfterRetry(v) && LocalEnabled(v, id, step) && !c.redelivers
    ensures RestsAfterRetry(LocalNext(c, now, id, v, step))
  {
    var v' := LocalNext(c, now, id, v, step);
    TrailOnlyGrows(c, now, id, v, step);
    if AtRest(v) {
      AtRestStep(c, now, id, v, step);
    } else if v.f.row.None? {
      if step.Submit? { SubmitRetriesNothing(id, v.f, step.request, now, now + step.wait, step.up); }
    } else {
      match step
      case Finish(slot, outcome, pushUp, _) => FailureRests(id, v, slot, outcome, now, pushUp);
      case SweepOne(_, pushUp, _) => TimeoutRests(id, v, now, pushUp);
      case _ => OthersRetryNothing(c, now, id, v, step);
    }
  }

  // ---------------------------------------------------------------- over whole runs

  ghost predicate ShippedAt(st: State, id: TaskId) {
    && !st.config.redelivers && GoodAt(ANY, st, id)
    && OneShot(ViewOf(st, id)) && RestsAfterRetry(ViewOf(st, id))
  }

  lemma SettledKeepsShipped(v: View, used: bool)
    ensures OneShot(v) ==> OneShot(Settled(v, used))
    ensures RestsAfterRetry(v) ==> RestsAfterRetry(Settled(v, used))
  {}

  lemma ShippedNext(st: State, step: Step, id: TaskId)
    requires ShippedAt(st, id) && Enabled(st, step)
    ensures ShippedAt(Next(st, step), id)
  {
    var v := ViewOf(st, id);
    GoodAtNext(ANY, st, step, id);
    StepEffect(st, step, id);
    if Focus(st, step) == Some(id) {
      OneShotStep(st.config, st.now, id, v, step);
      RestStep(st.config, st.now, id, v, step);
      SettledKeepsShipped(LocalNext(st.config, st.now, id, v, step), LocalUsesPointer(v, id, step));
      SettledKeepsShipped(v, false);
    }
  }

  lemma {:induction false} ShippedRun(st: State, steps: seq<Step>, id: TaskId)
    requires ShippedAt(st, id) && ValidRun(st, steps, ANY)
    ensures ShippedAt(Run(st, steps, ANY), id)
    decreases |steps|
  {
    if steps != [] {
      ShippedNext(st, steps[0], id);
      ShippedRun(Next(st, steps[0]), steps[1..], id);
    }
  }

  lemma ShippedReachable(st: State, id: TaskId)
    requires Reachable(ANY, st) && !st.config.redelivers
    ensures ShippedAt(st, id)
  {
    var c: Config, levels: nat, steps: seq<Step> :|
      0 < levels && ValidRun(Init(c, levels), steps, ANY) && st == Run(Init(c, levels), steps, ANY);
    InitInv(ANY, c, levels);
    RunInv(ANY, Init(c, levels), steps);
    assert GoodAt(ANY, Init(c, levels), id);
    ShippedRun(Init(c, levels), steps, id);
  }

  // ---------------------------------------------------------------- what it comes to

  /**
   * As shipped, in any run, a task with at least two attempts in its budget occurs at most once over all ready lists
   * and workers, so two live workers never run it together.
   */
  lemma OnePointerIfRetriable(st: State, id: TaskId)
    requires Reachable(ANY, st) && !st.config.redelivers && id in st.store.rows && st.store.rows[id].maxRetries >= 2
    ensures Copies(st.store.redis.ready, id) + |HandsOf(st.workers, id)| <= 1
    ensures forall a, b :: a in st.workers && b in st.workers && st.workers[a].id == st.workers[b].id == id ==> a == b
  {
    ShippedReachable(st, id);
    var v := ViewOf(st, id);
    forall a, b | a in st.workers && b in st.workers && st.workers[a].id == st.workers[b].id == id ensures a == b {
      assert a in v.hands && b in v.hands;
      OneHand(v.hands, a);
    }
  }

  /** As shipped, in any run, only a task with at most one execution in its budget can reach the dead-letter queue. */
  lemma DeadLetterNeedsUnitBudget(st: State, id: TaskId)
    requires Reachable(ANY, st) && !st.config.redelivers
    requires id in st.store.rows && st.store.rows[id].status == DeadLetter
    ensures st.store.rows[id].maxRetries <= 1
  {
    ShippedReachable(st, id);
  }

  /** As shipped, a failed run is dead-lettered exactly when its task's budget is one execution. */
  lemma FailureIsDeadLetteredIff(st: State, slot: Slot, error: string, clearUp: bool)
    requires slot in st.workers && st.workers[slot].Executing? && Reachable(ANY, st) && !st.config.redelivers
    ensures var f' := FactsOf(Next(st, Finish(slot, Errored(error), true, clearUp)).store, st.workers[slot].id);
      && f'.row.Some?
      && (f'.row.value.status == DeadLetter <==> f'.row.value.maxRetries <= 1)
      && (f'.row.value.status == Queued <==> f'.row.value.maxRetries > 1)
  {
    var id, v := st.workers[slot].id, ViewOf(st, st.workers[slot].id);
    ShippedReachable(st, id);
    assert slot in v.hands;
    assert CopyOk(v.hands[slot], id, v.f.row.value);
    StepEffect(st, Finish(slot, Errored(error), true, clearUp), id);
    FailedRowBudget(id, v.f, st.workers[slot].copy, error, st.now);
  }

  lemma FailedRowBudget(id: TaskId, f: Facts, copy: Row, error: string, now: int)
    requires f.row.Some? && RowOk(copy) && copy.status == Running && (copy.maxRetries >= 2 ==> copy.attempts == 0)
    ensures var g := FinishFacts(id, f, copy, Errored(error), now, true);
      && g.row.Some? && g.row.value.maxRetries == copy.maxRetries
      && g.row.value.status == if copy.maxRetries <= 1 then DeadLetter else Queued
  {}

  /**
   * The retry promise, as shipped: once a retry or a timeout requeue has been logged for a task, no run whatever logs
   * another start of it.
   */
  lemma RetriedNeverStartsAgain(st: State, steps: seq<Step>, id: TaskId, i: nat)
    requires Reachable(ANY, st) && !st.config.redelivers && ValidRun(st, steps, ANY)
    requires i < |Trail(st.store.log, id)| && IsRetry(Trail(st.store.log, id)[i].kind)
    ensures Starts(Run(st, steps, ANY), id) == Starts(st, id)
  {
    ShippedReachable(st, id);
    ReachableInv(ANY, st);
    RestIsClosed(ViewOf(st, id), id);
    ClosedRun(st, steps, id);
  }

  lemma RestIsClosed(v: View, id: TaskId)
    requires Basic(v, id) && OneShot(v) && AtRest(v)
    ensures Closed(v)
  {
    assert HeldSlots(v.hands) == {};
    NothingSpent(v, id);
  }

  lemma NothingSpent(v: View, id: TaskId)
    requires Basic(v, id) && OneShot(v) && v.f.row.Some? && v.f.row.value.maxRetries >= 2
    ensures SpentSlots(v.hands) == {}
  {
    forall slot | slot in v.hands && v.hands[slot].Executing? ensures CanRetryOnceMore(v.hands[slot].copy) {
      assert CopyOk(v.hands[slot], id, v.f.row.value);
    }
  }

  /**
   * As shipped, in any run, a cancel mark on a task with at least two attempts in its budget is final: no start of
   * it is
   * logged after.
   */
  lemma MarkIsFinalIfRetriable(st: State, steps: seq<Step>, id: TaskId)
    requires Reachable(ANY, st) && !st.config.redelivers && ValidRun(st, steps, ANY)
    requires id in st.store.rows && st.store.rows[id].maxRetries >= 2 && id in st.store.redis.cancelled
    ensures Starts(Run(st, steps, ANY), id) == Starts(st, id)
  {
    ShippedReachable(st, id);
    ReachableInv(ANY, st);
    var v := ViewOf(st, id);
    NothingSpent(v, id);
    HandsSplit(v.hands);
    ClosedRun(st, steps, id);
  }

  lemma HandsSplit(hands: map<Slot, Worker>)
    ensures |HeldSlots(hands)| + |SpareSlots(hands)| <= |hands|
  {
    assert HeldSlots(hands) !! SpareSlots(hands);
    assert HeldSlots(hands) + SpareSlots(hands) <= hands.Keys;
    SetSize(HeldSlots(hands) + SpareSlots(hands), hands.Keys);
  }

  // ---------------------------------------------------------------- a second pointer

  /** Some run from here gives the task a second pointer: two ready entries or workers at once. */
  ghost predicate DoublesLater(st: State, id: TaskId) {
    exists steps :: ValidRun(st, steps, ANY) && Doubled(Run(st, steps, ANY), id)
  }

  predicate Doubled(st: State, id: TaskId) {
    Copies(st.store.redis.ready, id) + |HandsOf(st.workers, id)| >= 2
  }

  lemma HandOfLive(st: State, id: TaskId)
    requires Live(st, id)
    ensures HandsOf(st.workers, id) != map[]
  {
    var slot :| slot in st.workers && st.workers[slot].id == id && st.workers[slot].Executing?;
    assert slot in HandsOf(st.workers, id);
  }

  /** A live run whose budget is one execution is timed out, and the task replayed beside it. */
  lemma TimedOutBeside(st: State, id: TaskId) returns (steps: seq<Step>)
    requires Inv(ANY, st) && id in st.store.rows && st.store.rows[id].status == Running
    requires st.store.rows[id].maxRetries <= 1 && Live(st, id)
    ensures ValidRun(st, steps, ANY) && Doubled(Run(st, steps, ANY), id)
  {
    assert GoodAt(ANY, st, id);
    var r := st.store.rows[id];
    var wait := if r.startedAt.value + r.timeoutSeconds + 31 > st.now
                then r.startedAt.value + r.timeoutSeconds + 31 - st.now else 0;
    var late := Next(st, Tick(wait));
    SweptDead(late, id);
    HandOfLive(st, id);
    var dead := Next(late, SweepOne(id, true, true));
    ReplayedBeside(dead, id);
    RunsOnward(dead, Replay(id, true), [], ANY);
    RunsOnward(late, SweepOne(id, true, true), [Replay(id, true)] + [], ANY);
    RunsOnward(st, Tick(wait), [SweepOne(id, true, true)] + ([Replay(id, true)] + []), ANY);
    steps := [Tick(wait)] + ([SweepOne(id, true, true)] + ([Replay(id, true)] + []));
  }

  lemma SweptDead(st: State, id: TaskId)
    requires id in st.store.rows && Overdue(st.store.rows[id], st.now)
    requires st.store.rows[id].attempts + 1 >= st.store.rows[id].maxRetries
    ensures var next := Next(st, SweepOne(id, true, true));
      && id in next.store.rows && next.store.rows[id].status == DeadLetter
      && Copies(next.store.redis.ready, id) == Copies(st.store.redis.ready, id)
      && HandsOf(next.workers, id) == HandsOf(st.workers, id)
  {
    TimeoutIsBuried(st.store, id, st.now, true);
    assert Next(st, SweepOne(id, true, true)).store == SweepTask(st.store, id, st.now, true, true).0;
  }

  lemma ReplayedBeside(st: State, id: TaskId)
    requires id in st.store.rows && st.store.rows[id].status == DeadLetter && HandsOf(st.workers, id) != map[]
    ensures Doubled(Next(st, Replay(id, true)), id)
  {
    StepEffect(st, Replay(id, true), id);
    assert FactsOf(Next(st, Replay(id, true)).store, id)
        == ReplayFacts(id, FactsOf(st.store, id), st.store.rows[id], true);
    var hands := HandsOf(st.workers, id);
    var slot :| slot in hands;
    assert hands.Keys != {};
  }

  /**
   * Pointer uniqueness without the discipline, exactly: as shipped, from a state in which a live worker runs a task
   * some
   * run gives the task a second pointer if and only if its budget is one execution.
   */
  lemma SecondPointerIff(st: State, id: TaskId)
    requires Reachable(ANY, st) && !st.config.redelivers
    requires id in st.store.rows && st.store.rows[id].status == Running && Live(st, id)
    ensures DoublesLater(st, id) <==> st.store.rows[id].maxRetries <= 1
  {
    ReachableInv(ANY, st);
    ShippedReachable(st, id);
    if st.store.rows[id].maxRetries <= 1 {
      var steps := TimedOutBeside(st, id);
    } else if DoublesLater(st, id) {
      var steps :| ValidRun(st, steps, ANY) && Doubled(Run(st, steps, ANY), id);
      ShippedRun(st, steps, id);
      RequestIsKept(st, steps, id);
    }
  }
}
