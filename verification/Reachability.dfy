/** The invariants over whole runs of the machine, and what they say about every reachable state. */
module Reachability {
  import opened Prelude
  import opened Domain
  import opened Backoff
  import opened Protocol
  import opened Machine
  import opened Views
  import opened Local
  import opened Invariants
  import opened Delivery
  import opened Audit

  /** A task's invariants: each with the disciplines on this one task that it needs. */
  ghost predicate Good(rules: Rules, c: Config, v: View, id: TaskId) {
    && Basic(v, id) && Tracked(v) && DeathsLogged(v.f)
    && (id in rules.sparesLive ==> Pointers(c, v) && (!c.redelivers ==> DeadEnd(v)))
    && (id in rules.sparesLive && id in rules.sparesCancel ==> Audited(v))
  }

  ghost predicate GoodAt(rules: Rules, st: State, id: TaskId) {
    Good(rules, st.config, ViewOf(st, id), id)
  }

  ghost predicate Inv(rules: Rules, st: State) {
    forall id: TaskId :: GoodAt(rules, st, id)
  }

  lemma {:induction false} NoCopies(lists: seq<seq<TaskId>>, id: TaskId)
    requires forall i :: 0 <= i < |lists| ==> lists[i] == []
    ensures Copies(lists, id) == 0
  {
    if lists != [] {
      NoCopies(lists[1..], id);
    }
  }

  lemma InitInv(rules: Rules, c: Config, levels: nat)
    requires 0 < levels
    ensures Inv(rules, Init(c, levels))
  {
    forall id: TaskId ensures GoodAt(rules, Init(c, levels), id) {
      NoCopies(Init(c, levels).store.redis.ready, id);
      assert ViewOf(Init(c, levels), id) == View(Facts(None, [], 0, false, false, 0), map[], false, false);
    }
  }

  /** The record of being adrift plays no part in the other invariants. */
  lemma SettledKeeps(c: Config, id: TaskId, v: View, used: bool)
    ensures Basic(v, id) && v.f.row.Some? ==> Basic(Settled(v, used), id)
    ensures DeathsLogged(v.f) ==> DeathsLogged(Settled(v, used).f)
    ensures Pointers(c, v) ==> Pointers(c, Settled(v, used))
    ensures DeadEnd(v) ==> DeadEnd(Settled(v, used))
    ensures Audited(v) ==> Audited(Settled(v, used))
  {}

  lemma StepKeepsNone(c: Config, now: int, id: TaskId, v: View, step: Step)
    requires Basic(v, id) && LocalEnabled(v, id, step) && LocalNext(c, now, id, v, step).f.row.None?
    ensures LocalAfter(c, now, id, v, step) == v
  {}

  lemma GoodStep(rules: Rules, c: Config, now: int, id: TaskId, v: View, step: Step)
    requires Good(rules, c, v, id) && LocalEnabled(v, id, step)
    requires id in rules.sparesLive ==> SweepSpares(v, step, now)
    requires id in rules.sparesCancel ==> CancelSpares(v, step)
    ensures Good(rules, c, LocalAfter(c, now, id, v, step), id)
  {
    var v' := LocalNext(c, now, id, v, step);
    if v'.f.row.None? {
      StepKeepsNone(c, now, id, v, step);
    } else {
      BasicStep(c, now, id, v, step);
      DeathsLoggedStep(c, now, id, v, step);
      TrackedStep(c, now, id, v, step);
      SettledKeeps(c, id, v', LocalUsesPointer(v, id, step));
      if id in rules.sparesLive {
        PointersStep(c, now, id, v, step);
        if !c.redelivers {
          DeadEndStep(c, now, id, v, step);
        }
        if id in rules.sparesCancel {
          AuditedStep(c, now, id, v, step);
        }
      }
    }
  }

  lemma NextInv(rules: Rules, st: State, step: Step)
    requires Inv(rules, st) && Enabled(st, step) && Obeys(st, step, rules)
    ensures Inv(rules, Next(st, step))
  {
    forall id: TaskId ensures GoodAt(rules, Next(st, step), id) {
      GoodAtNext(rules, st, step, id);
    }
  }

  /** The invariants of one task need the discipline on that task only. */
  lemma GoodAtNext(rules: Rules, st: State, step: Step, id: TaskId)
    requires GoodAt(rules, st, id) && Enabled(st, step) && Obeys(st, step, rules)
    ensures GoodAt(rules, Next(st, step), id)
  {
    StepEffect(st, step, id);
    if Focus(st, step) == Some(id) {
      ObeysLocally(st, step, rules, id);
      var v := ViewOf(st, id);
      if ViewOf(Next(st, step), id) != Settled(v, false) {
        GoodStep(rules, st.config, st.now, id, v, step);
      }
    }
  }

  lemma {:induction false} RunInv(rules: Rules, st: State, steps: seq<Step>)
    requires Inv(rules, st) && ValidRun(st, steps, rules)
    ensures Inv(rules, Run(st, steps, rules)) && Run(st, steps, rules).config == st.config
    decreases |steps|
  {
    if steps != [] {
      NextInv(rules, st, steps[0]);
      RunInv(rules, Next(st, steps[0]), steps[1..]);
    }
  }

  /** The state is the end of a run from empty stores. */
  ghost predicate Reachable(rules: Rules, st: State) {
    exists c: Config, levels: nat, steps: seq<Step> ::
      0 < levels && ValidRun(Init(c, levels), steps, rules) && st == Run(Init(c, levels), steps, rules)
  }

  lemma ReachableInv(rules: Rules, st: State)
    requires Reachable(rules, st)
    ensures Inv(rules, st)
  {
    var c: Config, levels: nat, steps: seq<Step> :|
      0 < levels && ValidRun(Init(c, levels), steps, rules) && st == Run(Init(c, levels), steps, rules);
    InitInv(rules, c, levels);
    RunInv(rules, Init(c, levels), steps);
  }

  /** A discipline asks at least what another asks. */
  ghost predicate Implies(strong: Rules, weak: Rules) {
    weak.sparesLive <= strong.sparesLive && weak.sparesCancel <= strong.sparesCancel
  }

  lemma {:induction false} RunObeysLess(st: State, steps: seq<Step>, strong: Rules, weak: Rules)
    requires ValidRun(st, steps, strong) && Implies(strong, weak)
    ensures ValidRun(st, steps, weak) && Run(st, steps, weak) == Run(st, steps, strong)
    decreases |steps|
  {
    if steps != [] {
      RunObeysLess(Next(st, steps[0]), steps[1..], strong, weak);
    }
  }

  /** What holds of every state under a discipline holds under a stricter one. */
  lemma StricterReachesLess(st: State, strong: Rules, weak: Rules)
    requires Reachable(strong, st) && Implies(strong, weak)
    ensures Reachable(weak, st)
  {
    var c: Config, levels: nat, steps: seq<Step> :|
      0 < levels && ValidRun(Init(c, levels), steps, strong) && st == Run(Init(c, levels), steps, strong);
    RunObeysLess(Init(c, levels), steps, strong, weak);
  }

  lemma ReachableAt(rules: Rules, st: State, id: TaskId)
    requires Reachable(rules, st)
    ensures Good(rules, st.config, ViewOf(st, id), id)
  {
    ReachableInv(rules, st);
    assert GoodAt(rules, st, id);
  }

  // ---------------------------------------------------------------- every run

  /**
   * Row invariant, with no discipline on the run at all. FAILED is unreachable; a queued or running task has
   * attempts left, a dead letter has none; finish time, result, worker and start time are set exactly where due.
   */
  lemma RowsAreSound(st: State, id: TaskId)
    requires Reachable(ANY, st) && id in st.store.rows
    ensures var r, m := st.store.rows[id], Budget(st.store.rows[id].maxRetries);
      && r.status != Failed && r.status != Pending
      && (r.status == Queued || r.status == Running ==> r.attempts < m)
      && (r.status == DeadLetter ==> r.attempts == m)
      && (r.finishedAt.Some? <==> r.status in {Completed, Cancelled, DeadLetter})
      && (r.result.Some? <==> r.status == Completed)
      && (r.status == Running ==> r.workerId.Some? && r.startedAt.Some?)
  {
    ReachableAt(ANY, st, id);
  }

  /**
   * Delivery coverage, in every run: a scheduled task is in the ZSET or claimed and a queued one in a ready list, a
   * worker's hand, the ZSET or claimed, unless, and only unless, it is on record as adrift. A task that is yet to be
   * enqueued for the first time is in no list and no hand.
   */
  lemma DeliveryCoverage(st: State, id: TaskId)
    requires Reachable(ANY, st) && id in st.store.rows
    ensures var status, redis := st.store.rows[id].status, st.store.redis;
      && (status == Scheduled ==> (id in st.adrift <==> id !in redis.scheduled && id !in st.claimed))
      && (status == Queued ==>
           (id in st.adrift <==>
             Copies(redis.ready, id) == 0 && !InHand(st, id) && id !in redis.scheduled && id !in st.claimed))
      && (status == Scheduled || status == EnqueueFailed ==>
           Copies(redis.ready, id) == 0 && forall slot :: slot in st.workers ==> st.workers[slot].id != id)
  {
    ReachableAt(ANY, st, id);
    HeldIsInHand(st, id);
    assert forall slot :: slot in st.workers && st.workers[slot].id == id ==> slot in ViewOf(st, id).hands;
  }

  /**
   * How a waiting task loses its last pointer: the release loop skips it or raises on it, the check for a cancel mark
   * raises on the worker that popped it, or that worker dies. Nothing else does it.
   */
  lemma LastPointerIsLostOnlyBy(st: State, step: Step, id: TaskId)
    requires Reachable(ANY, st) && Enabled(st, step) && Pointed(st, id)
    requires Awaits(Next(st, step).store, id) && !Pointed(Next(st, step), id)
    ensures Focus(st, step) == Some(id)
    ensures step.ReleaseOne? || (step.Start? && !step.checkUp) || (step.Crash? && st.workers[step.slot].Held?)
  {
    var v, next := ViewOf(st, id), Next(st, step);
    ReachableAt(ANY, st, id);
    StepEffect(st, step, id);
    HeldIsInHand(st, id);
    HeldIsInHand(next, id);
    if Focus(st, step) == Some(id) && !LocalUsesPointer(v, id, step) {
      StillPointed(st.config, st.now, id, v, step);
    }
  }

  /** In every run, an id is on the dead-letter list once for each of its dead-letter events. */
  lemma DlqMatchesLog(st: State, id: TaskId)
    requires Reachable(ANY, st)
    ensures multiset(st.store.redis.dlq)[id] == Count(Trail(st.store.log, id), TaskDeadLetter)
  {
    ReachableAt(ANY, st, id);
  }

  // ---------------------------------------------------------------- runs that spare live workers

  /**
   * Pointer uniqueness: over all ready lists and workers together a task occurs at most once, waits there only
   * when queued or cancelled, and two live workers never run the same task.
   */
  lemma AtMostOnePointer(st: State, id: TaskId)
    requires Reachable(SparesLive(id), st)
    ensures Copies(st.store.redis.ready, id) + |HandsOf(st.workers, id)| <= 1
    ensures id in st.store.rows && (Copies(st.store.redis.ready, id) > 0 || InHand(st, id)) ==>
      st.store.rows[id].status == Queued || st.store.rows[id].status == Cancelled
    ensures forall a, b :: a in st.workers && b in st.workers && st.workers[a].id == st.workers[b].id == id ==> a == b
  {
    ReachableAt(SparesLive(id), st, id);
    var v := ViewOf(st, id);
    if InHand(st, id) && id in st.store.rows {
      var slot :| slot in st.workers && st.workers[slot] == Held(id);
      assert slot in v.hands && HoldOk(v.hands[slot], st.store.rows[id]);
    }
    forall a, b | a in st.workers && b in st.workers && st.workers[a].id == st.workers[b].id == id ensures a == b {
      assert a in v.hands && b in v.hands;
      OneHand(v.hands, a);
    }
  }

  /** A live worker's copy is the row itself, unless the task was cancelled under it. */
  lemma CopyIsRow(st: State, slot: Slot)
    requires slot in st.workers && st.workers[slot].Executing?
    requires Reachable(SparesLive(st.workers[slot].id), st)
    ensures var w := st.workers[slot];
      && w.id in st.store.rows && w.copy.status == Running
      && (st.store.rows[w.id] == w.copy || st.store.rows[w.id].status == Cancelled)
  {
    var id := st.workers[slot].id;
    ReachableAt(SparesLive(id), st, id);
    var v := ViewOf(st, id);
    assert slot in v.hands;
    assert HoldOk(v.hands[slot], st.store.rows[id]) && CopyOk(v.hands[slot], id, st.store.rows[id]);
  }

  /** As shipped, nothing follows a retry event in a task's trail but one cancellation. */
  lemma RetryEndsTrail(st: State, id: TaskId, i: nat, j: nat)
    requires Reachable(SparesLive(id), st) && !st.config.redelivers
    requires i < j < |Trail(st.store.log, id)| && IsRetry(Trail(st.store.log, id)[i].kind)
    ensures j == i + 1 == |Trail(st.store.log, id)| - 1 && Trail(st.store.log, id)[j].kind == TaskCancelled
  {
    ReachableAt(SparesLive(id), st, id);
    DeadEndOfTrail(ViewOf(st, id), i, j);
  }

  lemma DeadEndOfTrail(v: View, i: nat, j: nat)
    requires DeadEnd(v) && i < j < |v.f.trail| && IsRetry(v.f.trail[i].kind)
    ensures j == i + 1 == |v.f.trail| - 1 && v.f.trail[j].kind == TaskCancelled
  {}

  // ---------------------------------------------------------------- row-exclusive runs

  /** Audit-log replay: the events of a task are an unbroken chain that rebuilds its status and attempts. */
  lemma LogReplaysToRow(st: State, id: TaskId)
    requires Reachable(RowExclusive(id), st) && id in st.store.rows
    ensures ReplayLog(Trail(st.store.log, id)) == Alive(st.store.rows[id].status, st.store.rows[id].attempts)
  {
    ReachableAt(RowExclusive(id), st, id);
  }

  /** Dead-letter conservation for one task: besides its dead-letter events, its replays and its present status. */
  lemma DlqMatchesReplays(st: State, id: TaskId)
    requires Reachable(RowExclusive(id), st) && id in st.store.rows
    ensures var t := Trail(st.store.log, id);
      multiset(st.store.redis.dlq)[id] == Count(t, TaskDeadLetter)
        == Count(t, TaskRetried) + if st.store.rows[id].status == DeadLetter then 1 else 0
  {
    ReachableAt(RowExclusive(id), st, id);
  }

  /**
   * Bounded lifetime: with budget m and R manual replays, at most m * (1 + R) starts and
   * 4 + 2 * m * (1 + R) + R events, less what the present status still has to log.
   */
  lemma BoundedLifetime(st: State, id: TaskId)
    requires Reachable(RowExclusive(id), st) && id in st.store.rows
    ensures Bounded(LedgerOf(Trail(st.store.log, id)), st.store.rows[id])
  {
    ReachableAt(RowExclusive(id), st, id);
    LedgerBounds(LedgerOf(Trail(st.store.log, id)), st.store.rows[id], multiset(st.store.redis.dlq)[id]);
  }
}
