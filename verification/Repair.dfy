/** The enqueue-failure reconciler empties ENQUEUE_FAILED batch by batch, and what it repairs is deliverable. */
module Repair {
  import opened Prelude
  import opened Domain
  import opened ScheduledSet
  import opened Protocol
  import opened Machine
  import opened Views
  import opened Local
  import opened Invariants
  import opened Reachability
  import opened Conservation
  import opened Listing

  lemma WholeTable(s: Store, status: Status)
    requires KeysInjective(s)
    ensures InPrefix(s.rows, s.order, status) == InStatus(s.rows, status)
  {}

  lemma RepairMoves(s: Store, id: TaskId, now: int)
    requires id in s.rows && s.rows[id].status == EnqueueFailed
    ensures var (s', ok) := RepairTask(s, id, now, true);
      && ok
      && (forall j :: j in s.rows && j != id ==> j in s'.rows && s'.rows[j] == s.rows[j])
      && s'.rows.Keys == s.rows.Keys && s'.order == s.order
      && s'.rows[id].status == (if IsFuture(s.rows[id].scheduledAt, now) then Scheduled else Queued)
      && s'.rows[id].key == s.rows[id].key
  {}

  lemma {:induction false} RepairsAll(s: Store, ids: seq<TaskId>, clock: Clock, up: set<TaskId>)
    requires Distinct(ids) && Members(ids) <= InStatus(s.rows, EnqueueFailed) && Members(ids) <= up
    requires KeysInjective(s)
    ensures var (s', count) := RepairAll(s, ids, clock, up);
      && count == |ids|
      && InStatus(s'.rows, EnqueueFailed) == InStatus(s.rows, EnqueueFailed) - Members(ids)
      && KeysInjective(s')
    decreases |ids|
  {
    if ids != [] {
      var rest := ids[1..];
      assert [ids[0]] + rest == ids;
      MembersOfCons(ids[0], rest);
      assert ids[0] !in Members(rest);
      RepairMoves(s, ids[0], clock(ids[0]));
      var s1 := RepairTask(s, ids[0], clock(ids[0]), true).0;
      assert InStatus(s1.rows, EnqueueFailed) == InStatus(s.rows, EnqueueFailed) - {ids[0]};
      RepairsAll(s1, rest, clock, up);
    }
  }

  /**
   * Successive runs of the reconciler with Redis accepting every call; `clocks(k)` is the clock of the run with k to
   * go.
   */
  function RepairRuns(s: Store, runs: nat, clocks: nat -> Clock, batch: nat, up: set<TaskId>): Store
    decreases runs
  {
    if runs == 0 then s
    else RepairRuns(ReconcileEnqueueFailed(s, clocks(runs), batch, up).0, runs - 1, clocks, batch, up)
  }

  lemma OneRunShrinks(s: Store, clock: Clock, batch: nat, up: set<TaskId>)
    requires KeysInjective(s) && InStatus(s.rows, EnqueueFailed) <= up
    ensures var s' := ReconcileEnqueueFailed(s, clock, batch, up).0;
      && KeysInjective(s')
      && InStatus(s'.rows, EnqueueFailed) <= InStatus(s.rows, EnqueueFailed)
      && |InStatus(s'.rows, EnqueueFailed)| == Max(0, |InStatus(s.rows, EnqueueFailed)| - batch)
  {
    var ids := ListByStatus(s.rows, s.order, EnqueueFailed, batch);
    ListingIsFull(s.rows, s.order, EnqueueFailed, batch);
    WholeTable(s, EnqueueFailed);
    RepairsAll(s, ids, clock, up);
    assert ReconcileEnqueueFailed(s, clock, batch, up).0 == RepairAll(s, ids, clock, up).0;
    MembersCount(ids);
    SizeOfRest(InStatus(s.rows, EnqueueFailed), Members(ids));
  }

  /** Each run takes one batch off the failed enqueues, down to none. */
  lemma {:induction false} RunsShrink(s: Store, runs: nat, clocks: nat -> Clock, batch: nat, up: set<TaskId>)
    requires KeysInjective(s) && InStatus(s.rows, EnqueueFailed) <= up
    ensures |InStatus(RepairRuns(s, runs, clocks, batch, up).rows, EnqueueFailed)|
         == Max(0, |InStatus(s.rows, EnqueueFailed)| - runs * batch)
    decreases runs
  {
    if runs > 0 {
      OneRunShrinks(s, clocks(runs), batch, up);
      var s1 := ReconcileEnqueueFailed(s, clocks(runs), batch, up).0;
      RunsShrink(s1, runs - 1, clocks, batch, up);
      StepDown(|InStatus(s.rows, EnqueueFailed)|, batch, runs - 1);
    }
  }

  lemma StepDown(n: nat, batch: nat, k: nat)
    ensures Max(0, Max(0, n - batch) - k * batch) == Max(0, n - (1 + k) * batch)
  {}

  lemma SizeOfRest(all: set<TaskId>, part: set<TaskId>)
    requires part <= all
    ensures |all - part| == |all| - |part|
  {}

  /** With n failed enqueues and nothing new, ceil(n / batch) runs leave none, and fewer runs do not. */
  lemma RepairEmptiesFailed(st: State, runs: nat, clocks: nat -> Clock, batch: nat, up: set<TaskId>)
    requires Reachable(ANY, st) && 0 < batch && InStatus(st.store.rows, EnqueueFailed) <= up
    ensures InStatus(RepairRuns(st.store, runs, clocks, batch, up).rows, EnqueueFailed) == {}
       <==> runs >= CeilDiv(|InStatus(st.store.rows, EnqueueFailed)|, batch)
  {
    var n := |InStatus(st.store.rows, EnqueueFailed)|;
    ReachableKeys(st);
    RunsShrink(st.store, runs, clocks, batch, up);
    CeilDivBounds(n, batch);
    CeilDivIsLeast(n, batch, runs);
  }

  lemma CeilDivIsLeast(n: nat, d: nat, k: nat)
    requires 0 < d
    ensures k * d >= n <==> k >= CeilDiv(n, d)
  {
    CeilDivBounds(n, d);
    var q := CeilDiv(n, d);
    if k >= q {
      TimesOrder(q, k, d);
    } else if n > 0 {
      TimesOrder(k, q - 1, d);
    } else {
      SmallQuotient(d);
    }
  }

  lemma SmallQuotient(d: nat)
    requires 0 < d
    ensures CeilDiv(0, d) == 0
  {}

  lemma TimesOrder(a: int, b: int, d: nat)
    requires a <= b
    ensures a * d <= b * d
  {}

  lemma RepairedFacts(id: TaskId, f: Facts, r: Row, now: int)
    requires f.row == Some(r) && r.status == EnqueueFailed && f.waiting == 0
    ensures var g := RepairFacts(id, f, r, now, true);
      && g.row.Some?
      && if IsFuture(r.scheduledAt, now) then g.row.value.status == Scheduled && g.zset && g.waiting == 0
         else g.row.value.status == Queued && g.waiting == 1
  {}

  /**
   * In every run, a repaired task has exactly one way to a worker, whether or not its due time has passed meanwhile.
   */
  lemma RepairedIsDeliverable(st: State, id: TaskId)
    requires Reachable(ANY, st) && id in st.store.rows && st.store.rows[id].status == EnqueueFailed
    ensures var v' := ViewOf(Next(st, Machine.Repair(id, true)), id);
      && v'.f.row.Some? && v'.hands == map[]
      && (if IsFuture(st.store.rows[id].scheduledAt, st.now)
          then v'.f.row.value.status == Scheduled && v'.f.zset && v'.f.waiting == 0
          else v'.f.row.value.status == Queued && v'.f.waiting == 1)
  {
    ReachableAt(ANY, st, id);
    StepEffect(st, Machine.Repair(id, true), id);
    RepairedFacts(id, ViewOf(st, id).f, st.store.rows[id], st.now);
  }

  // ---------------------------------------------------------------- listed copies

  /**
   * Nothing but a repair of the task changes an ENQUEUE_FAILED row, so while one repair call at a time is at work the
   * copies it listed stay current.
   */
  lemma FailedRowIsStable(st: State, step: Step, id: TaskId)
    requires Reachable(ANY, st) && id in st.store.rows && st.store.rows[id].status == EnqueueFailed
    requires Enabled(st, step) && !(step.Repair? && step.id == id)
    ensures id in Next(st, step).store.rows && Next(st, step).store.rows[id] == st.store.rows[id]
  {
    ReachableAt(ANY, st, id);
    StepEffect(st, step, id);
    if Focus(st, step) == Some(id) {
      FailedViewIsStable(st.config, st.now, id, ViewOf(st, id), step);
    }
    assert FactsOf(Next(st, step).store, id).row == Some(st.store.rows[id]);
  }

  lemma FailedViewIsStable(c: Config, now: int, id: TaskId, v: View, step: Step)
    requires Basic(v, id) && v.f.row.Some? && v.f.row.value.status == EnqueueFailed && LocalEnabled(v, id, step)
    requires !step.Repair?
    ensures LocalNext(c, now, id, v, step).f.row == v.f.row
  {}

  /**
   * Two calls that overlap on a task that is due push it twice: the second enqueues a copy listed before the first
   * did.
   */
  lemma OverlappingRepairsPushTwice(s: Store, id: TaskId, now: int, later: int)
    requires id in s.rows && s.rows[id].status == EnqueueFailed
    requires !IsFuture(s.rows[id].scheduledAt, now) && !IsFuture(s.rows[id].scheduledAt, later)
    ensures var listed := s.rows[id];
      var first := EnqueueTask(s, id, listed, now, true);
      var second := EnqueueTask(first.store, id, listed, later, true);
      first.ok && second.ok && Copies(second.store.redis.ready, id) == Copies(s.redis.ready, id) + 2
  {
    var listed := s.rows[id];
    EnqueueReadyFacts(s, id, listed.priority, id);
    var first := EnqueueTask(s, id, listed, now, true);
    EnqueueReadyFacts(first.store, id, listed.priority, id);
  }
}
