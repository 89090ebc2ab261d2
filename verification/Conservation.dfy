/** The audit log only grows, keys never change, and the dead-letter list balances over the whole table. */
module Conservation {
  import opened Prelude
  import opened Domain
  import opened Protocol
  import opened Machine
  import opened Views
  import opened Audit
  import opened Reachability

  /** `after` is `before` with events of one task appended. */
  predicate Extends(before: seq<Event>, after: seq<Event>, id: TaskId) {
    && before <= after
    && forall i :: |before| <= i < |after| ==> after[i].id == id
  }

  predicate DlqGrows(before: seq<TaskId>, after: seq<TaskId>, id: TaskId) {
    after == before || after == [id] + before
  }

  /** Rows come and change only for the task a step acts on, rows never go, and keys stay. */
  predicate RowsGrow(before: map<TaskId, Row>, after: map<TaskId, Row>, id: TaskId) {
    && (forall j :: j in before ==> j in after && after[j].key == before[j].key && (j != id ==> after[j] == before[j]))
    && (forall j :: j in after ==> j in before || j == id)
  }

  predicate Grows(s: Store, s': Store, id: TaskId) {
    && Extends(s.log, s'.log, id)
    && DlqGrows(s.redis.dlq, s'.redis.dlq, id)
    && RowsGrow(s.rows, s'.rows, id)
  }

  lemma EnqueueGrows(s: Store, id: TaskId, row: Row, now: int, up: bool)
    requires id in s.rows
    ensures Grows(s, EnqueueTask(s, id, row, now, up).store, id)
    ensures EnqueueTask(s, id, row, now, up).store.redis.dlq == s.redis.dlq
  {}

  lemma SubmitGrows(c: Config, s: Store, q: Request, id: TaskId, now: int, later: int, up: bool)
    requires id !in s.rows
    ensures Grows(s, SubmitTask(c, s, q, id, now, later, up).0, id)
  {
    var row := NewRow(q, now);
    EnqueueGrows(Commit(s, id, row, TaskSubmitted, None), id, row, later, up);
  }

  lemma RepairGrows(s: Store, id: TaskId, now: int, up: bool)
    ensures Grows(s, RepairTask(s, id, now, up).0, id)
  {}

  lemma ReplayGrows(s: Store, id: TaskId, up: bool)
    ensures Grows(s, ReplayTask(s, id, up).0, id)
  {}

  lemma CancelGrows(s: Store, id: TaskId, now: int, markUp: bool, removeUp: bool)
    ensures Grows(s, CancelTask(s, id, now, markUp, removeUp).0, id)
  {}

  lemma ResolveGrows(s: Store, id: TaskId, r: Row, kind: EventKind, now: int, pushUp: bool)
    requires id in s.rows
    ensures Grows(s, ResolveTask(s, id, r, kind, now, pushUp), id)
  {}

  lemma FinishGrows(s: Store, id: TaskId, copy: Row, outcome: Outcome, now: int, pushUp: bool, clearUp: bool)
    requires id in s.rows
    ensures Grows(s, FinishTask(s, id, copy, outcome, now, pushUp, clearUp), id)
  {}

  lemma StepGrows(st: State, step: Step)
    requires Enabled(st, step) && Focus(st, step).Some?
    requires step.Finish? ==> st.workers[step.slot].id in st.store.rows
    ensures Grows(st.store, Next(st, step).store, Focus(st, step).value)
  {
    match step
    case Submit(q, id, wait, up) => SubmitGrows(st.config, st.store, q, id, st.now, st.now + wait, up);
    case Repair(id, up) => RepairGrows(st.store, id, st.now, up);
    case Replay(id, up) => ReplayGrows(st.store, id, up);
    case Cancel(id, markUp, removeUp) => CancelGrows(st.store, id, st.now, markUp, removeUp);
    case SweepOne(id, pushUp, clearUp) => SweepGrows(st.store, id, st.now, pushUp, clearUp);
    case Finish(slot, outcome, pushUp, clearUp) =>
      FinishGrows(st.store, st.workers[slot].id, st.workers[slot].copy, outcome, st.now, pushUp, clearUp);
    case Start(slot, worker, checkUp, writeUp) => StartGrows(st.store, st.workers[slot].id, worker, st.now, checkUp,
        writeUp);
    case ReleaseOne(id, up) => ReleaseGrows(st.config, st.store, id, up);
    case _ =>
  }

  lemma SweepGrows(s: Store, id: TaskId, now: int, pushUp: bool, clearUp: bool)
    ensures Grows(s, SweepTask(s, id, now, pushUp, clearUp).0, id)
  {
    if id in s.rows {
      ResolveGrows(s, id, TimedOutRow(s.rows[id], now), TaskRequeuedTimeout, now, true);
    }
  }

  lemma StartGrows(s: Store, id: TaskId, worker: string, now: int, checkUp: bool, writeUp: bool)
    ensures Grows(s, StartTask(s, id, worker, now, checkUp, writeUp).0, id)
  {}

  lemma ReleaseGrows(c: Config, s: Store, id: TaskId, up: bool)
    ensures Grows(s, ReleaseTask(c, s, id, up).0, id)
  {}

  // ---------------------------------------------------------------- dead letters over the whole table

  function DeadIds(rows: map<TaskId, Row>): set<TaskId> {
    set id | id in rows && rows[id].status == DeadLetter
  }

  lemma {:induction false} ExtendsCount(before: seq<Event>, after: seq<Event>, id: TaskId, kind: EventKind)
    requires Extends(before, after, id)
    ensures Count(after, kind) - Count(before, kind) == Count(Trail(after, id), kind) - Count(Trail(before, id), kind)
    decreases |after|
  {
    if |before| == |after| {
      assert before == after;
    } else {
      var n := |after| - 1;
      assert after[..n][..|before|] == before;
      ExtendsCount(before, after[..n], id, kind);
      CountAppend(Trail(after[..n], id), after[n], kind);
      CountAppend(after[..n], after[n], kind);
      assert after == after[..n] + [after[n]];
    }
  }

  lemma DeadIdsChange(before: map<TaskId, Row>, after: map<TaskId, Row>, id: TaskId)
    requires RowsGrow(before, after, id)
    ensures |DeadIds(after)| - |DeadIds(before)|
         == (if id in DeadIds(after) then 1 else 0) - (if id in DeadIds(before) then 1 else 0)
  {
    OtherDeadIds(before, after, id);
    SizeWithout(DeadIds(before), id);
    SizeWithout(DeadIds(after), id);
  }

  lemma OtherDeadIds(before: map<TaskId, Row>, after: map<TaskId, Row>, id: TaskId)
    requires RowsGrow(before, after, id)
    ensures DeadIds(before) - {id} == DeadIds(after) - {id}
  {}

  lemma SizeWithout(ids: set<TaskId>, id: TaskId)
    ensures |ids| == |ids - {id}| + if id in ids then 1 else 0
  {}

  lemma DlqChange(before: seq<TaskId>, after: seq<TaskId>, id: TaskId)
    requires DlqGrows(before, after, id)
    ensures |after| - |before| == multiset(after)[id] - multiset(before)[id]
  {}

  /** Dead-letter list length against dead-lettered tasks and manual replays. */
  predicate DlqBalanced(s: Store) {
    |s.redis.dlq| == |DeadIds(s.rows)| + Count(s.log, TaskRetried)
  }

  predicate DlqOf(s: Store, id: TaskId) {
    multiset(s.redis.dlq)[id] == Count(Trail(s.log, id), TaskRetried) + if id in DeadIds(s.rows) then 1 else 0
  }

  lemma AuditedDlq(st: State, id: TaskId)
    requires GoodAt(ROW_EXCLUSIVE, st, id)
    ensures DlqOf(st.store, id)
  {}

  lemma GrowthBalanced(s: Store, s': Store, id: TaskId)
    requires Grows(s, s', id) && DlqOf(s, id) && DlqOf(s', id) && DlqBalanced(s)
    ensures DlqBalanced(s')
  {
    ExtendsCount(s.log, s'.log, id, TaskRetried);
    DeadIdsChange(s.rows, s'.rows, id);
    DlqChange(s.redis.dlq, s'.redis.dlq, id);
  }

  lemma {:induction false} BalancedRun(st: State, steps: seq<Step>)
    requires Inv(ROW_EXCLUSIVE, st) && DlqBalanced(st.store) && ValidRun(st, steps, ROW_EXCLUSIVE)
    ensures DlqBalanced(Run(st, steps, ROW_EXCLUSIVE).store)
    decreases |steps|
  {
    if steps != [] {
      var next := Next(st, steps[0]);
      NextInv(ROW_EXCLUSIVE, st, steps[0]);
      if Focus(st, steps[0]).Some? {
        var id := Focus(st, steps[0]).value;
        assert GoodAt(ROW_EXCLUSIVE, st, id) && GoodAt(ROW_EXCLUSIVE, next, id);
        AuditedDlq(st, id);
        AuditedDlq(next, id);
        FinishHasRow(st, steps[0]);
        StepGrows(st, steps[0]);
        GrowthBalanced(st.store, next.store, id);
      }
      BalancedRun(next, steps[1..]);
    }
  }

  lemma FinishHasRow(st: State, step: Step)
    requires Enabled(st, step) && (Inv(ANY, st) || Inv(ROW_EXCLUSIVE, st))
    ensures step.Finish? ==> st.workers[step.slot].id in st.store.rows
  {
    if step.Finish? {
      var id := st.workers[step.slot].id;
      assert GoodAt(ANY, st, id) || GoodAt(ROW_EXCLUSIVE, st, id);
      assert step.slot in HandsOf(st.workers, id);
    }
  }

  /** The dead-letter list is longer than the number of dead-lettered tasks by exactly the manual replays. */
  lemma DlqConservation(st: State)
    requires Reachable(ROW_EXCLUSIVE, st)
    ensures |st.store.redis.dlq| == |DeadIds(st.store.rows)| + Count(st.store.log, TaskRetried)
  {
    var c: Config, levels: nat, steps: seq<Step> :|
      0 < levels && ValidRun(Init(c, levels), steps, ROW_EXCLUSIVE) && st == Run(Init(c, levels), steps, ROW_EXCLUSIVE);
    InitInv(ROW_EXCLUSIVE, c, levels);
    BalancedRun(Init(c, levels), steps);
  }

  // ---------------------------------------------------------------- idempotent submission

  /** Ids in creation order are the table's ids, each once; keys name at most one task. */
  ghost predicate KeysInjective(s: Store) {
    && (forall id: TaskId :: id in s.rows <==> id in s.order)
    && (forall i, j :: 0 <= i < j < |s.order| ==> s.order[i] != s.order[j])
    && (forall a, b :: a in s.rows && b in s.rows && s.rows[a].key.Some? && s.rows[a].key == s.rows[b].key ==> a == b)
  }

  lemma {:induction false} FindByKeyFinds(rows: map<TaskId, Row>, order: seq<TaskId>, key: string)
    ensures var r := FindByKey(rows, order, key);
      && (r.Some? ==> r.value in rows && r.value in order && rows[r.value].key == Some(key))
      && (r.None? ==> forall id :: id in order && id in rows ==> rows[id].key != Some(key))
  {
    if order != [] {
      var last := |order| - 1;
      FindByKeyFinds(rows, order[..last], key);
      assert forall id :: id in order <==> id in order[..last] || id == order[last];
    }
  }

  lemma NewcomerKeys(s: Store, s': Store, id: TaskId)
    requires KeysInjective(s) && id !in s.rows && RowsGrow(s.rows, s'.rows, id)
    requires s'.order == s.order + [id] && s'.rows.Keys == s.rows.Keys + {id}
    requires s'.rows[id].key.Some? ==> FindByKey(s.rows, s.order, s'.rows[id].key.value).None?
    ensures KeysInjective(s')
  {
    if s'.rows[id].key.Some? {
      FindByKeyFinds(s.rows, s.order, s'.rows[id].key.value);
    }
  }

  lemma ResidentKeys(s: Store, s': Store, id: TaskId)
    requires KeysInjective(s) && RowsGrow(s.rows, s'.rows, id)
    requires s'.order == s.order && s'.rows.Keys == s.rows.Keys
    ensures KeysInjective(s')
  {}

  lemma StepKeepsKeys(st: State, step: Step)
    requires Enabled(st, step) && KeysInjective(st.store) && Inv(ANY, st)
    ensures KeysInjective(Next(st, step).store)
    ensures forall id :: id in st.store.rows ==>
      id in Next(st, step).store.rows && Next(st, step).store.rows[id].key == st.store.rows[id].key
  {
    if Focus(st, step).Some? {
      FinishHasRow(st, step);
      StepGrows(st, step);
      var s, s' := st.store, Next(st, step).store;
      if !step.Submit? {
        OrderGrows(st, step);
        ResidentKeys(s, s', Focus(st, step).value);
      } else {
        SubmitKeys(st.config, s, step.request, step.id, st.now, st.now + step.wait, step.up);
        if s' != s {
          NewcomerKeys(s, s', step.id);
        }
      }
    }
  }

  predicate SameTable(s: Store, s': Store) {
    s'.order == s.order && s'.rows.Keys == s.rows.Keys
  }

  lemma ResolveKeepsTable(s: Store, id: TaskId, r: Row, kind: EventKind, now: int, pushUp: bool)
    requires id in s.rows
    ensures SameTable(s, ResolveTask(s, id, r, kind, now, pushUp))
  {}

  lemma SweepKeepsTable(s: Store, id: TaskId, now: int, pushUp: bool, clearUp: bool)
    ensures SameTable(s, SweepTask(s, id, now, pushUp, clearUp).0)
  {
    if id in s.rows {
      ResolveKeepsTable(s, id, TimedOutRow(s.rows[id], now), TaskRequeuedTimeout, now, true);
    }
  }

  lemma FinishKeepsTable(s: Store, id: TaskId, copy: Row, outcome: Outcome, now: int, pushUp: bool, clearUp: bool)
    requires id in s.rows
    ensures SameTable(s, FinishTask(s, id, copy, outcome, now, pushUp, clearUp))
  {
    if outcome.Errored? {
      ResolveKeepsTable(s, id, FailedRow(copy, outcome.error, now), TaskRetryScheduled, now, pushUp);
    }
  }

  lemma OrderGrows(st: State, step: Step)
    requires Enabled(st, step) && !step.Submit?
    requires step.Finish? ==> st.workers[step.slot].id in st.store.rows
    ensures SameTable(st.store, Next(st, step).store)
  {
    match step
    case SweepOne(id, pushUp, clearUp) => SweepKeepsTable(st.store, id, st.now, pushUp, clearUp);
    case Finish(slot, outcome, pushUp, clearUp) =>
      FinishKeepsTable(st.store, st.workers[slot].id, st.workers[slot].copy, outcome, st.now, pushUp, clearUp);
    case _ =>
  }

  lemma SubmitKeys(c: Config, s: Store, q: Request, id: TaskId, now: int, later: int, up: bool)
    requires id !in s.rows
    ensures var s' := SubmitTask(c, s, q, id, now, later, up).0;
      s' == s || (s'.order == s.order + [id] && s'.rows.Keys == s.rows.Keys + {id} && s'.rows[id].key == q.key
                  && (q.key.Some? ==> FindByKey(s.rows, s.order, q.key.value).None?))
  {}

  lemma {:induction false} KeysRun(st: State, steps: seq<Step>, rules: Rules)
    requires KeysInjective(st.store) && Inv(ANY, st) && ValidRun(st, steps, rules)
    ensures var st' := Run(st, steps, rules);
      && KeysInjective(st'.store)
      && forall id :: id in st.store.rows ==> id in st'.store.rows && st'.store.rows[id].key == st.store.rows[id].key
    decreases |steps|
  {
    if steps != [] {
      StepKeepsKeys(st, steps[0]);
      NextInv(ANY, st, steps[0]);
      KeysRun(Next(st, steps[0]), steps[1..], rules);
    }
  }

  /** In any run, idempotency keys stay injective on tasks, and no key ever changes. */
  lemma KeysStayInjective(st: State, steps: seq<Step>, a: TaskId, b: TaskId)
    requires Reachable(ANY, st) && ValidRun(st, steps, ANY)
    ensures var rows := Run(st, steps, ANY).store.rows;
      && (a in st.store.rows ==> a in rows && rows[a].key == st.store.rows[a].key)
      && (a in rows && b in rows && rows[a].key.Some? && rows[a].key == rows[b].key ==> a == b)
  {
    ReachableKeys(st);
    ReachableInv(ANY, st);
    KeysRun(st, steps, ANY);
  }

  lemma ReachableKeys(st: State)
    requires Reachable(ANY, st)
    ensures KeysInjective(st.store)
  {
    var c: Config, levels: nat, steps: seq<Step> :|
      0 < levels && ValidRun(Init(c, levels), steps, ANY) && st == Run(Init(c, levels), steps, ANY);
    InitInv(ANY, c, levels);
    KeysRun(Init(c, levels), steps, ANY);
  }

  /** Submitting a known non-empty key again returns the same task and leaves both stores as they were. */
  lemma ResubmissionIsIdempotent(st: State, q: Request, known: TaskId, unused: TaskId, wait: nat, up: bool)
    requires Reachable(ANY, st) && known in st.store.rows
    requires q.key.Some? && q.key.value != "" && st.store.rows[known].key == q.key
    ensures SubmitTask(st.config, st.store, q, unused, st.now, st.now + wait, up) == (st.store, Existing(known))
  {
    ReachableKeys(st);
    FindByKeyFinds(st.store.rows, st.store.order, q.key.value);
  }

  // ---------------------------------------------------------------- the log is append-only

  /** In any run, the audit log is only ever appended to. */
  lemma {:induction false} LogIsAppendOnly(st: State, steps: seq<Step>)
    requires Inv(ANY, st) && ValidRun(st, steps, ANY)
    ensures st.store.log <= Run(st, steps, ANY).store.log
    decreases |steps|
  {
    if steps != [] {
      if Focus(st, steps[0]).Some? {
        FinishHasRow(st, steps[0]);
        StepGrows(st, steps[0]);
      }
      NextInv(ANY, st, steps[0]);
      LogIsAppendOnly(Next(st, steps[0]), steps[1..]);
    }
  }
}
