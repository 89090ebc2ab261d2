/** Inflight keys: which steps touch a task's key, and the key behind every live run. */
module Keys {
  import opened Prelude
  import opened Domain
  import opened Protocol
  import opened Machine
  import opened Views
  import opened Local
  import opened Delivery
  import opened Reachability

  /** When the task's inflight key expires, if it has one. */
  function KeyOf(s: Store, id: TaskId): Option<int> {
    if id in s.redis.inflight then Some(s.redis.inflight[id]) else None
  }

  /** Only the key of the task acted on can come, change or go. */
  ghost predicate SameKeys(s: Store, s': Store, id: TaskId) {
    forall j: TaskId :: j != id ==> KeyOf(s', j) == KeyOf(s, j)
  }

  lemma SubmitKeepsKeys(c: Config, s: Store, q: Request, id: TaskId, now: int, later: int, up: bool)
    ensures SubmitTask(c, s, q, id, now, later, up).0.redis.inflight == s.redis.inflight
  {}

  lemma ServicesKeepKeys(s: Store, id: TaskId, now: int, up: bool, up': bool)
    ensures RepairTask(s, id, now, up).0.redis.inflight == s.redis.inflight
    ensures ReplayTask(s, id, up).0.redis.inflight == s.redis.inflight
    ensures CancelTask(s, id, now, up, up').0.redis.inflight == s.redis.inflight
  {}

  lemma SweepKeys(s: Store, id: TaskId, now: int, pushUp: bool, clearUp: bool)
    ensures SameKeys(s, SweepTask(s, id, now, pushUp, clearUp).0, id)
    ensures id in s.rows && s.rows[id].status == Running && (!Overdue(s.rows[id], now) || !pushUp) ==>
      SweepTask(s, id, now, pushUp, clearUp).0 == s
  {}

  lemma FinishKeys(s: Store, id: TaskId, copy: Row, outcome: Outcome, now: int, pushUp: bool, clearUp: bool)
    ensures SameKeys(s, FinishTask(s, id, copy, outcome, now, pushUp, clearUp), id)
  {}

  lemma StartKeys(s: Store, id: TaskId, worker: string, now: int, checkUp: bool, writeUp: bool)
    ensures SameKeys(s, StartTask(s, id, worker, now, checkUp, writeUp).0, id)
  {}

  lemma KeyFrame(st: State, step: Step, id: TaskId)
    requires Enabled(st, step) && Focus(st, step) != Some(id)
    ensures KeyOf(Next(st, step).store, id) == KeyOf(st.store, id)
  {
    match step
    case Submit(q, j, wait, up) => SubmitKeepsKeys(st.config, st.store, q, j, st.now, st.now + wait, up);
    case Repair(j, up) => ServicesKeepKeys(st.store, j, st.now, up, true);
    case Replay(j, up) => ServicesKeepKeys(st.store, j, st.now, up, true);
    case Cancel(j, markUp, removeUp) => ServicesKeepKeys(st.store, j, st.now, markUp, removeUp);
    case SweepOne(j, pushUp, clearUp) => SweepKeys(st.store, j, st.now, pushUp, clearUp);
    case Start(slot, worker, checkUp, writeUp) =>
      StartKeys(st.store, st.workers[slot].id, worker, st.now, checkUp, writeUp);
    case Finish(slot, outcome, pushUp, clearUp) =>
      FinishKeys(st.store, st.workers[slot].id, st.workers[slot].copy, outcome, st.now, pushUp, clearUp);
    case _ =>
  }

  /** The key a run's start sets: it outlives the timeout by 60 seconds. */
  function KeyExpiry(r: Row): int
    requires r.startedAt.Some?
  {
    r.startedAt.value + r.timeoutSeconds + 60
  }

  /** A live worker runs a task whose row is RUNNING. */
  predicate Runs(st: State, id: TaskId, slot: Slot) {
    && slot in st.workers && st.workers[slot].id == id && st.workers[slot].Executing?
    && id in st.store.rows && st.store.rows[id].status == Running
  }

  /** The key is there as the run's start set it. */
  predicate HasKey(s: Store, id: TaskId, r: Row) {
    r.startedAt.Some? && KeyOf(s, id) == Some(KeyExpiry(r))
  }

  ghost predicate KeyBehindRun(st: State, id: TaskId) {
    forall slot :: Runs(st, id, slot) ==> HasKey(st.store, id, st.workers[slot].copy)
  }

  lemma ServiceKeepsKey(st: State, step: Step, id: TaskId)
    requires Enabled(st, step) && (step.Repair? || step.Replay? || step.Cancel? || step.Claim? || step.ReleaseOne?)
    ensures Next(st, step).store.redis.inflight == st.store.redis.inflight
  {
    match step
    case Repair(j, up) => ServicesKeepKeys(st.store, j, st.now, up, true);
    case Replay(j, up) => ServicesKeepKeys(st.store, j, st.now, up, true);
    case Cancel(j, markUp, removeUp) => ServicesKeepKeys(st.store, j, st.now, markUp, removeUp);
    case Claim(_) =>
    case ReleaseOne(_, _) =>
  }

  /** The worker's own steps: a start sets the key, and after any other of its steps no run of the task is left. */
  lemma WorkerKeepsKey(st: State, step: Step, id: TaskId, slot: Slot)
    requires GoodAt(SparesLive(id), st, id) && Enabled(st, step) && Focus(st, step) == Some(id)
    requires step.Start? || step.Finish? || step.Crash?
    requires Runs(Next(st, step), id, slot)
    ensures HasKey(Next(st, step).store, id, Next(st, step).workers[slot].copy)
  {
    var v := ViewOf(st, id);
    assert step.slot in v.hands;
    OneHand(v.hands, step.slot);
    assert forall other :: other in st.workers && st.workers[other].id == id ==> other in v.hands;
    if step.Start? {
      StartSetsKey(st.store, id, step.worker, st.now, step.checkUp, step.writeUp);
    }
  }

  /** A start that launches a run sets its key. */
  lemma StartSetsKey(s: Store, id: TaskId, worker: string, now: int, checkUp: bool, writeUp: bool)
    ensures var (s', result) := StartTask(s, id, worker, now, checkUp, writeUp);
      result.Launched? ==> HasKey(s', id, result.copy)
  {}

  /** The steps that leave the workers alone leave the key of a live run alone. */
  lemma OthersKeepKey(st: State, step: Step, id: TaskId, slot: Slot)
    requires Enabled(st, step) && Focus(st, step) == Some(id) && Obeys(st, step, SparesLive(id))
    requires !step.Start? && !step.Finish? && !step.Crash?
    requires GoodAt(SparesLive(id), st, id) && Runs(Next(st, step), id, slot)
    ensures Runs(st, id, slot) && Next(st, step).workers[slot] == st.workers[slot]
    ensures Next(st, step).store.redis.inflight == st.store.redis.inflight
  {
    assert forall other :: other in st.workers && st.workers[other].id == id ==> other in ViewOf(st, id).hands;
    match step
    case SweepOne(_, pushUp, clearUp) =>
      SweepKeys(st.store, id, st.now, pushUp, clearUp);
      SweptRow(st.store, id, st.now, pushUp, clearUp);
      assert Live(st, id);
    case Submit(_, _, _, _) =>
    case Dequeue(_) =>
    case Claim(_) =>
    case _ =>
      ServiceKeepsKey(st, step, id);
      ServiceNeverRuns(st, step, id);
  }

  lemma SweptRow(s: Store, id: TaskId, now: int, pushUp: bool, clearUp: bool)
    ensures var s' := SweepTask(s, id, now, pushUp, clearUp).0;
      id in s'.rows && s'.rows[id].status == Running ==> id in s.rows && s.rows[id].status == Running && s' == s
  {}

  lemma ServiceNeverRuns(st: State, step: Step, id: TaskId)
    requires Enabled(st, step) && Focus(st, step) == Some(id)
    requires step.Repair? || step.Replay? || step.Cancel? || step.ReleaseOne?
    ensures var rows := Next(st, step).store.rows;
      id in rows && rows[id].status == Running ==> id in st.store.rows && st.store.rows[id].status == Running
    ensures Next(st, step).workers == st.workers
  {}

  lemma KeyStaysBehindRun(st: State, step: Step, id: TaskId)
    requires GoodAt(SparesLive(id), st, id) && KeyBehindRun(st, id)
    requires Enabled(st, step) && Obeys(st, step, SparesLive(id))
    ensures KeyBehindRun(Next(st, step), id)
  {
    var next := Next(st, step);
    forall slot | Runs(next, id, slot) ensures HasKey(next.store, id, next.workers[slot].copy) {
      if Focus(st, step) != Some(id) {
        StepEffect(st, step, id);
        assert slot in HandsOf(next.workers, id) && slot in HandsOf(st.workers, id);
        assert Runs(st, id, slot);
        KeyFrame(st, step, id);
      } else if step.Start? || step.Finish? || step.Crash? {
        WorkerKeepsKey(st, step, id, slot);
      } else {
        OthersKeepKey(st, step, id, slot);
      }
    }
  }

  lemma {:induction false} KeyRun(st: State, steps: seq<Step>, id: TaskId)
    requires GoodAt(SparesLive(id), st, id) && KeyBehindRun(st, id) && ValidRun(st, steps, SparesLive(id))
    ensures KeyBehindRun(Run(st, steps, SparesLive(id)), id)
    decreases |steps|
  {
    if steps != [] {
      KeyStaysBehindRun(st, steps[0], id);
      GoodAtNext(SparesLive(id), st, steps[0], id);
      KeyRun(Next(st, steps[0]), steps[1..], id);
    }
  }

  /**
   * While the task's live runs are spared, a live run of a RUNNING task has a key that outlives its timeout by 60
   * seconds.
   */
  lemma LiveRunHasKey(st: State, id: TaskId)
    requires Reachable(SparesLive(id), st)
    ensures KeyBehindRun(st, id)
  {
    var c: Config, levels: nat, steps: seq<Step> :|
      && 0 < levels && ValidRun(Init(c, levels), steps, SparesLive(id))
      && st == Run(Init(c, levels), steps, SparesLive(id));
    InitInv(SparesLive(id), c, levels);
    assert GoodAt(SparesLive(id), Init(c, levels), id);
    KeyRun(Init(c, levels), steps, id);
  }
}
