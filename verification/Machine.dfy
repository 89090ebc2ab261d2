/**
 * The whole system as a state machine: the two stores, the clock, ids in workers' hands,
 * and ids the scheduler has claimed. Each step is one service acting on one task.
 */
module Machine {
  import opened Prelude
  import opened Domain
  import opened ScheduledSet
  import opened Protocol
  import ReadyQueue

  type Slot = nat

  /** A worker slot: an id popped from a ready list, or a run in progress with the row as the worker last saw it. */
  datatype Worker = Held(id: TaskId) | Executing(id: TaskId, copy: Row)

  /**
   * `claimed`: ids taken from the ZSET whose release iteration has not happened.
   * `adrift`: ids whose last delivery pointer was given up while the task still waited for one,
   * because the release loop skipped or raised on them or because a worker lost them before starting.
   */
  datatype State = State(
    config: Config,
    store: Store,
    now: nat,
    workers: map<Slot, Worker>,
    claimed: set<TaskId>,
    adrift: set<TaskId>)

  datatype Step =
    | Submit(request: Request, id: TaskId, wait: nat, up: bool)
    | Repair(id: TaskId, up: bool)
    | Replay(id: TaskId, up: bool)
    | Cancel(id: TaskId, markUp: bool, removeUp: bool)
    | Claim(id: TaskId)
    | ReleaseOne(id: TaskId, up: bool)
    | SweepOne(id: TaskId, pushUp: bool, clearUp: bool)
    | Dequeue(slot: Slot)
    | Start(slot: Slot, worker: string, checkUp: bool, writeUp: bool)
    | Finish(slot: Slot, outcome: Outcome, pushUp: bool, clearUp: bool)
    | Crash(slot: Slot, cleanup: bool)
    | Tick(seconds: nat)

  function Init(config: Config, levels: nat): State
    requires 0 < levels
  {
    var redis := Redis(seq(levels, _ => []), map[], map[], {}, []);
    State(config, Store(map[], [], [], redis), 0, map[], {}, {})
  }

  predicate Enabled(st: State, step: Step) {
    match step
    case Submit(_, id, _, _) => id !in st.store.rows
    case Claim(id) => id in DueIds(st.store.redis.scheduled, st.now)
    case ReleaseOne(id, _) => id in st.claimed
    case Dequeue(slot) => slot !in st.workers && ReadyQueue.Pop(st.store.redis.ready).Some?
    case Start(slot, _, _, _) => slot in st.workers && st.workers[slot].Held?
    case Finish(slot, _, _, _) => slot in st.workers && st.workers[slot].Executing?
    case Crash(slot, _) => slot in st.workers
    case _ => true
  }

  /** The task is waiting for a delivery pointer. */
  predicate Awaits(s: Store, id: TaskId) {
    id in s.rows && (s.rows[id].status == Scheduled || s.rows[id].status == Queued)
  }

  function Copies(lists: seq<seq<TaskId>>, id: TaskId): nat {
    if lists == [] then 0 else multiset(lists[0])[id] + Copies(lists[1..], id)
  }

  predicate InHand(st: State, id: TaskId) {
    exists slot :: slot in st.workers && st.workers[slot] == Held(id)
  }

  /** Something will still bring the task to a worker or to the release loop. */
  predicate Pointed(st: State, id: TaskId) {
    Copies(st.store.redis.ready, id) > 0 || InHand(st, id) || id in st.store.redis.scheduled || id in st.claimed
  }

  /** The slot goes on to run the task, or lets go of it. */
  function AfterStart(st: State, slot: Slot, s': Store, result: StartResult): State
    requires slot in st.workers
  {
    var id := st.workers[slot].id;
    st.(store := s',
        workers := if result.Launched? then st.workers[slot := Executing(id, result.copy)] else st.workers - {slot})
  }

  /** The state after a step, but for the record of tasks adrift. */
  function Moved(st: State, step: Step): State
    requires Enabled(st, step)
  {
    var s, now := st.store, st.now;
    match step
    case Submit(q, id, wait, up) =>
      st.(store := SubmitTask(st.config, s, q, id, now, now + wait, up).0, now := now + wait)
    case Repair(id, up) =>
      st.(store := RepairTask(s, id, now, up).0)
    case Replay(id, up) =>
      st.(store := ReplayTask(s, id, up).0)
    case Cancel(id, markUp, removeUp) =>
      st.(store := CancelTask(s, id, now, markUp, removeUp).0)
    case Claim(id) =>
      st.(store := RemoveScheduled(s, id), claimed := st.claimed + {id})
    case ReleaseOne(id, up) =>
      st.(store := ReleaseTask(st.config, s, id, up).0, claimed := st.claimed - {id})
    case SweepOne(id, pushUp, clearUp) =>
      st.(store := SweepTask(s, id, now, pushUp, clearUp).0)
    case Dequeue(slot) =>
      var (id, lists) := ReadyQueue.Pop(s.redis.ready).value;
      st.(store := s.(redis := s.redis.(ready := lists)), workers := st.workers[slot := Held(id)])
    case Start(slot, worker, checkUp, writeUp) =>
      var (s', result) := StartTask(s, st.workers[slot].id, worker, now, checkUp, writeUp);
      AfterStart(st, slot, s', result)
    case Finish(slot, outcome, pushUp, clearUp) =>
      var w := st.workers[slot];
      st.(store := FinishTask(s, w.id, w.copy, outcome, now, pushUp, clearUp), workers := st.workers - {slot})
    case Crash(slot, cleanup) =>
      var w := st.workers[slot];
      st.(store := if w.Executing? && cleanup then ClearInflight(s, w.id) else s, workers := st.workers - {slot})
    case Tick(d) =>
      st.(now := now + d)
  }

  /** The task a step acts on. */
  function Focus(st: State, step: Step): Option<TaskId>
    requires Enabled(st, step)
  {
    match step
    case Submit(_, id, _, _) => Some(id)
    case Repair(id, _) => Some(id)
    case Replay(id, _) => Some(id)
    case Cancel(id, _, _) => Some(id)
    case Claim(id) => Some(id)
    case ReleaseOne(id, _) => Some(id)
    case SweepOne(id, _, _) => Some(id)
    case Dequeue(_) => Some(ReadyQueue.Pop(st.store.redis.ready).value.0)
    case Start(slot, _, _, _) => Some(st.workers[slot].id)
    case Finish(slot, _, _, _) => Some(st.workers[slot].id)
    case Crash(slot, _) => Some(st.workers[slot].id)
    case Tick(_) => None
  }

  /** Steps that use up a delivery pointer: a claimed entry, or an id in a worker's hand. */
  predicate UsesPointer(st: State, step: Step)
    requires Enabled(st, step)
  {
    step.ReleaseOne? || step.Start? || (step.Crash? && st.workers[step.slot].Held?)
  }

  /** A pointer gained ends being adrift; the last one used up in vain begins it. */
  function Recorded(st: State, id: TaskId, used: bool): State {
    st.(adrift :=
      if Pointed(st, id) then st.adrift - {id}
      else if used && Awaits(st.store, id) then st.adrift + {id}
      else st.adrift)
  }

  function Next(st: State, step: Step): State
    requires Enabled(st, step)
  {
    if step.Tick? then Moved(st, step)
    else Recorded(Moved(st, step), Focus(st, step).value, UsesPointer(st, step))
  }

  /** A live run of the task is in progress. */
  predicate Live(st: State, id: TaskId) {
    exists slot :: slot in st.workers && st.workers[slot].id == id && st.workers[slot].Executing?
  }

  /**
   * Disciplines on a run, task by task. `sparesLive`: tasks whose live runs the reconciler never times out.
   * `sparesCancel`: tasks that nobody cancels while a live worker runs them. For a task in both, a run is
   * row-exclusive.
   */
  datatype Rules = Rules(sparesLive: iset<TaskId>, sparesCancel: iset<TaskId>)

  ghost const ANY := Rules(iset{}, iset{})

  ghost function SparesLive(id: TaskId): Rules {
    Rules(iset{id}, iset{})
  }

  ghost function RowExclusive(id: TaskId): Rules {
    Rules(iset{id}, iset{id})
  }

  /** Row-exclusive for every task. */
  ghost const ROW_EXCLUSIVE := Rules(iset id: TaskId | true, iset id: TaskId | true)

  ghost predicate Obeys(st: State, step: Step, rules: Rules) {
    match step
    case SweepOne(id, _, _) =>
      id in rules.sparesLive && id in st.store.rows && Overdue(st.store.rows[id], st.now) ==> !Live(st, id)
    case Cancel(id, _, _) => id in rules.sparesCancel ==> !Live(st, id)
    case _ => true
  }

  ghost predicate ValidRun(st: State, steps: seq<Step>, rules: Rules)
    decreases |steps|
  {
    steps == [] ||
    (Enabled(st, steps[0]) && Obeys(st, steps[0], rules) && ValidRun(Next(st, steps[0]), steps[1..], rules))
  }

  ghost function Run(st: State, steps: seq<Step>, rules: Rules): State
    requires ValidRun(st, steps, rules)
    decreases |steps|
  {
    if steps == [] then st else Run(Next(st, steps[0]), steps[1..], rules)
  }

  /** A run can be read from its end: one step in front of a valid rest. */
  lemma RunsOnward(st: State, step: Step, rest: seq<Step>, rules: Rules)
    requires Enabled(st, step) && Obeys(st, step, rules) && ValidRun(Next(st, step), rest, rules)
    ensures ValidRun(st, [step] + rest, rules) && Run(st, [step] + rest, rules) == Run(Next(st, step), rest, rules)
  {
    assert ([step] + rest)[1..] == rest;
  }

  lemma ConcatTail(a: seq<Step>, b: seq<Step>)
    requires a != []
    ensures (a + b)[0] == a[0] && (a + b)[1..] == a[1..] + b
  {}

  lemma {:induction false} RunsCompose(st: State, a: seq<Step>, b: seq<Step>, rules: Rules)
    requires ValidRun(st, a, rules) && ValidRun(Run(st, a, rules), b, rules)
    ensures ValidRun(st, a + b, rules) && Run(st, a + b, rules) == Run(Run(st, a, rules), b, rules)
    decreases |a|
  {
    if a == [] {
      assert a + b == b;
    } else {
      ConcatTail(a, b);
      RunsCompose(Next(st, a[0]), a[1..], b, rules);
    }
  }
}
