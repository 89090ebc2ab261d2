/** Runs from empty stores that show where a promise fails. */
module Scenarios {
  import opened Prelude
  import opened Domain
  import opened Backoff
  import opened Protocol
  import opened Machine
  import opened Views
  import opened Local
  import opened Reachability
  import opened Outcomes
  import opened Marks
  import opened Escapes
  import opened Keys
  import opened Orphans
  import ReadyQueue

  // ---------------------------------------------------------------- a lost retry

  /** Three attempts allowed, five seconds apart: the defaults of a submission. */
  const REQUEST := Request(0, 0, 3, None, 300, None, None)

  const SHIPPED := Config(1_048_576, false)

  /** Submitted, and taken up by a worker. */
  const BEGUN: seq<Step> := [Submit(REQUEST, 0, 0, true), Dequeue(0), Start(0, "worker", true, true)]

  /** The run fails; when the retry is due, one pass of the release loop. */
  const FAIL_AND_RELEASE: seq<Step> := [Finish(0, Errored("boom"), true, true), Tick(5), Claim(0), ReleaseOne(0, true)]

  /** What matters of a state with the one task: its row, where its id is, and who has it. */
  predicate At(st: State, status: Status, attempts: nat, ready: seq<seq<TaskId>>, workers: map<Slot, Worker>) {
    && st.config == SHIPPED
    && 0 in st.store.rows && st.store.rows[0] == Stage(st.store.rows[0], status, attempts)
    && st.store.redis.ready == ready && st.workers == workers && st.store.redis.cancelled == {}
  }

  /** The request's row, at some status and attempt, with whatever times and worker it has. */
  function Stage(r: Row, status: Status, attempts: nat): Row {
    Row(status, 0, 3, attempts, None, 300, DEFAULT_POLICY, r.workerId, r.result, r.error, None, r.startedAt,
        r.finishedAt)
  }

  lemma Submitted(st: State)
    requires st == Init(SHIPPED, 1)
    ensures Enabled(st, BEGUN[0])
    ensures var next := Next(st, BEGUN[0]);
      At(next, Queued, 0, [[0]], map[]) && next.now == 0 && next.claimed == {} && next.store.redis.scheduled == map[]
  {
    var lists: seq<seq<TaskId>> := [[]];
    assert st.store.redis.ready == lists;
    assert ReadyQueue.Push(lists, 0, 0) == [[0]] by {
      assert [0] + lists[0] == [0];
    }
  }

  lemma Popped(st: State)
    requires At(st, Queued, 0, [[0]], map[])
    ensures Enabled(st, BEGUN[1])
    ensures var next := Next(st, BEGUN[1]);
      && At(next, Queued, 0, [[]], map[0 := Held(0)]) && next.now == st.now && next.claimed == st.claimed
      && next.store.redis.scheduled == st.store.redis.scheduled
  {}

  /** On attempt 0 in the hands of the worker in slot 0, with the key its start set at time 0. */
  predicate Underway(st: State) {
    && 0 in st.store.rows && At(st, Running, 0, [[]], map[0 := Executing(0, st.store.rows[0])])
    && st.now == 0 && st.claimed == {} && st.store.redis.scheduled == map[]
    && st.store.rows[0].startedAt == Some(0) && 0 in st.store.redis.inflight && st.store.redis.inflight[0] == 360
  }

  lemma Started(st: State)
    requires At(st, Queued, 0, [[]], map[0 := Held(0)])
    requires st.now == 0 && st.claimed == {} && st.store.redis.scheduled == map[]
    ensures Enabled(st, BEGUN[2]) && Underway(Next(st, BEGUN[2]))
  {
    StartSetsKey(st.store, 0, "worker", 0, true, true);
  }

  lemma Begun()
    ensures ValidRun(Init(SHIPPED, 1), BEGUN, ANY) && Underway(Run(Init(SHIPPED, 1), BEGUN, ANY))
  {
    var s0 := Init(SHIPPED, 1);
    Submitted(s0);
    var s1 := Next(s0, BEGUN[0]);
    Popped(s1);
    var s2 := Next(s1, BEGUN[1]);
    Started(s2);
    TwoSteps(s1, BEGUN[1], s2, BEGUN[2], Next(s2, BEGUN[2]));
    RunsOnward(s0, BEGUN[0], [BEGUN[1], BEGUN[2]], ANY);
    assert BEGUN == [BEGUN[0]] + [BEGUN[1], BEGUN[2]];
  }

  lemma FailedOnce(st: State)
    requires Underway(st)
    ensures Enabled(st, FAIL_AND_RELEASE[0])
    ensures var next := Next(st, FAIL_AND_RELEASE[0]);
      && At(next, Queued, 1, [[]], map[]) && next.now == 0 && next.claimed == {}
      && next.store.redis.scheduled == map[0 := 5]
  {}

  lemma ReleasedInVain(st: State)
    requires At(st, Queued, 1, [[]], map[])
    requires st.now == 0 && st.claimed == {} && st.store.redis.scheduled == map[0 := 5]
    ensures Enabled(st, FAIL_AND_RELEASE[1]) && Enabled(Next(st, FAIL_AND_RELEASE[1]), FAIL_AND_RELEASE[2])
    ensures var claimed := Next(Next(st, FAIL_AND_RELEASE[1]), FAIL_AND_RELEASE[2]);
      Enabled(claimed, FAIL_AND_RELEASE[3]) && Stranded(ViewOf(Next(claimed, FAIL_AND_RELEASE[3]), 0))
  {}

  /** With default settings a task that fails once is stranded when its retry falls due. */
  lemma DefaultRetryIsLost()
    ensures ValidRun(Init(SHIPPED, 1), BEGUN + FAIL_AND_RELEASE, ANY)
    ensures Stranded(ViewOf(Run(Init(SHIPPED, 1), BEGUN + FAIL_AND_RELEASE, ANY), 0))
  {
    Begun();
    var s3 := Run(Init(SHIPPED, 1), BEGUN, ANY);
    FailedOnce(s3);
    var s4 := Next(s3, FAIL_AND_RELEASE[0]);
    ReleasedInVain(s4);
    var s5 := Next(s4, FAIL_AND_RELEASE[1]);
    var s6 := Next(s5, FAIL_AND_RELEASE[2]);
    var s7 := Next(s6, FAIL_AND_RELEASE[3]);
    FourSteps(s3, FAIL_AND_RELEASE[0], s4, FAIL_AND_RELEASE[1], s5, FAIL_AND_RELEASE[2], s6, FAIL_AND_RELEASE[3], s7);
    RunsCompose(Init(SHIPPED, 1), BEGUN, FAIL_AND_RELEASE, ANY);
  }

  lemma FourSteps(s0: State, first: Step, s1: State, second: Step, s2: State, third: Step, s3: State, fourth: Step,
      s4: State)
    requires Enabled(s0, first) && s1 == Next(s0, first)
    requires Enabled(s1, second) && s2 == Next(s1, second)
    requires Enabled(s2, third) && s3 == Next(s2, third)
    requires Enabled(s3, fourth) && s4 == Next(s3, fourth)
    ensures ValidRun(s0, [first, second, third, fourth], ANY) && Run(s0, [first, second, third, fourth], ANY) == s4
  {
    TwoSteps(s0, first, s1, second, s2);
    TwoSteps(s2, third, s3, fourth, s4);
    RunsCompose(s0, [first, second], [third, fourth], ANY);
    assert [first, second, third, fourth] == [first, second] + [third, fourth];
  }

  lemma TwoSteps(s0: State, first: Step, s1: State, second: Step, s2: State)
    requires Enabled(s0, first) && s1 == Next(s0, first)
    requires Enabled(s1, second) && s2 == Next(s1, second)
    ensures ValidRun(s0, [first, second], ANY) && Run(s0, [first, second], ANY) == s2
  {
    RunsOnward(s1, second, [], ANY);
    RunsOnward(s0, first, [second] + [], ANY);
    assert [first, second] == [first] + ([second] + []);
  }

  // ---------------------------------------------------------------- a lost worker

  /** The worker dies; then nothing for the six minutes its inflight key lives. */
  const DIE_AND_WAIT: seq<Step> := [Crash(0, false), Tick(360)]

  lemma DiesRunning(st: State)
    requires Underway(st)
    ensures Enabled(st, DIE_AND_WAIT[0])
    ensures var dead := Next(st, DIE_AND_WAIT[0]);
      dead.now == 0 && dead.store.rows == st.store.rows && Orphan(dead, 0, st.store.rows[0], Some(360))
  {
    NoCopies([[]], 0);
  }

  lemma WorkerDies()
    ensures ValidRun(Init(SHIPPED, 1), BEGUN + DIE_AND_WAIT, ANY)
    ensures var st := Run(Init(SHIPPED, 1), BEGUN + DIE_AND_WAIT, ANY);
      st.now == 360 && 0 in st.store.rows && Orphan(st, 0, st.store.rows[0], Some(360))
  {
    Begun();
    var s3 := Run(Init(SHIPPED, 1), BEGUN, ANY);
    DiesRunning(s3);
    var s4 := Next(s3, DIE_AND_WAIT[0]);
    TwoSteps(s3, DIE_AND_WAIT[0], s4, DIE_AND_WAIT[1], Next(s4, DIE_AND_WAIT[1]));
    RunsCompose(Init(SHIPPED, 1), BEGUN, DIE_AND_WAIT, ANY);
  }

  /**
   * Recovery fails in this run for good: however the reconciler is called from then on, the task stays RUNNING
   * unless somebody cancels it.
   */
  lemma LostWorkerIsNeverNoticed(beats: seq<Beat>)
    requires ValidRun(Init(SHIPPED, 1), BEGUN + DIE_AND_WAIT, ANY)
    requires Played(Run(Init(SHIPPED, 1), BEGUN + DIE_AND_WAIT, ANY), beats) && LeavesAlone(beats, 0)
    ensures var end := Final(Run(Init(SHIPPED, 1), BEGUN + DIE_AND_WAIT, ANY), beats);
      0 in end.store.rows && end.store.rows[0].status == Running
  {
    WorkerDies();
    var st := Run(Init(SHIPPED, 1), BEGUN + DIE_AND_WAIT, ANY);
    ExpiredOrphanIsStuck(st, beats, 0, st.store.rows[0], Some(360));
  }

  // ---------------------------------------------------------------- an outlived cancel mark

  /** One attempt allowed. */
  const ONCE := Request(0, 0, 1, None, 300, None, None)

  /** What matters of a task with one attempt. */
  ghost predicate OnceAt(st: State, status: Status, marked: bool, t: Tally) {
    Stands(st, 0, status, marked, t) && ViewOf(st, 0).f.row.value.maxRetries == 1
  }

  ghost predicate OnceReaches(st: State, steps: seq<Step>, status: Status, marked: bool, t: Tally) {
    ValidRun(st, steps, ANY) && OnceAt(Run(st, steps, ANY), status, marked, t)
  }

  lemma OnceOn(st: State, a: seq<Step>, b: seq<Step>, status: Status, marked: bool, t: Tally)
    requires ValidRun(st, a, ANY) && OnceReaches(Run(st, a, ANY), b, status, marked, t)
    ensures OnceReaches(st, a + b, status, marked, t)
  {
    RunsCompose(st, a, b, ANY);
  }

  lemma OnceSubmitted(st: State)
    requires st == Init(SHIPPED, 1)
    ensures OnceReaches(st, [Submit(ONCE, 0, 0, true)], Queued, false, Tally(1, 0, 0))
  {
    var step := Submit(ONCE, 0, 0, true);
    InitInv(ANY, SHIPPED, 1);
    NextInv(ANY, st, step);
    StepEffect(st, step, 0);
    NoCopies(st.store.redis.ready, 0);
    SubmissionAcceptedIff(SHIPPED, st.store, ONCE, 0, 0, 0, true);
    assert [step][1..] == [];
  }

  lemma HandLaunched(hands: map<Slot, Worker>, slot: Slot, id: TaskId, copy: Row)
    requires slot in hands && hands[slot].Held? && !CanRetryOnceMore(copy)
    ensures var after := hands[slot := Executing(id, copy)];
      && |HeldSlots(after)| == |HeldSlots(hands)| - 1 && |SpentSlots(after)| == |SpentSlots(hands)| + 1
      && SpareSlots(after) == SpareSlots(hands)
  {
    var after := hands[slot := Executing(id, copy)];
    assert HeldSlots(after) == HeldSlots(hands) - {slot};
    assert SpentSlots(after) == SpentSlots(hands) + {slot};
    OneLess(HeldSlots(hands), slot);
  }

  lemma LaunchedView(v: View, slot: Slot, now: int)
    requires v.f.row.Some? && v.f.row.value.status == Queued && !v.f.marked
    requires slot in v.hands && v.hands[slot] == Held(0)
    requires v.f.row.value.attempts == 0 && v.f.row.value.maxRetries == 1
    ensures var v', t := StartView(v, 0, slot, "", now, true, true), TallyOf(v);
      && v'.f.row.Some? && v'.f.row.value.status == Running && v'.f.row.value.maxRetries == 1 && !v'.f.marked
      && t.pointers > 0 && TallyOf(v') == t.(pointers := t.pointers - 1, spent := t.spent + 1)
  {
    assert slot in HeldSlots(v.hands);
    HandLaunched(v.hands, slot, 0, StartedRow(v.f.row.value, "", now));
  }

  lemma OnceLaunched(st: State, slot: Slot, t: Tally)
    requires OnceAt(st, Queued, false, t) && slot in st.workers && st.workers[slot] == Held(0)
    ensures t.pointers > 0
    ensures OnceReaches(st, [Start(slot, "", true, true)], Running, false,
      t.(pointers := t.pointers - 1, spent := t.spent + 1))
  {
    assert GoodAt(ANY, st, 0);
    LaunchedView(ViewOf(st, 0), slot, st.now);
    OneStep(st, Start(slot, "", true, true), 0);
    SettledCounts(StartView(ViewOf(st, 0), 0, slot, "", st.now, true, true), true);
  }

  lemma OnceStarted(st: State, t: Tally) returns (steps: seq<Step>)
    requires OnceAt(st, Queued, false, t) && t.pointers > 0
    ensures OnceReaches(st, steps, Running, false, t.(pointers := t.pointers - 1, spent := t.spent + 1))
  {
    var fetch, slot := InSomeHand(st, 0, false, t);
    OnceLaunched(Run(st, fetch, ANY), slot, t);
    OnceOn(st, fetch, [Start(slot, "", true, true)], Running, false,
        t.(pointers := t.pointers - 1, spent := t.spent + 1));
    steps := fetch + [Start(slot, "", true, true)];
  }

  lemma OnceOverdue(st: State, t: Tally) returns (wait: nat)
    requires OnceAt(st, Running, false, t)
    ensures var late := Next(st, Tick(wait));
      OnceAt(late, Running, false, t) && Overdue(ViewOf(late, 0).f.row.value, late.now)
  {
    var r := ViewOf(st, 0).f.row.value;
    assert GoodAt(ANY, st, 0);
    wait := Max(0, r.startedAt.value + r.timeoutSeconds + 31 - st.now);
    StepEffect(st, Tick(wait), 0);
    NextInv(ANY, st, Tick(wait));
  }

  lemma OnceTimedOut(st: State, t: Tally)
    requires OnceAt(st, Running, false, t) && Overdue(ViewOf(st, 0).f.row.value, st.now)
    ensures OnceReaches(st, [SweepOne(0, true, true)], DeadLetter, false, t)
  {
    assert GoodAt(ANY, st, 0);
    var v := ViewOf(st, 0);
    SpentTimesOut(v.f, v.f.row.value, st.now);
    OneStep(st, SweepOne(0, true, true), 0);
    assert TallyOf(Settled(v.(f := SweepFacts(0, v.f, v.f.row.value, st.now, true)), false)) == t;
  }

  lemma SpentTimesOut(f: Facts, r: Row, now: int)
    requires f.row == Some(r) && Overdue(r, now) && r.maxRetries == 1
    ensures var g := SweepFacts(0, f, r, now, true);
      && g.row.Some? && g.row.value.status == DeadLetter && g.row.value.maxRetries == 1
      && g.marked == f.marked && g.waiting == f.waiting
  {}

  lemma OnceRetried(st: State, t: Tally)
    requires OnceAt(st, DeadLetter, false, t)
    ensures OnceReaches(st, [Replay(0, true)], Queued, false, t.(pointers := t.pointers + 1))
  {
    var v := ViewOf(st, 0);
    OneStep(st, Replay(0, true), 0);
    DeadIsReplayed(v.f, v.f.row.value);
    assert TallyOf(Settled(v.(f := ReplayFacts(0, v.f, v.f.row.value, true)), false))
        == t.(pointers := t.pointers + 1);
  }

  lemma DeadIsReplayed(f: Facts, r: Row)
    requires f.row == Some(r) && r.status == DeadLetter && r.maxRetries == 1
    ensures var g := ReplayFacts(0, f, r, true);
      && g.row.Some? && g.row.value.status == Queued && g.row.value.maxRetries == 1
      && g.marked == f.marked && g.waiting == f.waiting + 1
  {}

  /** The reconciler times the run out, though its worker lives, and an operator replays the task. */
  lemma OnceReplayed(st: State, t: Tally) returns (steps: seq<Step>)
    requires OnceAt(st, Running, false, t)
    ensures OnceReaches(st, steps, Queued, false, t.(pointers := t.pointers + 1))
  {
    var wait := OnceOverdue(st, t);
    var late := Next(st, Tick(wait));
    OnceTimedOut(late, t);
    OnceRetried(Run(late, [SweepOne(0, true, true)], ANY), t);
    OnceOn(late, [SweepOne(0, true, true)], [Replay(0, true)], Queued, false, t.(pointers := t.pointers + 1));
    steps := [SweepOne(0, true, true)] + [Replay(0, true)];
    RunsOnward(st, Tick(wait), steps, ANY);
    steps := [Tick(wait)] + steps;
  }

  lemma OnceCancelled(st: State, t: Tally)
    requires OnceAt(st, Running, false, t)
    ensures OnceReaches(st, [Cancel(0, true, true)], Cancelled, true, t)
  {
    OneStep(st, Cancel(0, true, true), 0);
  }

  /**
   * A run from empty stores that starts a task, times it out, replays it, starts it beside the first worker, and
   * cancels it.
   */
  lemma CancelledUnderTwo() returns (steps: seq<Step>)
    ensures |steps| > 0 && steps[|steps| - 1] == Cancel(0, true, true)
    ensures OnceReaches(Init(SHIPPED, 1), steps, Cancelled, true, Tally(0, 2, 0))
  {
    var s0 := Init(SHIPPED, 1);
    OnceSubmitted(s0);
    steps := [Submit(ONCE, 0, 0, true)];
    var first := OnceStarted(Run(s0, steps, ANY), Tally(1, 0, 0));
    OnceOn(s0, steps, first, Running, false, Tally(0, 1, 0));
    steps := steps + first;
    var again := OnceReplayed(Run(s0, steps, ANY), Tally(0, 1, 0));
    OnceOn(s0, steps, again, Queued, false, Tally(1, 1, 0));
    steps := steps + again;
    var second := OnceStarted(Run(s0, steps, ANY), Tally(1, 1, 0));
    OnceOn(s0, steps, second, Running, false, Tally(0, 2, 0));
    steps := steps + second;
    OnceCancelled(Run(s0, steps, ANY), Tally(0, 2, 0));
    OnceOn(s0, steps, [Cancel(0, true, true)], Cancelled, true, Tally(0, 2, 0));
    steps := steps + [Cancel(0, true, true)];
  }

  /**
   * Where live runs are timed out a cancel mark can be outlived: some run from empty stores ends in a start of the
   * task that is logged after a successful cancel put it in the cancel set.
   */
  lemma MarkLostToStaleWorker() returns (before: seq<Step>, after: seq<Step>)
    ensures ValidRun(Init(SHIPPED, 1), before + after, ANY) && ValidRun(Init(SHIPPED, 1), before, ANY)
    ensures |before| > 0 && before[|before| - 1] == Cancel(0, true, true)
    ensures var marked, end := Run(Init(SHIPPED, 1), before, ANY), Run(Init(SHIPPED, 1), before + after, ANY);
      0 in marked.store.redis.cancelled && Starts(end, 0) > Starts(marked, 0)
  {
    var s0 := Init(SHIPPED, 1);
    before := CancelledUnderTwo();
    after := Escape(Run(s0, before, ANY), 0, Cancelled, Tally(0, 2, 0));
    RunsCompose(s0, before, after, ANY);
  }
}
