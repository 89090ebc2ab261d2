/**
 * Permit accounting of one worker pool: c consume loops share a semaphore of c permits.
 * A loop can be stopped while it waits, for an id or for a permit; from permit to spawn it does not wait.
 */
module Pool {
  import opened Domain

  /** A consume loop: polling Redis, holding an id it popped, or holding an id and a permit before it spawns. */
  datatype Loop = Polling | Popped(id: TaskId) | Permitted(id: TaskId) | Stopped

  datatype State = State(permits: nat, loops: seq<Loop>, running: multiset<TaskId>)

  datatype Step =
    | Pop(k: nat, id: TaskId)
    | Acquire(k: nat)
    | Spawn(k: nat)
    | Finish(id: TaskId)
    | Stop(k: nat)

  function Init(c: nat): State {
    State(c, seq(c, _ => Polling), multiset{})
  }

  predicate Enabled(p: State, step: Step) {
    match step
    case Pop(k, _) => k < |p.loops| && p.loops[k] == Polling
    case Acquire(k) => k < |p.loops| && p.loops[k].Popped? && p.permits > 0
    case Spawn(k) => k < |p.loops| && p.loops[k].Permitted?
    case Finish(id) => id in p.running
    case Stop(k) => k < |p.loops| && (p.loops[k] == Polling || p.loops[k].Popped?)
  }

  function Next(p: State, step: Step): State
    requires Enabled(p, step)
  {
    match step
    case Pop(k, id) => p.(loops := p.loops[k := Popped(id)])
    case Acquire(k) => p.(loops := p.loops[k := Permitted(p.loops[k].id)], permits := p.permits - 1)
    case Spawn(k) => p.(loops := p.loops[k := Polling], running := p.running + multiset{p.loops[k].id})
    case Finish(id) => p.(running := p.running - multiset{id}, permits := p.permits + 1)
    case Stop(k) => p.(loops := p.loops[k := Stopped])
  }

  predicate ValidRun(p: State, steps: seq<Step>)
    decreases |steps|
  {
    steps == [] || (Enabled(p, steps[0]) && ValidRun(Next(p, steps[0]), steps[1..]))
  }

  function Run(p: State, steps: seq<Step>): State
    requires ValidRun(p, steps)
    decreases |steps|
  {
    if steps == [] then p else Run(Next(p, steps[0]), steps[1..])
  }

  /** Loops holding a permit they have not spawned with. */
  function Permits(loops: seq<Loop>): nat {
    if loops == [] then 0 else (if loops[0].Permitted? then 1 else 0) + Permits(loops[1..])
  }

  /** Loops holding an id. */
  function Holding(loops: seq<Loop>): nat {
    if loops == [] then 0 else (if loops[0].Popped? || loops[0].Permitted? then 1 else 0) + Holding(loops[1..])
  }

  /** Ids popped from Redis by this pool and not finished with. */
  function InPool(p: State): nat {
    Holding(p.loops) + |p.running|
  }

  lemma {:induction false} LoopCounts(loops: seq<Loop>, k: nat, l: Loop)
    requires k < |loops|
    ensures Permits(loops[k := l])
         == Permits(loops) - (if loops[k].Permitted? then 1 else 0) + if l.Permitted? then 1 else 0
    ensures Holding(loops[k := l]) == Holding(loops)
      - (if loops[k].Popped? || loops[k].Permitted? then 1 else 0) + if l.Popped? || l.Permitted? then 1 else 0
  {
    if k == 0 {
      assert loops[k := l][1..] == loops[1..];
    } else {
      LoopCounts(loops[1..], k - 1, l);
      assert loops[k := l][1..] == loops[1..][k - 1 := l];
    }
  }

  predicate Accounted(p: State) {
    p.permits + |p.running| + Permits(p.loops) == |p.loops|
  }

  lemma {:induction false} HoldingAtMost(loops: seq<Loop>)
    ensures Permits(loops) <= Holding(loops) <= |loops|
  {
    if loops != [] {
      HoldingAtMost(loops[1..]);
    }
  }

  lemma AccountedStep(p: State, step: Step)
    requires Accounted(p) && Enabled(p, step)
    ensures Accounted(Next(p, step)) && |Next(p, step).loops| == |p.loops|
  {
    match step
    case Finish(id) => assert |p.running - multiset{id}| == |p.running| - 1;
    case _ => LoopCounts(p.loops, step.k, Next(p, step).loops[step.k]);
  }

  lemma {:induction false} AccountedRun(p: State, steps: seq<Step>)
    requires Accounted(p) && ValidRun(p, steps)
    ensures Accounted(Run(p, steps)) && |Run(p, steps).loops| == |p.loops|
    decreases |steps|
  {
    if steps != [] {
      AccountedStep(p, steps[0]);
      AccountedRun(Next(p, steps[0]), steps[1..]);
    }
  }

  lemma {:induction false} AllPolling(loops: seq<Loop>)
    requires forall k :: 0 <= k < |loops| ==> loops[k] == Polling
    ensures Permits(loops) == Holding(loops) == 0
  {
    if loops != [] {
      AllPolling(loops[1..]);
    }
  }

  /**
   * Under every interleaving of c loops and their processors, free permits, running processors and permits held
   * before spawning add up to c, and at most 2c ids are out of Redis in the pool.
   */
  lemma PermitsAddUp(c: nat, steps: seq<Step>)
    requires ValidRun(Init(c), steps)
    ensures var p := Run(Init(c), steps);
      p.permits + |p.running| + Permits(p.loops) == c && InPool(p) <= 2 * c
  {
    AllPolling(Init(c).loops);
    AccountedRun(Init(c), steps);
    HoldingAtMost(Run(Init(c), steps).loops);
  }

  /** A run in which the first n loops each start a processor and pop once more. */
  function Fill(n: nat): seq<Step> {
    if n == 0 then [] else Fill(n - 1) + FillRound(n - 1, 2 * n, 2 * n + 1)
  }

  /** Loop k pops an id, starts a processor for it, and pops another. */
  function FillRound(k: nat, first: TaskId, second: TaskId): seq<Step> {
    [Pop(k, first), Acquire(k), Spawn(k), Pop(k, second)]
  }

  lemma {:induction false} RunAppend(p: State, a: seq<Step>, b: seq<Step>)
    requires ValidRun(p, a) && ValidRun(Run(p, a), b)
    ensures ValidRun(p, a + b) && Run(p, a + b) == Run(Run(p, a), b)
    decreases |a|
  {
    if a == [] {
      assert a + b == b;
    } else {
      assert (a + b)[1..] == a[1..] + b;
      RunAppend(Next(p, a[0]), a[1..], b);
    }
  }

  lemma FillOne(p: State, k: nat, first: TaskId, second: TaskId)
    requires k < |p.loops| && p.loops[k] == Polling && p.permits > 0
    ensures var steps := FillRound(k, first, second);
      ValidRun(p, steps) && Run(p, steps)
        == State(p.permits - 1, p.loops[k := Popped(second)], p.running + multiset{first})
  {
    var p1 := Next(p, Pop(k, first));
    var p2 := Next(p1, Acquire(k));
    var p3 := Next(p2, Spawn(k));
    var p4 := Next(p3, Pop(k, second));
    assert p4.loops == p.loops[k := Popped(second)];
    assert ValidRun(p3, [Pop(k, second)]) && Run(p3, [Pop(k, second)]) == p4;
    RunAppend(p2, [Spawn(k)], [Pop(k, second)]);
    assert [Spawn(k)] + [Pop(k, second)] == [Spawn(k), Pop(k, second)];
    RunAppend(p1, [Acquire(k)], [Spawn(k), Pop(k, second)]);
    assert [Acquire(k)] + [Spawn(k), Pop(k, second)] == [Acquire(k), Spawn(k), Pop(k, second)];
    RunAppend(p, [Pop(k, first)], [Acquire(k), Spawn(k), Pop(k, second)]);
    assert [Pop(k, first)] + [Acquire(k), Spawn(k), Pop(k, second)]
        == [Pop(k, first), Acquire(k), Spawn(k), Pop(k, second)];
  }

  /** The first n of c loops hold an id and have a processor running; the others are still polling. */
  predicate Filled(p: State, c: nat, n: nat) {
    && p.permits == c - n && |p.running| == n && |p.loops| == c && Holding(p.loops) == n
    && forall k :: n <= k < c ==> p.loops[k] == Polling
  }

  lemma FillStep(p: State, c: nat, n: nat, first: TaskId, second: TaskId)
    requires n < c && Filled(p, c, n)
    ensures ValidRun(p, FillRound(n, first, second)) && Filled(Run(p, FillRound(n, first, second)), c, n + 1)
  {
    FillOne(p, n, first, second);
    LoopCounts(p.loops, n, Popped(second));
  }

  lemma FillOn(p: State, steps: seq<Step>, c: nat, n: nat, first: TaskId, second: TaskId)
    requires ValidRun(p, steps) && n < c && Filled(Run(p, steps), c, n)
    ensures ValidRun(p, steps + FillRound(n, first, second))
    ensures Filled(Run(p, steps + FillRound(n, first, second)), c, n + 1)
  {
    FillStep(Run(p, steps), c, n, first, second);
    RunAppend(p, steps, FillRound(n, first, second));
  }

  lemma {:induction false} FillRuns(c: nat, n: nat)
    requires n <= c
    ensures ValidRun(Init(c), Fill(n)) && Filled(Run(Init(c), Fill(n)), c, n)
  {
    if n == 0 {
      AllPolling(Init(c).loops);
    } else {
      FillRuns(c, n - 1);
      FillOn(Init(c), Fill(n - 1), c, n - 1, 2 * n, 2 * n + 1);
    }
  }

  /** The bound is reached: some run of every pool has exactly 2c ids out of Redis. */
  lemma BoundIsReached(c: nat)
    ensures ValidRun(Init(c), Fill(c)) && InPool(Run(Init(c), Fill(c))) == 2 * c
  {
    FillRuns(c, c);
  }
}
