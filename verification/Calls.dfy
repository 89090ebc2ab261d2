/**
 * Whole service calls as runs of per-task steps, and the coverage of scheduled tasks between calls.
 */
module Calls {
  import opened Prelude
  import opened Domain
  import opened ScheduledSet
  import opened Protocol
  import opened Listing
  import opened Machine
  import opened Views
  import opened Local
  import opened Invariants
  import opened Reachability

  function ClaimSteps(ids: seq<TaskId>): seq<Step> {
    if ids == [] then [] else [Claim(ids[0])] + ClaimSteps(ids[1..])
  }

  /** The release iterations up to and including the one that raises. */
  function ReleaseSteps(c: Config, s: Store, ids: seq<TaskId>, up: set<TaskId>): seq<Step>
    decreases |ids|
  {
    if ids == [] then []
    else
      var (s1, release) := ReleaseTask(c, s, ids[0], ids[0] in up);
      [ReleaseOne(ids[0], ids[0] in up)] + if release == Raised then [] else ReleaseSteps(c, s1, ids[1..], up)
  }

  /** The clock does not run back while a loop goes through its tasks. */
  predicate Rising(now: int, ids: seq<TaskId>, clock: Clock)
    decreases |ids|
  {
    ids == [] || (now <= clock(ids[0]) && Rising(clock(ids[0]), ids[1..], clock))
  }

  /** The sweep iterations up to and including the one that raises, each at its own clock reading. */
  function SweepSteps(s: Store, ids: seq<TaskId>, now: int, clock: Clock, pushUp: set<TaskId>, clearUp: set<TaskId>):
      seq<Step>
    requires Rising(now, ids, clock)
    decreases |ids|
  {
    if ids == [] then []
    else
      var at := clock(ids[0]);
      var (s1, sweep) := SweepTask(s, ids[0], at, ids[0] in pushUp, ids[0] in clearUp);
      [Tick(at - now), SweepOne(ids[0], ids[0] in pushUp, ids[0] in clearUp)]
        + if sweep == SweepRaised then [] else SweepSteps(s1, ids[1..], at, clock, pushUp, clearUp)
  }

  function RepairSteps(ids: seq<TaskId>, now: int, clock: Clock, up: set<TaskId>): seq<Step>
    requires Rising(now, ids, clock)
    decreases |ids|
  {
    if ids == [] then []
    else
      [Tick(clock(ids[0]) - now), Repair(ids[0], ids[0] in up)] + RepairSteps(ids[1..], clock(ids[0]), clock, up)
  }

  function AfterClaims(s: Store, ids: set<TaskId>): Store {
    s.(redis := s.redis.(scheduled := s.redis.scheduled - ids))
  }

  /** Two states that differ in no more than the stores, the clock, and the record of tasks adrift. */
  predicate SameHands(a: State, b: State) {
    a.config == b.config && a.workers == b.workers && a.claimed == b.claimed
  }

  /** The tail of an enumeration without repetitions, as a set. */
  lemma TailMembers(ids: seq<TaskId>)
    requires ids != [] && Distinct(ids)
    ensures Distinct(ids[1..]) && Members(ids) == {ids[0]} + Members(ids[1..]) && ids[0] !in Members(ids[1..])
  {}

  lemma {:induction false} ClaimsRun(st: State, ids: seq<TaskId>, rules: Rules)
    requires Members(ids) <= DueIds(st.store.redis.scheduled, st.now) && Distinct(ids)
    ensures ValidRun(st, ClaimSteps(ids), rules)
    ensures var st' := Run(st, ClaimSteps(ids), rules);
      && SameHands(st.(claimed := st.claimed + Members(ids)), st') && st'.now == st.now
      && st'.store == AfterClaims(st.store, Members(ids))
    decreases |ids|
  {
    if ids == [] {
      assert AfterClaims(st.store, {}) == st.store;
    } else {
      TailMembers(ids);
      var step := Claim(ids[0]);
      var next := Next(st, step);
      var rest := Members(ids[1..]);
      DueAfterRemoval(st.store.redis.scheduled, st.now, {ids[0]});
      ClaimsRun(next, ids[1..], rules);
      assert ClaimSteps(ids)[0] == step && ClaimSteps(ids)[1..] == ClaimSteps(ids[1..]);
      RemovedTwice(st.store.redis.scheduled, {ids[0]}, rest);
      assert st.claimed + {ids[0]} + rest == st.claimed + Members(ids);
    }
  }

  lemma RemovedTwice(z: map<TaskId, int>, a: set<TaskId>, b: set<TaskId>)
    ensures z - a - b == z - (a + b)
  {}

  lemma {:induction false} ReleasesRun(st: State, ids: seq<TaskId>, up: set<TaskId>, rules: Rules)
    requires Members(ids) <= st.claimed && Distinct(ids)
    ensures var steps := ReleaseSteps(st.config, st.store, ids, up);
      && ValidRun(st, steps, rules)
      && var st' := Run(st, steps, rules);
         && st'.store == ReleaseAll(st.config, st.store, ids, up).0
         && st'.config == st.config && st'.now == st.now && st'.workers == st.workers
         && (ReleaseAll(st.config, st.store, ids, up).1.Counted? ==> st'.claimed == st.claimed - Members(ids))
    decreases |ids|
  {
    if ids != [] {
      var step := ReleaseOne(ids[0], ids[0] in up);
      TailMembers(ids);
      var next := Next(st, step);
      var steps := ReleaseSteps(st.config, st.store, ids, up);
      assert steps[0] == step;
      var (s1, release) := ReleaseTask(st.config, st.store, ids[0], ids[0] in up);
      if release == Raised {
        assert steps[1..] == [];
      } else {
        assert steps[1..] == ReleaseSteps(st.config, s1, ids[1..], up);
        ReleasesRun(next, ids[1..], up, rules);
        assert st.claimed - {ids[0]} - Members(ids[1..]) == st.claimed - Members(ids);
      }
    }
  }

  /** The per-task steps of `process_due_tasks`: the claims of a batch, then its releases. */
  function ReleaseCallSteps(st: State, batch: nat, up: set<TaskId>): seq<Step> {
    var ids := Range(st.store.redis.scheduled, st.now, batch);
    ClaimSteps(ids) + ReleaseSteps(st.config, AfterClaims(st.store, Members(ids)), ids, up)
  }

  /** `process_due_tasks` is a run of claim and release steps; unless it raised, no claim is left over. */
  lemma ReleaseCall(st: State, batch: nat, up: set<TaskId>, rules: Rules)
    ensures var steps := ReleaseCallSteps(st, batch, up);
      && ValidRun(st, steps, rules)
      && Run(st, steps, rules).store == ProcessDue(st.config, st.store, st.now, batch, up).0
      && (ProcessDue(st.config, st.store, st.now, batch, up).1.Counted? && st.claimed == {} ==>
            Run(st, steps, rules).claimed == {})
  {
    var ids := Range(st.store.redis.scheduled, st.now, batch);
    RangeIsLowestDue(st.store.redis.scheduled, st.now, batch);
    ClaimsRun(st, ids, rules);
    var mid := Run(st, ClaimSteps(ids), rules);
    ReleasesRun(mid, ids, up, rules);
    RunsCompose(st, ClaimSteps(ids), ReleaseSteps(st.config, mid.store, ids, up), rules);
  }

  /** Time passes, then a service acts on a task. */
  lemma TickThen(st: State, seconds: nat, step: Step, rest: seq<Step>, rules: Rules)
    requires Enabled(st.(now := st.now + seconds), step) && Obeys(st.(now := st.now + seconds), step, rules)
    requires ValidRun(Next(st.(now := st.now + seconds), step), rest, rules)
    ensures ValidRun(st, [Tick(seconds), step] + rest, rules)
    ensures Run(st, [Tick(seconds), step] + rest, rules) == Run(Next(st.(now := st.now + seconds), step), rest, rules)
  {
    var mid := st.(now := st.now + seconds);
    RunsOnward(mid, step, rest, rules);
    assert Next(st, Tick(seconds)) == mid;
    RunsOnward(st, Tick(seconds), [step] + rest, rules);
    assert [Tick(seconds), step] + rest == [Tick(seconds)] + ([step] + rest);
  }

  lemma SweptState(st: State, id: TaskId, pushUp: bool, clearUp: bool)
    ensures var next := Next(st, SweepOne(id, pushUp, clearUp));
      SameHands(st, next) && next.now == st.now && next.store == SweepTask(st.store, id, st.now, pushUp, clearUp).0
  {}

  /** `reconcile` is a run of sweep steps, at the instants at which it reads the clock. */
  lemma {:induction false} ReconcileCall(st: State, ids: seq<TaskId>, clock: Clock, pushUp: set<TaskId>,
      clearUp: set<TaskId>)
    requires Rising(st.now, ids, clock)
    ensures var steps := SweepSteps(st.store, ids, st.now, clock, pushUp, clearUp);
      && ValidRun(st, steps, ANY)
      && SameHands(st, Run(st, steps, ANY)) && st.now <= Run(st, steps, ANY).now
      && Run(st, steps, ANY).store == SweepAll(st.store, ids, clock, pushUp, clearUp).0
    decreases |ids|
  {
    if ids != [] {
      var at, step := st.(now := clock(ids[0])), SweepOne(ids[0], ids[0] in pushUp, ids[0] in clearUp);
      var next, wait := Next(at, step), clock(ids[0]) - st.now;
      SweptState(at, ids[0], ids[0] in pushUp, ids[0] in clearUp);
      var (s1, sweep) := SweepTask(st.store, ids[0], clock(ids[0]), ids[0] in pushUp, ids[0] in clearUp);
      var rest := if sweep == SweepRaised then [] else SweepSteps(s1, ids[1..], next.now, clock, pushUp, clearUp);
      assert SweepSteps(st.store, ids, st.now, clock, pushUp, clearUp) == [Tick(wait), step] + rest;
      if sweep != SweepRaised {
        ReconcileCall(next, ids[1..], clock, pushUp, clearUp);
      }
      TickThen(st, wait, step, rest, ANY);
    }
  }

  /** `reconcile_enqueue_failed` is a run of repair steps, at the instants at which it reads the clock. */
  lemma {:induction false} RepairCall(st: State, ids: seq<TaskId>, clock: Clock, up: set<TaskId>, rules: Rules)
    requires Rising(st.now, ids, clock)
    ensures var steps := RepairSteps(ids, st.now, clock, up);
      && ValidRun(st, steps, rules)
      && SameHands(st, Run(st, steps, rules))
      && Run(st, steps, rules).store == RepairAll(st.store, ids, clock, up).0
    decreases |ids|
  {
    if ids != [] {
      var at := st.(now := clock(ids[0]));
      var step := Repair(ids[0], ids[0] in up);
      RepairCall(Next(at, step), ids[1..], clock, up, rules);
      TickThen(st, clock(ids[0]) - st.now, step, RepairSteps(ids[1..], clock(ids[0]), clock, up), rules);
    }
  }

  // ---------------------------------------------------------------- scheduled tasks between calls

  /** Every release push of the run is accepted. */
  predicate ReleasesAccepted(steps: seq<Step>) {
    forall i :: 0 <= i < |steps| && steps[i].ReleaseOne? ==> steps[i].up
  }

  predicate NeverAdrift(v: View) {
    v.f.row.Some? && (v.f.row.value.status == Scheduled || v.f.row.value.status == EnqueueFailed) ==> !v.adrift
  }

  lemma NeverAdriftStep(c: Config, now: int, id: TaskId, v: View, step: Step)
    requires Basic(v, id) && NeverAdrift(v) && LocalEnabled(v, id, step)
    requires step.ReleaseOne? ==> step.up
    ensures NeverAdrift(LocalAfter(c, now, id, v, step))
  {
    if step.Finish? {
      assert CopyOk(v.hands[step.slot], id, v.f.row.value);
    }
  }

  lemma {:induction false} NeverAdriftRun(st: State, steps: seq<Step>, id: TaskId)
    requires Inv(ANY, st) && NeverAdrift(ViewOf(st, id))
    requires ValidRun(st, steps, ANY) && ReleasesAccepted(steps)
    ensures NeverAdrift(ViewOf(Run(st, steps, ANY), id))
    decreases |steps|
  {
    if steps != [] {
      NextInv(ANY, st, steps[0]);
      assert GoodAt(ANY, st, id);
      StepEffect(st, steps[0], id);
      if Focus(st, steps[0]) == Some(id) {
        NeverAdriftStep(st.config, st.now, id, ViewOf(st, id), steps[0]);
      }
      assert ReleasesAccepted(steps[1..]);
      NeverAdriftRun(Next(st, steps[0]), steps[1..], id);
    }
  }

  /**
   * In any run in which the release loop's pushes are accepted, a scheduled task is in the ZSET whenever no claim is
   * pending, which is the case between whole `process_due_tasks` calls.
   */
  lemma ScheduledIsInZset(c: Config, levels: nat, steps: seq<Step>, id: TaskId)
    requires 0 < levels && ValidRun(Init(c, levels), steps, ANY) && ReleasesAccepted(steps)
    ensures var st := Run(Init(c, levels), steps, ANY);
      id in st.store.rows && st.store.rows[id].status == Scheduled && st.claimed == {} ==>
          id in st.store.redis.scheduled
  {
    InitInv(ANY, c, levels);
    RunInv(ANY, Init(c, levels), steps);
    NeverAdriftRun(Init(c, levels), steps, id);
    assert GoodAt(ANY, Run(Init(c, levels), steps, ANY), id);
  }

  // ---------------------------------------------------------------- runs that lose nothing

  /** No pointer of a queued task is given up: pushes and checks are accepted and no worker dies before starting. */
  predicate LossFree(st: State, step: Step) {
    && (step.ReleaseOne? ==> step.up)
    && (step.Start? ==> step.checkUp)
    && (step.Crash? ==> step.slot in st.workers && st.workers[step.slot].Executing?)
  }

  ghost predicate LossFreeRun(st: State, steps: seq<Step>)
    requires ValidRun(st, steps, ANY)
    decreases |steps|
  {
    steps == [] || (LossFree(st, steps[0]) && LossFreeRun(Next(st, steps[0]), steps[1..]))
  }

  /**
   * A queued first attempt is in a ready list or in hand; under the repaired release step a retry has a pointer too.
   */
  predicate Firm(c: Config, v: View) {
    v.f.row.Some? && v.f.row.value.status == Queued ==>
      || v.f.waiting > 0 || HeldView(v)
      || (v.f.row.value.attempts > 0 && (!c.redelivers || v.f.zset || v.claimed))
  }

  lemma FirmService(c: Config, now: int, id: TaskId, v: View, step: Step)
    requires Basic(v, id) && Firm(c, v) && v.f.row.Some? && LocalEnabled(v, id, step)
    requires step.Repair? || step.Replay? || step.Cancel? || step.SweepOne? || step.Claim?
        || (step.ReleaseOne? && step.up)
    ensures Firm(c, LocalNext(c, now, id, v, step))
  {
    assert LocalNext(c, now, id, v, step).hands == v.hands;
  }

  lemma FirmStep(c: Config, now: int, id: TaskId, v: View, step: Step)
    requires Basic(v, id) && Firm(c, v) && LocalEnabled(v, id, step)
    requires (step.ReleaseOne? ==> step.up) && (step.Start? ==> step.checkUp)
    requires step.Crash? ==> v.hands[step.slot].Executing?
    ensures Firm(c, LocalNext(c, now, id, v, step))
  {
    var v' := LocalNext(c, now, id, v, step);
    match step
    case Dequeue(slot) => assert v'.hands[slot].Held?;
    case Start(_, _, _, _) =>
    case Finish(slot, _, _, _) =>
      assert CopyOk(v.hands[slot], id, v.f.row.value);
      HeldElsewhere(v, v', slot);
    case Crash(slot, _) => HeldElsewhere(v, v', slot);
    case Submit(_, _, _, _) =>
    case Tick(_) =>
    case _ => if v.f.row.Some? { FirmService(c, now, id, v, step); }
  }

  lemma {:induction false} FirmRun(st: State, steps: seq<Step>, id: TaskId)
    requires Inv(ANY, st) && Firm(st.config, ViewOf(st, id))
    requires ValidRun(st, steps, ANY) && LossFreeRun(st, steps)
    ensures Firm(st.config, ViewOf(Run(st, steps, ANY), id))
    decreases |steps|
  {
    if steps != [] {
      var step := steps[0];
      NextInv(ANY, st, step);
      assert GoodAt(ANY, st, id);
      StepEffect(st, step, id);
      if Focus(st, step) == Some(id) {
        FirmStep(st.config, st.now, id, ViewOf(st, id), step);
      }
      FirmRun(Next(st, step), steps[1..], id);
    }
  }

  /**
   * As long as no push is refused and no worker loses an id before starting it, a queued task has a delivery pointer,
   * but for one that waits to be retried under the shipped release step. Under the repaired step there is no exception.
   */
  lemma QueuedIsCovered(c: Config, levels: nat, steps: seq<Step>, id: TaskId)
    requires 0 < levels && ValidRun(Init(c, levels), steps, ANY) && LossFreeRun(Init(c, levels), steps)
    ensures var st := Run(Init(c, levels), steps, ANY);
      id in st.store.rows && st.store.rows[id].status == Queued ==>
        Pointed(st, id) || (!c.redelivers && st.store.rows[id].attempts > 0)
  {
    InitInv(ANY, c, levels);
    FirmRun(Init(c, levels), steps, id);
    RunInv(ANY, Init(c, levels), steps);
    var st := Run(Init(c, levels), steps, ANY);
    assert GoodAt(ANY, st, id);
    HeldIsInHand(st, id);
  }
}
