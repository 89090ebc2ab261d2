/**
 * Exactly when a cancel mark can be outlived: which marked tasks some run of the shipped code starts again.
 */
module Escapes {
  import opened Prelude
  import opened Domain
  import opened Protocol
  import opened Machine
  import opened Views
  import opened Local
  import opened Invariants
  import opened Audit
  import opened Reachability
  import opened Marks
  import ReadyQueue

  // ---------------------------------------------------------------- the condition

  function HeldSlots(hands: map<Slot, Worker>): set<Slot> {
    set slot | slot in hands && hands[slot].Held?
  }

  /** Live runs whose failure exhausts the budget and dead-letters the task. */
  function SpentSlots(hands: map<Slot, Worker>): set<Slot> {
    set slot | slot in hands && hands[slot].Executing? && !CanRetryOnceMore(hands[slot].copy)
  }

  /** Live runs whose failure puts the task off to be retried. */
  function SpareSlots(hands: map<Slot, Worker>): set<Slot> {
    set slot | slot in hands && hands[slot].Executing? && CanRetryOnceMore(hands[slot].copy)
  }

  predicate CanRetryOnceMore(copy: Row) {
    copy.attempts + 1 < copy.maxRetries
  }

  /** `pointers` counts the task's ready entries and the workers that popped one; the others count its live runs. */
  datatype Tally = Tally(pointers: nat, spent: nat, spare: nat)

  function TallyOf(v: View): Tally {
    Tally(v.f.waiting + |HeldSlots(v.hands)|, |SpentSlots(v.hands)|, |SpareSlots(v.hands)|)
  }

  /**
   * For a cancelled task whose mark is gone: a live run can bring it back, by dead-lettering it to be replayed
   * or, if a pointer is left over, by putting it back to QUEUED.
   */
  predicate CanStart(t: Tally) {
    t.spent > 0 || (t.spare > 0 && t.pointers > 0)
  }

  /** A marked, queued task: a pointer brings it to a worker, which clears the mark. */
  predicate CanClear(t: Tally) {
    t.pointers > 0 && CanStart(t.(pointers := t.pointers - 1))
  }

  /**
   * For a marked task: it is queued, or a replay or the failure of a live run queues it, and then it can be cleared.
   */
  predicate CanEscape(status: Status, t: Tally) {
    || (status == Queued && CanClear(t))
    || (status == DeadLetter && CanStart(t))
    || (t.spent > 0 && CanStart(t.(spent := t.spent - 1)))
    || (t.spare > 0 && CanClear(t.(spare := t.spare - 1)))
  }

  // ---------------------------------------------------------------- counting hands

  lemma OneLess(s: set<Slot>, slot: Slot)
    ensures |s - {slot}| == |s| - if slot in s then 1 else 0
  {
    if slot !in s {
      assert s - {slot} == s;
    }
  }

  lemma HandDropped(hands: map<Slot, Worker>, slot: Slot)
    requires slot in hands
    ensures |HeldSlots(hands - {slot})| == |HeldSlots(hands)| - if hands[slot].Held? then 1 else 0
    ensures |SpentSlots(hands - {slot})| == |SpentSlots(hands)| - if slot in SpentSlots(hands) then 1 else 0
    ensures |SpareSlots(hands - {slot})| == |SpareSlots(hands)| - if slot in SpareSlots(hands) then 1 else 0
  {
    assert HeldSlots(hands - {slot}) == HeldSlots(hands) - {slot};
    assert SpentSlots(hands - {slot}) == SpentSlots(hands) - {slot};
    assert SpareSlots(hands - {slot}) == SpareSlots(hands) - {slot};
    OneLess(HeldSlots(hands), slot);
    OneLess(SpentSlots(hands), slot);
    OneLess(SpareSlots(hands), slot);
  }

  lemma HandAdded(hands: map<Slot, Worker>, slot: Slot, id: TaskId)
    requires slot !in hands
    ensures |HeldSlots(hands[slot := Held(id)])| == |HeldSlots(hands)| + 1
    ensures SpentSlots(hands[slot := Held(id)]) == SpentSlots(hands)
    ensures SpareSlots(hands[slot := Held(id)]) == SpareSlots(hands)
  {
    assert HeldSlots(hands[slot := Held(id)]) == HeldSlots(hands) + {slot};
  }

  // ---------------------------------------------------------------- without the condition, no start

  /** No later start: the mark cannot be outlived, or nothing can start the task, or nothing can bring it back. */
  predicate Closed(v: View) {
    v.f.row.Some? && ClosedAt(v.f.row.value.status, v.f.marked, TallyOf(v))
  }

  predicate ClosedAt(status: Status, marked: bool, t: Tally) {
    || (marked && status != Running && !CanEscape(status, t))
    || (t.pointers == t.spent == 0 && (status == Cancelled || status == Queued || status == Completed))
    || (t.spent == t.spare == 0 && status == Cancelled)
  }

  lemma ClosedDelivery(c: Config, now: int, id: TaskId, v: View, step: Step)
    requires Basic(v, id) && Closed(v) && LocalEnabled(v, id, step) && !c.redelivers
    requires step.Repair? || step.ReleaseOne?
    ensures Closed(LocalNext(c, now, id, v, step))
  {
    assert LocalNext(c, now, id, v, step).hands == v.hands;
    if v.f.row.value.status == Scheduled || v.f.row.value.status == EnqueueFailed {
      assert HeldSlots(v.hands) == {} && SpentSlots(v.hands) == {} && SpareSlots(v.hands) == {};
    }
  }

  lemma ClosedService(c: Config, now: int, id: TaskId, v: View, step: Step)
    requires Basic(v, id) && Closed(v) && LocalEnabled(v, id, step)
    requires step.Replay? || step.Cancel? || step.SweepOne? || step.Claim? || step.Tick?
    ensures Closed(LocalNext(c, now, id, v, step))
  {
    assert LocalNext(c, now, id, v, step).hands == v.hands;
  }

  lemma ClosedStart(id: TaskId, v: View, slot: Slot, worker: string, now: int, checkUp: bool, writeUp: bool)
    requires Closed(v) && slot in v.hands && v.hands[slot] == Held(id)
    ensures var v' := StartView(v, id, slot, worker, now, checkUp, writeUp);
      Closed(v') && Count(v'.f.trail, TaskStarted) == Count(v.f.trail, TaskStarted)
  {
    HandDropped(v.hands, slot);
    assert slot in HeldSlots(v.hands);
    DoomedStart(id, v, slot, worker, now, checkUp, writeUp);
  }

  /**
   * What a live run's end makes of the row: completed, dead-lettered or queued by its budget, or, if the push raised,
   * nothing.
   */
  lemma FinishedStatus(id: TaskId, f: Facts, copy: Row, outcome: Outcome, now: int, pushUp: bool)
    requires f.row.Some?
    ensures var g := FinishFacts(id, f, copy, outcome, now, pushUp);
      && g.row.Some? && g.marked == f.marked && g.waiting == f.waiting
      && if outcome.Succeeded? then g.row.value.status == Completed
         else if !pushUp then g == f
         else g.row.value.status == if CanRetryOnceMore(copy) then Queued else DeadLetter
  {}

  lemma ClosedAfterRun(status: Status, marked: bool, t: Tally, status': Status, t': Tally)
    requires ClosedAt(status, marked, t)
    requires || (t.spent > 0 && t' == t.(spent := t.spent - 1) && status' in {status, Completed, DeadLetter})
             || (t.spare > 0 && t' == t.(spare := t.spare - 1) && status' in {status, Completed, Queued})
    ensures ClosedAt(status', marked, t')
  {}

  lemma ClosedFinish(id: TaskId, v: View, slot: Slot, outcome: Outcome, now: int, pushUp: bool)
    requires Basic(v, id) && Closed(v) && slot in v.hands && v.hands[slot].Executing?
    ensures Closed(v.(f := FinishFacts(id, v.f, v.hands[slot].copy, outcome, now, pushUp), hands := v.hands - {slot}))
  {
    HandDropped(v.hands, slot);
    assert CopyOk(v.hands[slot], id, v.f.row.value);
    assert slot in SpentSlots(v.hands) || slot in SpareSlots(v.hands);
    FinishedStatus(id, v.f, v.hands[slot].copy, outcome, now, pushUp);
    var v' := v.(f := FinishFacts(id, v.f, v.hands[slot].copy, outcome, now, pushUp), hands := v.hands - {slot});
    ClosedAfterRun(v.f.row.value.status, v.f.marked, TallyOf(v), v'.f.row.value.status, TallyOf(v'));
  }

  lemma ClosedStep(c: Config, now: int, id: TaskId, v: View, step: Step)
    requires Basic(v, id) && Closed(v) && LocalEnabled(v, id, step) && !c.redelivers
    ensures var v' := LocalNext(c, now, id, v, step);
      Closed(v') && Count(v'.f.trail, TaskStarted) == Count(v.f.trail, TaskStarted)
  {
    if step.Start? {
      ClosedStart(id, v, step.slot, step.worker, now, step.checkUp, step.writeUp);
    } else {
      OnlyStartStarts(c, now, id, v, step);
      match step
      case Dequeue(slot) => HandAdded(v.hands, slot, id);
      case Finish(slot, outcome, pushUp, _) => ClosedFinish(id, v, slot, outcome, now, pushUp);
      case Crash(slot, _) => HandDropped(v.hands, slot);
      case Submit(_, _, _, _) =>
      case Repair(_, _) => ClosedDelivery(c, now, id, v, step);
      case ReleaseOne(_, _) => ClosedDelivery(c, now, id, v, step);
      case _ => ClosedService(c, now, id, v, step);
    }
  }

  lemma ClosedNext(st: State, step: Step, id: TaskId)
    requires Inv(ANY, st) && Enabled(st, step) && Closed(ViewOf(st, id)) && !st.config.redelivers
    ensures Closed(ViewOf(Next(st, step), id)) && Starts(Next(st, step), id) == Starts(st, id)
  {
    assert GoodAt(ANY, st, id);
    StepEffect(st, step, id);
    if Focus(st, step) == Some(id) {
      var v := ViewOf(st, id);
      ClosedStep(st.config, st.now, id, v, step);
      SettledCounts(LocalNext(st.config, st.now, id, v, step), LocalUsesPointer(v, id, step));
    }
  }

  lemma SettledCounts(v: View, used: bool)
    ensures Closed(v) ==> Closed(Settled(v, used))
    ensures TallyOf(Settled(v, used)) == TallyOf(v)
  {}

  lemma {:induction false} ClosedRun(st: State, steps: seq<Step>, id: TaskId)
    requires Inv(ANY, st) && ValidRun(st, steps, ANY) && Closed(ViewOf(st, id)) && !st.config.redelivers
    ensures Starts(Run(st, steps, ANY), id) == Starts(st, id)
    decreases |steps|
  {
    if steps != [] {
      NextInv(ANY, st, steps[0]);
      ClosedNext(st, steps[0], id);
      ClosedRun(Next(st, steps[0]), steps[1..], id);
    }
  }

  // ---------------------------------------------------------------- with the condition, a start can be logged

  /** The task's view at the end of a run of the shipped code. */
  ghost predicate Leads(st: State, steps: seq<Step>, id: TaskId, v: View) {
    && ValidRun(st, steps, ANY)
    && ViewOf(Run(st, steps, ANY), id) == v
    && Inv(ANY, Run(st, steps, ANY)) && Run(st, steps, ANY).config == st.config
  }

  lemma LeadsOn(st: State, a: seq<Step>, b: seq<Step>, id: TaskId, v: View, w: View)
    requires Leads(st, a, id, v) && Leads(Run(st, a, ANY), b, id, w)
    ensures Leads(st, a + b, id, w)
  {
    RunsCompose(st, a, b, ANY);
  }

  lemma OneStep(st: State, step: Step, id: TaskId)
    requires Inv(ANY, st) && Enabled(st, step) && Focus(st, step) == Some(id) && !step.Submit?
    ensures LocalEnabled(ViewOf(st, id), id, step)
    ensures Leads(st, [step], id, LocalAfter(st.config, st.now, id, ViewOf(st, id), step))
  {
    StepEffect(st, step, id);
    NextInv(ANY, st, step);
    assert [step][1..] == [];
  }

  lemma FreshSlot(used: set<Slot>) returns (slot: Slot)
    ensures slot !in used
  {
    slot := BoundOf(used);
  }

  lemma {:induction false} BoundOf(used: set<Slot>) returns (bound: Slot)
    ensures forall slot :: slot in used ==> slot < bound
    decreases |used|
  {
    bound := 0;
    if used != {} {
      var slot :| slot in used;
      var rest := used - {slot};
      var below := BoundOf(rest);
      bound := Max(below, slot + 1);
      assert forall other :: other in used && other != slot ==> other in rest;
    }
  }

  lemma WaitingCanBePopped(lists: seq<seq<TaskId>>, id: TaskId)
    requires Copies(lists, id) > 0
    ensures ReadyQueue.Pop(lists).Some?
  {
    if ReadyQueue.Pop(lists).None? {
      NoCopies(lists, id);
    }
  }

  /** Popping goes on until the task is in some worker's hand. */
  lemma {:induction false} Fetched(st: State, id: TaskId) returns (steps: seq<Step>, slot: Slot)
    requires Inv(ANY, st) && ViewOf(st, id).f.waiting > 0
    ensures var v := ViewOf(st, id);
      && slot !in v.hands
      && Leads(st, steps, id,
           v.(f := v.f.(waiting := v.f.waiting - 1), hands := v.hands[slot := Held(id)], adrift := false))
    decreases |ReadyQueue.Order(st.store.redis.ready)|
  {
    slot := FreshSlot(st.workers.Keys);
    steps := [Dequeue(slot)];
    WaitingCanBePopped(st.store.redis.ready, id);
    ReadyQueue.PopIsHead(st.store.redis.ready);
    var next := Next(st, Dequeue(slot));
    StepEffect(st, Dequeue(slot), id);
    NextInv(ANY, st, Dequeue(slot));
    assert steps[1..] == [];
    if Focus(st, Dequeue(slot)) == Some(id) {
      var hands := ViewOf(st, id).hands[slot := Held(id)];
      assert hands[slot].Held?;
    } else {
      var rest, taken := Fetched(next, id);
      LeadsOn(st, [Dequeue(slot)], rest, id, ViewOf(st, id), ViewOf(Run(next, rest, ANY), id));
      steps, slot := [Dequeue(slot)] + rest, taken;
    }
  }

  /** What matters of a task on the way to a start. */
  ghost predicate Stands(st: State, id: TaskId, status: Status, marked: bool, t: Tally) {
    var v := ViewOf(st, id);
    && Inv(ANY, st) && !st.config.redelivers
    && v.f.row.Some? && v.f.row.value.status == status && v.f.marked == marked && TallyOf(v) == t
  }

  ghost predicate Reaches(st: State, steps: seq<Step>, id: TaskId, status: Status, marked: bool, t: Tally) {
    ValidRun(st, steps, ANY) && Stands(Run(st, steps, ANY), id, status, marked, t)
  }

  lemma ReachesOn(st: State, a: seq<Step>, b: seq<Step>, id: TaskId, status: Status, marked: bool, t: Tally)
    requires ValidRun(st, a, ANY) && Reaches(Run(st, a, ANY), b, id, status, marked, t)
    ensures Reaches(st, a + b, id, status, marked, t)
  {
    RunsCompose(st, a, b, ANY);
  }

  /** A queued task with a pointer gets into a worker's hand. */
  lemma InSomeHand(st: State, id: TaskId, marked: bool, t: Tally) returns (steps: seq<Step>, slot: Slot)
    requires Stands(st, id, Queued, marked, t) && t.pointers > 0
    ensures Reaches(st, steps, id, Queued, marked, t)
    ensures var end := Run(st, steps, ANY);
      slot in end.workers && end.workers[slot] == Held(id) && ViewOf(end, id).f.row == ViewOf(st, id).f.row
  {
    var v := ViewOf(st, id);
    if v.f.waiting > 0 {
      steps, slot := Fetched(st, id);
      HandAdded(v.hands, slot, id);
      assert slot in HandsOf(Run(st, steps, ANY).workers, id);
    } else {
      slot :| slot in HeldSlots(v.hands);
      steps := [];
      assert GoodAt(ANY, st, id) && CopyOk(v.hands[slot], id, v.f.row.value);
    }
  }

  /** The pointer's worker honours the mark, and clears it. */
  lemma MarkCleared(st: State, id: TaskId, t: Tally) returns (steps: seq<Step>)
    requires Stands(st, id, Queued, true, t) && t.pointers > 0
    ensures Reaches(st, steps, id, Cancelled, false, t.(pointers := t.pointers - 1))
  {
    var fetch, slot := InSomeHand(st, id, true, t);
    var mid := Run(st, fetch, ANY);
    var start := Start(slot, "", true, true);
    OneStep(mid, start, id);
    HandDropped(ViewOf(mid, id).hands, slot);
    ReachesOn(st, fetch, [start], id, Cancelled, false, t.(pointers := t.pointers - 1));
    steps := fetch + [start];
  }

  /** Without a mark the pointer's worker starts the task. */
  lemma StartIsLogged(st: State, id: TaskId, t: Tally) returns (steps: seq<Step>)
    requires Stands(st, id, Queued, false, t) && t.pointers > 0
    ensures ValidRun(st, steps, ANY) && Starts(Run(st, steps, ANY), id) > Starts(st, id)
  {
    var fetch, slot := InSomeHand(st, id, false, t);
    var mid := Run(st, fetch, ANY);
    var start := Start(slot, "", true, true);
    OneStep(mid, start, id);
    StartCounts(id, ViewOf(mid, id), slot, mid.now);
    StartsOnlyGrow(st, fetch, id);
    RunsCompose(st, fetch, [start], ANY);
    steps := fetch + [start];
  }

  lemma StartCounts(id: TaskId, v: View, slot: Slot, now: int)
    requires v.f.row.Some? && v.f.row.value.status == Queued && !v.f.marked
    ensures Count(StartView(v, id, slot, "", now, true, true).f.trail, TaskStarted) == Count(v.f.trail, TaskStarted) + 1
  {
    CountAppend(v.f.trail, Event(id, TaskStarted, Some(Queued), Running), TaskStarted);
  }

  lemma {:induction false} CountOfPrefix(a: seq<Event>, b: seq<Event>, kind: EventKind)
    requires a <= b
    ensures Count(a, kind) <= Count(b, kind)
  {
    if |a| < |b| {
      CountOfPrefix(a, b[..|b| - 1], kind);
    } else {
      assert a == b;
    }
  }

  lemma {:induction false} StartsOnlyGrow(st: State, steps: seq<Step>, id: TaskId)
    requires ValidRun(st, steps, ANY)
    ensures Starts(st, id) <= Starts(Run(st, steps, ANY), id)
    decreases |steps|
  {
    if steps != [] {
      StepEffect(st, steps[0], id);
      if Focus(st, steps[0]) == Some(id) {
        TrailOnlyGrows(st.config, st.now, id, ViewOf(st, id), steps[0]);
        assert ViewOf(st, id).f.trail <= ViewOf(Next(st, steps[0]), id).f.trail;
      }
      CountOfPrefix(Trail(st.store.log, id), Trail(Next(st, steps[0]).store.log, id), TaskStarted);
      StartsOnlyGrow(Next(st, steps[0]), steps[1..], id);
    }
  }

  /** A live run without a further attempt fails: the task is dead-lettered, whatever it was. */
  lemma SpentRunFails(st: State, id: TaskId, status: Status, marked: bool, t: Tally) returns (steps: seq<Step>)
    requires Stands(st, id, status, marked, t) && t.spent > 0
    ensures Reaches(st, steps, id, DeadLetter, marked, t.(spent := t.spent - 1))
  {
    var v := ViewOf(st, id);
    var slot :| slot in SpentSlots(v.hands);
    var finish := Finish(slot, Errored(""), true, true);
    assert st.workers[slot] == v.hands[slot];
    OneStep(st, finish, id);
    HandDropped(v.hands, slot);
    FinishedStatus(id, v.f, v.hands[slot].copy, Errored(""), st.now, true);
    steps := [finish];
  }

  /** A live run with a further attempt fails: the task is queued, whatever it was. */
  lemma SpareRunFails(st: State, id: TaskId, status: Status, marked: bool, t: Tally) returns (steps: seq<Step>)
    requires Stands(st, id, status, marked, t) && t.spare > 0
    ensures Reaches(st, steps, id, Queued, marked, t.(spare := t.spare - 1))
  {
    var v := ViewOf(st, id);
    var slot :| slot in SpareSlots(v.hands);
    var finish := Finish(slot, Errored(""), true, true);
    assert st.workers[slot] == v.hands[slot];
    OneStep(st, finish, id);
    HandDropped(v.hands, slot);
    FinishedStatus(id, v.f, v.hands[slot].copy, Errored(""), st.now, true);
    steps := [finish];
  }

  lemma DeadLetterReplayed(st: State, id: TaskId, marked: bool, t: Tally) returns (steps: seq<Step>)
    requires Stands(st, id, DeadLetter, marked, t)
    ensures Reaches(st, steps, id, Queued, marked, t.(pointers := t.pointers + 1))
  {
    OneStep(st, Replay(id, true), id);
    steps := [Replay(id, true)];
  }

  lemma StartAfterClear(st: State, id: TaskId, t: Tally) returns (steps: seq<Step>)
    requires Stands(st, id, Cancelled, false, t) && CanStart(t)
    ensures ValidRun(st, steps, ANY) && Starts(Run(st, steps, ANY), id) > Starts(st, id)
  {
    var failed, queued: seq<Step>, t' := [], [], t;
    if t.spent > 0 {
      failed := SpentRunFails(st, id, Cancelled, false, t);
      t' := t.(spent := t.spent - 1);
      queued := DeadLetterReplayed(Run(st, failed, ANY), id, false, t');
      t' := t'.(pointers := t'.pointers + 1);
    } else {
      failed := SpareRunFails(st, id, Cancelled, false, t);
      t' := t.(spare := t.spare - 1);
      assert Reaches(Run(st, failed, ANY), [], id, Queued, false, t');
    }
    ReachesOn(st, failed, queued, id, Queued, false, t');
    steps := StartIsReached(st, failed + queued, id, t');
  }

  lemma StartIsReached(st: State, before: seq<Step>, id: TaskId, t: Tally) returns (steps: seq<Step>)
    requires Reaches(st, before, id, Queued, false, t) && t.pointers > 0
    ensures ValidRun(st, steps, ANY) && Starts(Run(st, steps, ANY), id) > Starts(st, id)
  {
    var rest := StartIsLogged(Run(st, before, ANY), id, t);
    StartsOnlyGrow(st, before, id);
    RunsCompose(st, before, rest, ANY);
    steps := before + rest;
  }

  lemma QueuedEscapes(st: State, before: seq<Step>, id: TaskId, t: Tally) returns (steps: seq<Step>)
    requires Reaches(st, before, id, Queued, true, t) && CanClear(t)
    ensures ValidRun(st, steps, ANY) && Starts(Run(st, steps, ANY), id) > Starts(st, id)
  {
    var cleared := MarkCleared(Run(st, before, ANY), id, t);
    var t' := t.(pointers := t.pointers - 1);
    ReachesOn(st, before, cleared, id, Cancelled, false, t');
    var rest := StartAfterClear(Run(st, before + cleared, ANY), id, t');
    StartsOnlyGrow(st, before + cleared, id);
    RunsCompose(st, before + cleared, rest, ANY);
    steps := before + cleared + rest;
  }

  lemma DeadLetterEscapes(st: State, before: seq<Step>, id: TaskId, t: Tally) returns (steps: seq<Step>)
    requires Reaches(st, before, id, DeadLetter, true, t) && CanStart(t)
    ensures ValidRun(st, steps, ANY) && Starts(Run(st, steps, ANY), id) > Starts(st, id)
  {
    var replayed := DeadLetterReplayed(Run(st, before, ANY), id, true, t);
    ReachesOn(st, before, replayed, id, Queued, true, t.(pointers := t.pointers + 1));
    steps := QueuedEscapes(st, before + replayed, id, t.(pointers := t.pointers + 1));
  }

  lemma Escape(st: State, id: TaskId, status: Status, t: Tally) returns (steps: seq<Step>)
    requires Stands(st, id, status, true, t) && CanEscape(status, t)
    ensures ValidRun(st, steps, ANY) && Starts(Run(st, steps, ANY), id) > Starts(st, id)
  {
    if status == Queued && CanClear(t) {
      steps := QueuedEscapes(st, [], id, t);
    } else if status == DeadLetter && CanStart(t) {
      steps := DeadLetterEscapes(st, [], id, t);
    } else if t.spent > 0 && CanStart(t.(spent := t.spent - 1)) {
      var failed := SpentRunFails(st, id, status, true, t);
      steps := DeadLetterEscapes(st, failed, id, t.(spent := t.spent - 1));
    } else {
      var failed := SpareRunFails(st, id, status, true, t);
      steps := QueuedEscapes(st, failed, id, t.(spare := t.spare - 1));
    }
  }

  /** Some run from here logs a start of the task. */
  ghost predicate StartsAgain(st: State, id: TaskId) {
    exists steps :: ValidRun(st, steps, ANY) && Starts(Run(st, steps, ANY), id) > Starts(st, id)
  }

  /**
   * The shipped code can start a marked task again if and only if `CanEscape` holds of its status, of its ready
   * entries and popped ids, and of the budgets of its live runs, at the time of the mark.
   */
  lemma MarkIsEscapedIff(st: State, id: TaskId)
    requires Reachable(ANY, st) && !st.config.redelivers && id in st.store.rows && id in st.store.redis.cancelled
    ensures StartsAgain(st, id) <==> CanEscape(st.store.rows[id].status, TallyOf(ViewOf(st, id)))
  {
    var status, t := st.store.rows[id].status, TallyOf(ViewOf(st, id));
    ReachableInv(ANY, st);
    ReachableAt(ANY, st, id);
    if CanEscape(status, t) {
      var steps := Escape(st, id, status, t);
    } else if StartsAgain(st, id) {
      var steps :| ValidRun(st, steps, ANY) && Starts(Run(st, steps, ANY), id) > Starts(st, id);
      ClosedRun(st, steps, id);
    }
  }
}
