/** The audit log of a task over row-exclusive runs: replay, dead-letter balance and bounded lifetime. */
module Audit {
  import opened Prelude
  import opened Domain
  import opened Backoff
  import opened Protocol
  import opened Machine
  import opened Views
  import opened Local
  import opened Invariants
  import opened Delivery

  /** What an audit trail says about its task. */
  datatype Account = Unborn | Broken | Alive(status: Status, attempts: nat)

  /** Reads one event; a wrong origin or an edge outside the transition table breaks the chain. */
  function Extend(a: Account, e: Event): Account {
    match a
    case Unborn =>
      if e.kind == TaskSubmitted && e.from == None && (e.to == Pending || e.to == Scheduled) then Alive(e.to, 0)
          else Broken
    case Broken => Broken
    case Alive(status, attempts) =>
      if e.from == Some(status) && Allowed(status, e.to) then
        Alive(e.to, if IsFailure(e.kind) then attempts + 1 else if e.kind == TaskRetried then 0 else attempts)
      else Broken
  }

  function ReplayLog(trail: seq<Event>): Account {
    if trail == [] then Unborn else Extend(ReplayLog(trail[..|trail| - 1]), trail[|trail| - 1])
  }

  /** A trail that replays is an unbroken chain from nothing along the transition table. */
  lemma {:induction false} ReplayedTrailIsChain(trail: seq<Event>)
    requires ReplayLog(trail).Alive?
    ensures |trail| > 0 && trail[0].from == None && trail[|trail| - 1].to == ReplayLog(trail).status
    ensures forall i :: 0 < i < |trail| ==>
      trail[i].from == Some(trail[i - 1].to) && Allowed(trail[i - 1].to, trail[i].to)
  {
    var n := |trail| - 1;
    if n > 0 {
      ReplayedTrailIsChain(trail[..n]);
    }
  }

  function Count(trail: seq<Event>, kind: EventKind): nat {
    if trail == [] then 0
    else Count(trail[..|trail| - 1], kind) + if trail[|trail| - 1].kind == kind then 1 else 0
  }

  function Failures(trail: seq<Event>): nat {
    Count(trail, TaskRetryScheduled) + Count(trail, TaskRequeuedTimeout) + Count(trail, TaskDeadLetter)
  }

  lemma CountAppend(trail: seq<Event>, e: Event, kind: EventKind)
    ensures Count(trail + [e], kind) == Count(trail, kind) + if e.kind == kind then 1 else 0
  {}

  /** Events a task can still log without a manual replay. */
  function Fuel(r: Row): int {
    var left := 2 * (Budget(r.maxRetries) - r.attempts);
    match r.status
    case Pending => left + 3
    case EnqueueFailed => left + 2
    case Scheduled => left + 1
    case Queued => left
    case Running => left - 1
    case _ => 0
  }

  /** The summary of a trail that the invariant relates to the row. */
  datatype Ledger = Ledger(account: Account, length: nat, starts: nat, failures: nat, replays: nat, deaths: nat)

  function LedgerOf(trail: seq<Event>): Ledger {
    Ledger(ReplayLog(trail), |trail|, Count(trail, TaskStarted), Failures(trail),
      Count(trail, TaskRetried), Count(trail, TaskDeadLetter))
  }

  predicate Balanced(l: Ledger, r: Row, dlq: nat) {
    var m := Budget(r.maxRetries);
    && l.account == Alive(r.status, r.attempts)
    && dlq == l.deaths == l.replays + (if r.status == DeadLetter then 1 else 0)
    && l.failures == m * l.replays + r.attempts
    && (l.starts == l.failures + (if r.status == Running || r.status == Completed then 1 else 0)
        || (r.status == Cancelled && l.starts == l.failures + 1))
    && l.length + Fuel(r) <= 4 + 2 * (m * (1 + l.replays)) + l.replays
    && (r.status == Cancelled ==> r.attempts < m)
    && (r.status == Completed ==> r.attempts < m)
  }

  /**
   * At most m * (1 + R) starts and 4 + 2 * m * (1 + R) + R events, with budget m, R replays, and `Fuel` events to go.
   */
  predicate Bounded(l: Ledger, r: Row) {
    var runs := Budget(r.maxRetries) * (1 + l.replays);
    l.starts <= runs && l.length + Fuel(r) <= 4 + 2 * runs + l.replays && 0 <= Fuel(r)
  }

  lemma LedgerBounds(l: Ledger, r: Row, dlq: nat)
    requires Balanced(l, r, dlq) && RowOk(r)
    ensures Bounded(l, r)
  {
    BudgetTimes(Budget(r.maxRetries), l.replays);
  }

  predicate Audited(v: View) {
    v.f.row.Some? ==>
      && Balanced(LedgerOf(v.f.trail), v.f.row.value, v.f.dlq)
      && (LiveView(v) ==> v.f.row.value.status == Running)
  }

  function Posted(l: Ledger, e: Event): Ledger {
    Ledger(Extend(l.account, e), l.length + 1,
      l.starts + (if e.kind == TaskStarted then 1 else 0),
      l.failures + (if IsFailure(e.kind) then 1 else 0),
      l.replays + (if e.kind == TaskRetried then 1 else 0),
      l.deaths + (if e.kind == TaskDeadLetter then 1 else 0))
  }

  lemma LedgerGrows(trail: seq<Event>, e: Event)
    ensures LedgerOf(trail + [e]) == Posted(LedgerOf(trail), e)
  {}

  lemma WroteLedger(f: Facts, id: TaskId, row: Row, kind: EventKind, from: Option<Status>)
    ensures LedgerOf(Wrote(f, id, row, kind, from).trail)
        == Posted(LedgerOf(f.trail), Event(id, kind, from, row.status))
  {}

  /** The writes a service makes to an existing row, with the event each logs. */
  predicate Edge(kind: EventKind, r: Row, r': Row) {
    && SameRequest(r, r')
    && match kind
       case TaskEnqueued =>
         r.status == EnqueueFailed && (r'.status == Queued || r'.status == Scheduled) && r'.attempts == r.attempts
       case TaskScheduledRelease => r.status == Scheduled && r'.status == Queued && r'.attempts == r.attempts
       case TaskStarted => r.status == Queued && r'.status == Running && r'.attempts == r.attempts
       case TaskCancelled =>
         && (r.status == Scheduled || r.status == Queued || r.status == Running)
         && r'.status == Cancelled && r'.attempts == r.attempts
       case TaskCompleted => r.status == Running && r'.status == Completed && r'.attempts == r.attempts
       case TaskRetryScheduled => r.status == Running && r'.status == Queued && r'.attempts == r.attempts + 1
       case TaskRequeuedTimeout => r.status == Running && r'.status == Queued && r'.attempts == r.attempts + 1
       case TaskDeadLetter => r.status == Running && r'.status == DeadLetter && r'.attempts == r.attempts + 1
       case TaskRetried => r.status == DeadLetter && r'.status == Queued && r'.attempts == 0
       case TaskSubmitted => false
       case TaskEnqueueFailed => false
  }

  lemma BudgetTimes(m: nat, replays: nat)
    ensures m * (1 + replays) == m * replays + m
  {}

  lemma EdgeBalanced(l: Ledger, id: TaskId, kind: EventKind, r: Row, r': Row, dlq: nat)
    requires Balanced(l, r, dlq) && RowOk(r) && RowOk(r') && Edge(kind, r, r')
    ensures Balanced(Posted(l, Event(id, kind, Some(r.status), r'.status)), r',
      dlq + if kind == TaskDeadLetter then 1 else 0)
  {
    var m := Budget(r.maxRetries);
    BudgetTimes(m, l.replays);
    BudgetTimes(m, l.replays + 1);
  }

  lemma EdgeWritten(f: Facts, id: TaskId, kind: EventKind, r: Row, r': Row, dlq: nat)
    requires f.row == Some(r) && Balanced(LedgerOf(f.trail), r, dlq) && RowOk(r) && RowOk(r') && Edge(kind, r, r')
    ensures var f' := Wrote(f, id, r', kind, Some(r.status));
      f'.row == Some(r') && Balanced(LedgerOf(f'.trail), r', dlq + if kind == TaskDeadLetter then 1 else 0)
  {
    WroteLedger(f, id, r', kind, Some(r.status));
    EdgeBalanced(LedgerOf(f.trail), id, kind, r, r', dlq);
  }

  lemma SubmittedTrail(id: TaskId, f: Facts, q: Request, now: int, wait: nat, up: bool)
    requires f == Facts(None, [], 0, false, false, 0)
    ensures var row, g := NewRow(q, now), SubmitFacts(id, f, q, now, now + wait, up);
      var accepted := up && !IsFuture(row.scheduledAt, now + wait);
      && g.dlq == 0 && g.row == Some(row.(status := if accepted then Queued else EnqueueFailed))
      && g.trail == [Event(id, TaskSubmitted, None, row.status)]
           + [if accepted then Event(id, TaskEnqueued, Some(row.status), Queued)
              else Event(id, TaskEnqueueFailed, Some(row.status), EnqueueFailed)]
  {}

  lemma FreshLedger(e: Event)
    ensures LedgerOf([e]) == Posted(Ledger(Unborn, 0, 0, 0, 0, 0), e)
  {
    assert LedgerOf([]) == Ledger(Unborn, 0, 0, 0, 0, 0);
    LedgerGrows([], e);
    assert [] + [e] == [e];
  }

  lemma SubmittedLedger(submitted: Event, enqueued: Event)
    requires submitted.kind == TaskSubmitted && submitted.from == None
    requires submitted.to == Pending || submitted.to == Scheduled
    requires enqueued.kind == TaskEnqueued || enqueued.kind == TaskEnqueueFailed
    requires enqueued.from == Some(submitted.to) && Allowed(submitted.to, enqueued.to)
    ensures LedgerOf([submitted] + [enqueued]) == Ledger(Alive(enqueued.to, 0), 2, 0, 0, 0, 0)
  {
    FreshLedger(submitted);
    LedgerGrows([submitted], enqueued);
  }

  lemma FirstBalance(r: Row, length: nat)
    requires r.attempts == 0 && length == 2 && (r.status == Queued || r.status == EnqueueFailed)
    ensures Balanced(Ledger(Alive(r.status, 0), length, 0, 0, 0, 0), r, 0)
  {}

  lemma AuditedSubmit(id: TaskId, v: View, q: Request, now: int, wait: nat, up: bool)
    requires Untouched(v)
    ensures Audited(v.(f := SubmitFacts(id, v.f, q, now, now + wait, up)))
  {
    var row := NewRow(q, now);
    var accepted := up && !IsFuture(row.scheduledAt, now + wait);
    SubmittedTrail(id, v.f, q, now, wait, up);
    SubmittedLedger(Event(id, TaskSubmitted, None, row.status),
      if accepted then Event(id, TaskEnqueued, Some(row.status), Queued)
      else Event(id, TaskEnqueueFailed, Some(row.status), EnqueueFailed));
    FirstBalance(row.(status := if accepted then Queued else EnqueueFailed), 2);
  }

  lemma AuditedRepair(id: TaskId, v: View, now: int, up: bool)
    requires Basic(v, id) && Audited(v) && v.f.row.Some?
    ensures Audited(v.(f := RepairFacts(id, v.f, v.f.row.value, now, up)))
  {
    var r := v.f.row.value;
    if r.status == EnqueueFailed && up {
      var future := IsFuture(r.scheduledAt, now);
      var g := if future then v.f.(zset := true) else v.f.(waiting := v.f.waiting + 1);
      EdgeWritten(g, id, TaskEnqueued, r, r.(status := if future then Scheduled else Queued), g.dlq);
    }
  }

  lemma AuditedReplay(id: TaskId, v: View, up: bool)
    requires Basic(v, id) && Audited(v) && v.f.row.Some?
    ensures Audited(v.(f := ReplayFacts(id, v.f, v.f.row.value, up)))
  {
    var r := v.f.row.value;
    if r.status == DeadLetter && up {
      EdgeWritten(v.f.(waiting := v.f.waiting + 1), id, TaskRetried, r, ReplayedRow(r), v.f.dlq);
    }
  }

  lemma AuditedCancel(id: TaskId, v: View, now: int, markUp: bool, removeUp: bool)
    requires Basic(v, id) && Audited(v) && v.f.row.Some? && !LiveView(v)
    ensures Audited(v.(f := CancelFacts(id, v.f, v.f.row.value, now, markUp, removeUp)))
  {
    var r := v.f.row.value;
    if Allowed(r.status, Cancelled) {
      var g := v.f.(marked := true, zset := v.f.zset && r.status != Scheduled);
      EdgeWritten(g, id, TaskCancelled, r, CancelledRow(r, now), g.dlq);
    }
  }

  lemma AuditedRelease(c: Config, id: TaskId, v: View, up: bool)
    requires Basic(v, id) && Audited(v) && v.f.row.Some?
    ensures Balanced(LedgerOf(ReleaseFacts(c, id, v.f, v.f.row.value, up).trail),
      ReleaseFacts(c, id, v.f, v.f.row.value, up).row.value, v.f.dlq)
  {
    var r := v.f.row.value;
    if r.status == Scheduled && up {
      EdgeWritten(v.f.(waiting := v.f.waiting + 1), id, TaskScheduledRelease, r, r.(status := Queued), v.f.dlq);
    }
  }

  lemma ResolvedBalanced(id: TaskId, f: Facts, r: Row, r': Row, kind: EventKind, pushUp: bool)
    requires f.row == Some(r) && Balanced(LedgerOf(f.trail), r, f.dlq) && RowOk(r) && RowOk(r') && r.status == Running
    requires IsRetry(kind) && SameRequest(r, r') && r'.attempts == r.attempts + 1
    requires r'.status == Queued || r'.status == DeadLetter
    ensures var f' := ResolveFacts(id, f, r', kind, pushUp);
      f'.row.Some? && Balanced(LedgerOf(f'.trail), f'.row.value, f'.dlq)
  {
    if pushUp {
      var g := if r'.status == Queued then f.(zset := true) else f.(dlq := f.dlq + 1);
      EdgeWritten(g, id, if r'.status == Queued then kind else TaskDeadLetter, r, r', f.dlq);
    }
  }

  lemma AuditedSweep(id: TaskId, v: View, now: int, pushUp: bool)
    requires Basic(v, id) && Audited(v) && v.f.row.Some?
    requires Overdue(v.f.row.value, now) ==> !LiveView(v)
    ensures Audited(v.(f := SweepFacts(id, v.f, v.f.row.value, now, pushUp)))
  {
    var r := v.f.row.value;
    if Overdue(r, now) {
      FinishedRowsOk(r, "", "", now);
      ResolvedBalanced(id, v.f, r, TimedOutRow(r, now), TaskRequeuedTimeout, pushUp);
    }
  }

  lemma AuditedStart(id: TaskId, v: View, slot: Slot, worker: string, now: int, checkUp: bool, writeUp: bool)
    requires Basic(v, id) && Audited(v) && |v.hands| <= 1 && v.f.row.Some?
    requires slot in v.hands && v.hands[slot] == Held(id)
    ensures Audited(StartView(v, id, slot, worker, now, checkUp, writeUp))
  {
    OneHand(v.hands, slot);
    var r := v.f.row.value;
    if r.status == Queued && checkUp {
      if v.f.marked {
        EdgeWritten(v.f, id, TaskCancelled, r, CancelledRow(r, now), v.f.dlq);
      } else {
        EdgeWritten(v.f, id, TaskStarted, r, StartedRow(r, worker, now), v.f.dlq);
      }
    }
  }

  lemma AuditedFinish(c: Config, id: TaskId, v: View, slot: Slot, outcome: Outcome, now: int, pushUp: bool)
    requires Basic(v, id) && Pointers(c, v) && Audited(v) && v.f.row.Some?
    requires slot in v.hands && v.hands[slot].Executing? && v.hands[slot].id == id
    ensures Audited(v.(f := FinishFacts(id, v.f, v.hands[slot].copy, outcome, now, pushUp), hands := v.hands - {slot}))
  {
    OneHand(v.hands, slot);
    assert HoldOk(v.hands[slot], v.f.row.value);
    var r := v.f.row.value;
    assert v.hands[slot].copy == r by {
      assert LiveView(v);
    }
    match outcome
    case Succeeded(result) =>
      FinishedRowsOk(r, result, "", now);
      EdgeWritten(v.f, id, TaskCompleted, r, CompletedRow(r, result, now), v.f.dlq);
    case Errored(error) =>
      FinishedRowsOk(r, "", error, now);
      ResolvedBalanced(id, v.f, r, FailedRow(r, error, now), TaskRetryScheduled, pushUp);
  }

  lemma AuditedHands(v: View, v': View)
    requires Audited(v) && v'.f.row == v.f.row && v'.f.trail == v.f.trail && v'.f.dlq == v.f.dlq
    requires LiveView(v') ==> LiveView(v)
    ensures Audited(v')
  {}

  lemma FewerHands(v: View, v': View, slot: Slot)
    requires v'.hands == v.hands - {slot} || v'.hands == v.hands || exists id :: v'.hands == v.hands[slot := Held(id)]
    ensures LiveView(v') ==> LiveView(v)
  {}

  lemma AuditedStep(c: Config, now: int, id: TaskId, v: View, step: Step)
    requires Basic(v, id) && Pointers(c, v) && Audited(v)
    requires LocalEnabled(v, id, step) && SweepSpares(v, step, now) && CancelSpares(v, step)
    ensures Audited(LocalNext(c, now, id, v, step))
  {
    match step
    case Submit(q, _, wait, up) => AuditedSubmit(id, v, q, now, wait, up);
    case Repair(_, up) => if v.f.row.Some? { AuditedRepair(id, v, now, up); }
    case Replay(_, up) => if v.f.row.Some? { AuditedReplay(id, v, up); }
    case Cancel(_, markUp, removeUp) => if v.f.row.Some? { AuditedCancel(id, v, now, markUp, removeUp); }
    case SweepOne(_, pushUp, _) => if v.f.row.Some? { AuditedSweep(id, v, now, pushUp); }
    case ReleaseOne(_, up) => AuditedRelease(c, id, v, up); FewerHands(v, LocalNext(c, now, id, v, step), 0);
    case Claim(_) => AuditedHands(v, LocalNext(c, now, id, v, step));
    case Dequeue(slot) =>
      var v' := LocalNext(c, now, id, v, step);
      FewerHands(v, v', slot);
      AuditedHands(v, v');
    case Start(slot, worker, checkUp, writeUp) => AuditedStart(id, v, slot, worker, now, checkUp, writeUp);
    case Finish(slot, outcome, pushUp, _) => AuditedFinish(c, id, v, slot, outcome, now, pushUp);
    case Crash(slot, _) =>
      var v' := LocalNext(c, now, id, v, step);
      FewerHands(v, v', slot);
      AuditedHands(v, v');
    case Tick(_) =>
  }

  // ---------------------------------------------------------------- trails only grow

  lemma SubmitTrailGrows(id: TaskId, f: Facts, q: Request, now: int, later: int, up: bool)
    ensures f.trail <= SubmitFacts(id, f, q, now, later, up).trail
  {}

  lemma ServiceTrailGrows(c: Config, id: TaskId, f: Facts, r: Row, now: int, up: bool, removeUp: bool)
    ensures f.trail <= RepairFacts(id, f, r, now, up).trail
    ensures f.trail <= ReplayFacts(id, f, r, up).trail
    ensures f.trail <= CancelFacts(id, f, r, now, up, removeUp).trail
    ensures f.trail <= ReleaseFacts(c, id, f, r, up).trail
  {}

  lemma FailureTrailGrows(id: TaskId, f: Facts, r: Row, outcome: Outcome, now: int, up: bool)
    ensures f.trail <= SweepFacts(id, f, r, now, up).trail
    ensures f.trail <= FinishFacts(id, f, r, outcome, now, up).trail
  {}

  lemma StartTrailGrows(id: TaskId, f: Facts, now: int, worker: string, checkUp: bool, writeUp: bool)
    ensures f.trail <= StartFacts(id, f, worker, now, checkUp, writeUp).trail
  {}

  lemma ServiceStepTrail(c: Config, now: int, id: TaskId, v: View, step: Step)
    requires LocalEnabled(v, id, step) && v.f.row.Some?
    requires step.Repair? || step.Replay? || step.Cancel? || step.ReleaseOne?
    ensures v.f.trail <= LocalNext(c, now, id, v, step).f.trail
  {
    match step
    case Repair(_, up) => ServiceTrailGrows(c, id, v.f, v.f.row.value, now, up, true);
    case Replay(_, up) => ServiceTrailGrows(c, id, v.f, v.f.row.value, now, up, true);
    case ReleaseOne(_, up) => ServiceTrailGrows(c, id, v.f, v.f.row.value, now, up, true);
    case Cancel(_, markUp, removeUp) => ServiceTrailGrows(c, id, v.f, v.f.row.value, now, markUp, removeUp);
  }

  lemma TrailOnlyGrows(c: Config, now: int, id: TaskId, v: View, step: Step)
    requires LocalEnabled(v, id, step)
    ensures v.f.trail <= LocalNext(c, now, id, v, step).f.trail
  {
    match step
    case Submit(q, _, wait, up) => SubmitTrailGrows(id, v.f, q, now, now + wait, up);
    case Start(_, worker, checkUp, writeUp) => StartTrailGrows(id, v.f, now, worker, checkUp, writeUp);
    case Finish(slot, outcome, pushUp, _) => FailureTrailGrows(id, v.f, v.hands[slot].copy, outcome, now, pushUp);
    case SweepOne(_, pushUp, _) =>
      if v.f.row.Some? { FailureTrailGrows(id, v.f, v.f.row.value, Errored(""), now, pushUp); }
    case Claim(_) =>
    case Dequeue(_) =>
    case Crash(_, _) =>
    case Tick(_) =>
    case _ => if v.f.row.Some? { ServiceStepTrail(c, now, id, v, step); }
  }

  // ---------------------------------------------------------------- dead letters in every run

  /** One entry on the dead-letter list for each dead-letter event. */
  predicate DeathsLogged(f: Facts) {
    f.dlq == Count(f.trail, TaskDeadLetter)
  }

  lemma WroteDeaths(f: Facts, id: TaskId, row: Row, kind: EventKind, from: Option<Status>)
    ensures Count(Wrote(f, id, row, kind, from).trail, TaskDeadLetter)
         == Count(f.trail, TaskDeadLetter) + if kind == TaskDeadLetter then 1 else 0
  {
    CountAppend(f.trail, Event(id, kind, from, row.status), TaskDeadLetter);
  }

  lemma ResolveLogsDeaths(id: TaskId, f: Facts, r: Row, kind: EventKind, pushUp: bool)
    requires DeathsLogged(f) && kind != TaskDeadLetter
    ensures DeathsLogged(ResolveFacts(id, f, r, kind, pushUp))
  {
    WroteDeaths(f.(zset := true), id, r, kind, Some(Running));
    WroteDeaths(f.(dlq := f.dlq + 1), id, r, TaskDeadLetter, Some(Running));
  }

  lemma EnqueueLogsDeaths(id: TaskId, f: Facts, row: Row, now: int, up: bool)
    requires DeathsLogged(f)
    ensures DeathsLogged(EnqueueFacts(id, f, row, now, up).f)
  {
    WroteDeaths(f.(zset := true), id, row.(status := Scheduled), TaskEnqueued, Some(row.status));
    WroteDeaths(f.(waiting := f.waiting + 1), id, row.(status := Queued), TaskEnqueued, Some(row.status));
  }

  lemma SubmitLogsDeaths(id: TaskId, f: Facts, q: Request, now: int, later: int, up: bool)
    requires DeathsLogged(f)
    ensures DeathsLogged(SubmitFacts(id, f, q, now, later, up))
  {
    var row := NewRow(q, now);
    var g := Wrote(f, id, row, TaskSubmitted, None);
    WroteDeaths(f, id, row, TaskSubmitted, None);
    EnqueueLogsDeaths(id, g, row, later, up);
    var p := EnqueueFacts(id, g, row, later, up);
    WroteDeaths(p.f, id, p.row.(status := EnqueueFailed), TaskEnqueueFailed, Some(p.row.status));
  }

  lemma ReplayLogsDeaths(id: TaskId, f: Facts, r: Row, up: bool)
    requires DeathsLogged(f)
    ensures DeathsLogged(ReplayFacts(id, f, r, up))
  {
    WroteDeaths(f.(waiting := f.waiting + 1), id, ReplayedRow(r), TaskRetried, Some(r.status));
  }

  lemma CancelLogsDeaths(id: TaskId, f: Facts, r: Row, now: int, markUp: bool, removeUp: bool)
    requires DeathsLogged(f)
    ensures DeathsLogged(CancelFacts(id, f, r, now, markUp, removeUp))
  {
    var f' := CancelFacts(id, f, r, now, markUp, removeUp);
    var g := f.(marked := true, zset := f.zset && r.status != Scheduled);
    var wrote := Wrote(g, id, CancelledRow(r, now), TaskCancelled, Some(r.status));
    assert f'.dlq == f.dlq && (f'.trail == f.trail || f'.trail == wrote.trail);
    WroteDeaths(g, id, CancelledRow(r, now), TaskCancelled, Some(r.status));
  }

  lemma ReleaseLogsDeaths(c: Config, id: TaskId, f: Facts, r: Row, up: bool)
    requires DeathsLogged(f)
    ensures DeathsLogged(ReleaseFacts(c, id, f, r, up))
  {
    WroteDeaths(f.(waiting := f.waiting + 1), id, r.(status := Queued), TaskScheduledRelease, Some(Scheduled));
  }

  lemma WorkerLogsDeaths(id: TaskId, f: Facts, r: Row, outcome: Outcome, now: int, up: bool)
    requires DeathsLogged(f)
    ensures DeathsLogged(SweepFacts(id, f, r, now, up)) && DeathsLogged(FinishFacts(id, f, r, outcome, now, up))
  {
    ResolveLogsDeaths(id, f, TimedOutRow(r, now), TaskRequeuedTimeout, up);
    match outcome
    case Succeeded(result) => WroteDeaths(f, id, CompletedRow(r, result, now), TaskCompleted, Some(Running));
    case Errored(error) => ResolveLogsDeaths(id, f, FailedRow(r, error, now), TaskRetryScheduled, up);
  }

  lemma StartLogsDeaths(id: TaskId, f: Facts, worker: string, now: int, checkUp: bool, writeUp: bool)
    requires DeathsLogged(f)
    ensures DeathsLogged(StartFacts(id, f, worker, now, checkUp, writeUp))
  {
    if f.row.Some? {
      WroteDeaths(f, id, CancelledRow(f.row.value, now), TaskCancelled, Some(Queued));
      WroteDeaths(f, id, StartedRow(f.row.value, worker, now), TaskStarted, Some(Queued));
    }
  }

  lemma DeathsLoggedService(c: Config, now: int, id: TaskId, v: View, step: Step)
    requires DeathsLogged(v.f) && v.f.row.Some? && LocalEnabled(v, id, step)
    requires step.Repair? || step.Replay? || step.Cancel? || step.ReleaseOne?
    ensures DeathsLogged(LocalNext(c, now, id, v, step).f)
  {
    match step
    case Repair(_, up) => EnqueueLogsDeaths(id, v.f, v.f.row.value, now, up);
    case Replay(_, up) => ReplayLogsDeaths(id, v.f, v.f.row.value, up);
    case ReleaseOne(_, up) => ReleaseLogsDeaths(c, id, v.f, v.f.row.value, up);
    case Cancel(_, markUp, removeUp) => CancelLogsDeaths(id, v.f, v.f.row.value, now, markUp, removeUp);
  }

  lemma DeathsLoggedStep(c: Config, now: int, id: TaskId, v: View, step: Step)
    requires DeathsLogged(v.f) && LocalEnabled(v, id, step)
    ensures DeathsLogged(LocalNext(c, now, id, v, step).f)
  {
    match step
    case Submit(q, _, wait, up) => SubmitLogsDeaths(id, v.f, q, now, now + wait, up);
    case Start(_, worker, checkUp, writeUp) => StartLogsDeaths(id, v.f, worker, now, checkUp, writeUp);
    case Finish(slot, outcome, pushUp, _) => WorkerLogsDeaths(id, v.f, v.hands[slot].copy, outcome, now, pushUp);
    case SweepOne(_, pushUp, _) =>
      if v.f.row.Some? { WorkerLogsDeaths(id, v.f, v.f.row.value, Errored(""), now, pushUp); }
    case Claim(_) =>
    case Dequeue(_) =>
    case Crash(_, _) =>
    case Tick(_) =>
    case _ => if v.f.row.Some? { DeathsLoggedService(c, now, id, v, step); }
  }
}
