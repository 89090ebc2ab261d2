/**
 * The scheduler's leader lease: any number of schedulers on one Redis key with a TTL,
 * with the GET of a renewal or a release and the EXPIRE or DELETE that follows it as separate steps.
 */
module Lease {
  type Owner = nat

  /** The lock key; it is gone once the clock reaches `expiry`. */
  datatype Key = Absent | Key(owner: Owner, expiry: int)

  predicate Present(key: Key, now: int) {
    key.Key? && now < key.expiry
  }

  predicate OwnedBy(key: Key, now: int, owner: Owner) {
    Present(key, now) && key.owner == owner
  }

  /** SET NX EX. */
  function SetIfAbsent(key: Key, owner: Owner, ttl: nat, now: int): Key {
    if Present(key, now) then key else Key.Key(owner, now + ttl)
  }

  /** EXPIRE, on whoever's key it is. */
  function Expire(key: Key, ttl: nat, now: int): Key {
    if Present(key, now) then key.(expiry := now + ttl) else key
  }

  /**
   * Where a scheduler stands in its loop: before an acquire, before a renewal's GET, between that GET and its EXPIRE,
   * inside the tick body (its sleep included), before a release's GET, between that GET and its DELETE.
   */
  datatype Place = Standby | Renewing | Extending | Ticking | Leaving | Deleting

  /** `last` is when the scheduler's latest SET or EXPIRE took effect. */
  datatype Scheduler = Scheduler(place: Place, last: int)

  datatype Cluster = Cluster(ttl: nat, now: int, key: Key, schedulers: map<Owner, Scheduler>)

  datatype Step =
    | Acquire(i: Owner)
    | RenewGet(i: Owner)
    | RenewExpire(i: Owner)
    | EndTick(i: Owner, raised: bool)
    | ReleaseGet(i: Owner)
    | ReleaseDelete(i: Owner)
    | RedisRaises(i: Owner)
    | Dies(i: Owner)
    | Wait(seconds: nat)

  function PlaceOf(c: Cluster, i: Owner): Place {
    if i in c.schedulers then c.schedulers[i].place else Standby
  }

  predicate Enabled(c: Cluster, step: Step) {
    match step
    case Acquire(i) => PlaceOf(c, i) == Standby
    case RenewGet(i) => PlaceOf(c, i) == Renewing
    case RenewExpire(i) => PlaceOf(c, i) == Extending
    case EndTick(i, _) => PlaceOf(c, i) == Ticking
    case ReleaseGet(i) => PlaceOf(c, i) == Leaving
    case ReleaseDelete(i) => PlaceOf(c, i) == Deleting
    case RedisRaises(i) => PlaceOf(c, i) != Standby && PlaceOf(c, i) != Ticking
    case Dies(i) => i in c.schedulers
    case Wait(_) => true
  }

  function MoveTo(c: Cluster, i: Owner, place: Place): Cluster
    requires i in c.schedulers
  {
    c.(schedulers := c.schedulers[i := c.schedulers[i].(place := place)])
  }

  function Next(c: Cluster, step: Step): Cluster
    requires Enabled(c, step)
  {
    match step
    case Acquire(i) =>
      if Present(c.key, c.now) then c
      else c.(key := SetIfAbsent(c.key, i, c.ttl, c.now), schedulers := c.schedulers[i := Scheduler(Renewing, c.now)])
    case RenewGet(i) => MoveTo(c, i, if OwnedBy(c.key, c.now, i) then Extending else Leaving)
    case RenewExpire(i) =>
      c.(key := Expire(c.key, c.ttl, c.now), schedulers := c.schedulers[i := Scheduler(Ticking, c.now)])
    case EndTick(i, raised) => MoveTo(c, i, if raised then Leaving else Renewing)
    case ReleaseGet(i) => MoveTo(c, i, if OwnedBy(c.key, c.now, i) then Deleting else Standby)
    case ReleaseDelete(i) => MoveTo(c.(key := Absent), i, Standby)
    case RedisRaises(i) =>
      MoveTo(c, i, if PlaceOf(c, i) == Renewing || PlaceOf(c, i) == Extending then Leaving else Standby)
    case Dies(i) => c.(schedulers := c.schedulers - {i})
    case Wait(d) => c.(now := c.now + d)
  }

  /** In the tick body, or past a GET that found its key, with the EXPIRE or the DELETE still to come. */
  predicate InSession(c: Cluster, i: Owner) {
    PlaceOf(c, i) == Ticking || PlaceOf(c, i) == Extending || PlaceOf(c, i) == Deleting
  }

  /** Less than a TTL has passed since the scheduler's last SET or EXPIRE. */
  predicate InTime(c: Cluster, i: Owner) {
    i in c.schedulers && c.now - c.schedulers[i].last < c.ttl
  }

  /** No tick body outlives the TTL. Schedulers before a GET may be as late as they like. */
  predicate TicksInTime(c: Cluster) {
    forall i :: i in c.schedulers && c.schedulers[i].place == Ticking ==> InTime(c, i)
  }

  /** An EXPIRE or a DELETE takes effect in time. */
  predicate TouchesInTime(c: Cluster, step: Step) {
    match step
    case RenewExpire(i) => InTime(c, i)
    case ReleaseDelete(i) => InTime(c, i)
    case _ => true
  }

  predicate TimelyRun(c: Cluster, steps: seq<Step>)
    decreases |steps|
  {
    TicksInTime(c) &&
    (steps == [] || (Enabled(c, steps[0]) && TouchesInTime(c, steps[0]) && TimelyRun(Next(c, steps[0]), steps[1..])))
  }

  function Run(c: Cluster, steps: seq<Step>): Cluster
    requires TimelyRun(c, steps)
    decreases |steps|
  {
    if steps == [] then c else Run(Next(c, steps[0]), steps[1..])
  }

  function Start(ttl: nat): Cluster {
    Cluster(ttl, 0, Absent, map[])
  }

  /**
   * A session in time has the key, with the expiry its last SET or EXPIRE gave it;
   * and whenever the key's owner has not gone back to standing by, that is the key's expiry.
   */
  predicate Leased(c: Cluster) {
    forall i :: i in c.schedulers ==>
      && c.schedulers[i].last <= c.now
      && (InSession(c, i) && InTime(c, i) ==> c.key == Key.Key(i, c.schedulers[i].last + c.ttl))
      && (c.key.Key? && c.key.owner == i && PlaceOf(c, i) != Standby ==> c.key.expiry == c.schedulers[i].last + c.ttl)
  }

  lemma LeasedStep(c: Cluster, step: Step)
    requires Leased(c) && TicksInTime(c) && Enabled(c, step) && TouchesInTime(c, step)
    ensures Leased(Next(c, step))
  {}

  lemma {:induction false} LeasedRun(c: Cluster, steps: seq<Step>)
    requires Leased(c) && TimelyRun(c, steps)
    ensures Leased(Run(c, steps)) && TicksInTime(Run(c, steps))
    decreases |steps|
  {
    if steps != [] {
      LeasedStep(c, steps[0]);
      LeasedRun(Next(c, steps[0]), steps[1..]);
    }
  }

  /**
   * Lease safety: for any number of schedulers, however late they come to a GET, as long as each EXPIRE or DELETE and
   * the end of each tick body comes less than a TTL after its scheduler's last SET or EXPIRE, no two schedulers are
   * ever in a session in time together, so no two are in a tick body.
   */
  lemma AtMostOneLeader(ttl: nat, steps: seq<Step>, i: Owner, j: Owner)
    requires TimelyRun(Start(ttl), steps)
    ensures var c := Run(Start(ttl), steps);
      && (InSession(c, i) && InTime(c, i) && InSession(c, j) && InTime(c, j) ==> i == j)
      && (PlaceOf(c, i) == Ticking && PlaceOf(c, j) == Ticking ==> i == j)
      && (PlaceOf(c, i) == Ticking ==> OwnedBy(c.key, c.now, i))
  {
    LeasedRun(Start(ttl), steps);
  }

  /** In such a run an EXPIRE or a DELETE that comes next meets its own scheduler's key if and only if it is in time. */
  lemma OwnKeyTouchedIff(ttl: nat, steps: seq<Step>, i: Owner)
    requires TimelyRun(Start(ttl), steps)
    ensures var c := Run(Start(ttl), steps);
      InSession(c, i) ==> (OwnedBy(c.key, c.now, i) <==> InTime(c, i))
  {
    LeasedRun(Start(ttl), steps);
  }

  /** The owner check at work: however late a scheduler comes to a GET, it enters a session only in time. */
  lemma SessionsBeginInTime(ttl: nat, steps: seq<Step>, i: Owner)
    requires TimelyRun(Start(ttl), steps)
    ensures var c := Run(Start(ttl), steps);
      && (PlaceOf(c, i) == Renewing && InSession(Next(c, RenewGet(i)), i) ==> InTime(c, i))
      && (PlaceOf(c, i) == Leaving && InSession(Next(c, ReleaseGet(i)), i) ==> InTime(c, i))
  {
    LeasedRun(Start(ttl), steps);
  }

  /** A run with a late GET: the leader stalls for a TTL before its renewal, is succeeded, and is sent away. */
  lemma LateRenewalIsRefused(ttl: nat)
    requires 0 < ttl
    ensures var late := [Acquire(0), Wait(ttl), Acquire(1), RenewGet(0)];
      && TimelyRun(Start(ttl), late)
      && var c := Run(Start(ttl), late);
         PlaceOf(c, 0) == Leaving && PlaceOf(c, 1) == Renewing && OwnedBy(c.key, c.now, 1)
  {
    var c1 := Next(Start(ttl), Acquire(0));
    var c2 := Next(c1, Wait(ttl));
    var c3 := Next(c2, Acquire(1));
    RunOnward(c3, RenewGet(0), []);
    RunOnward(c2, Acquire(1), [RenewGet(0)] + []);
    RunOnward(c1, Wait(ttl), [Acquire(1)] + ([RenewGet(0)] + []));
    RunOnward(Start(ttl), Acquire(0), [Wait(ttl)] + ([Acquire(1)] + ([RenewGet(0)] + [])));
    assert [Acquire(0), Wait(ttl), Acquire(1), RenewGet(0)]
        == [Acquire(0)] + ([Wait(ttl)] + ([Acquire(1)] + ([RenewGet(0)] + [])));
  }

  lemma RunOnward(c: Cluster, step: Step, rest: seq<Step>)
    requires TicksInTime(c) && Enabled(c, step) && TouchesInTime(c, step) && TimelyRun(Next(c, step), rest)
    ensures TimelyRun(c, [step] + rest) && Run(c, [step] + rest) == Run(Next(c, step), rest)
  {
    assert ([step] + rest)[1..] == rest;
  }

  /** The bound is exact: after a wait, a standby can acquire against a session just when that one is overdue. */
  lemma TakeoverIffOverdue(ttl: nat, steps: seq<Step>, i: Owner, j: Owner, d: nat)
    requires TimelyRun(Start(ttl), steps)
    requires var c := Run(Start(ttl), steps); InSession(c, i) && InTime(c, i) && PlaceOf(c, j) == Standby
    ensures var c := Run(Start(ttl), steps);
      PlaceOf(Next(Next(c, Wait(d)), Acquire(j)), j) == Renewing <==> c.now + d - c.schedulers[i].last >= ttl
  {
    LeasedRun(Start(ttl), steps);
    RunKeepsTtl(Start(ttl), steps);
  }

  lemma {:induction false} RunKeepsTtl(c: Cluster, steps: seq<Step>)
    requires TimelyRun(c, steps)
    ensures Run(c, steps).ttl == c.ttl
    decreases |steps|
  {
    if steps != [] {
      RunKeepsTtl(Next(c, steps[0]), steps[1..]);
    }
  }

  /** A tick body that outlives the TTL overlaps with another scheduler's. */
  lemma OverdueTicksOverlap(c: Cluster, i: Owner, j: Owner)
    requires Leased(c) && TicksInTime(c) && 0 < c.ttl && PlaceOf(c, i) == Ticking && PlaceOf(c, j) == Standby
    ensures var taken := Next(Next(c, Wait(c.ttl)), Acquire(j));
      && Enabled(taken, RenewGet(j)) && Enabled(Next(taken, RenewGet(j)), RenewExpire(j))
      && var both := Next(Next(taken, RenewGet(j)), RenewExpire(j));
         PlaceOf(both, i) == Ticking && PlaceOf(both, j) == Ticking
  {}

  /** A scheduler that stalls between a release's GET and its DELETE for a TTL deletes its successor's key. */
  lemma StalledDeleteHitsSuccessor(c: Cluster, i: Owner, j: Owner)
    requires Leased(c) && 0 < c.ttl && PlaceOf(c, i) == Deleting && InTime(c, i) && PlaceOf(c, j) == Standby
    ensures var taken := Next(Next(c, Wait(c.ttl)), Acquire(j));
      && OwnedBy(taken.key, taken.now, j) && Enabled(taken, ReleaseDelete(i))
      && Next(taken, ReleaseDelete(i)).key == Absent && PlaceOf(Next(taken, ReleaseDelete(i)), j) == Renewing
  {}

  /**
   * Failover: once the leader has died, any standby acquires as soon as a TTL has passed since the leader's last
   * renewal.
   */
  lemma FailoverWithinTtl(c: Cluster, i: Owner, j: Owner, d: nat)
    requires Leased(c) && InSession(c, i) && InTime(c, i) && i != j && PlaceOf(c, j) == Standby
    requires c.now + d >= c.schedulers[i].last + c.ttl
    ensures var taken := Next(Next(Next(c, Dies(i)), Wait(d)), Acquire(j));
      taken.key == Key.Key(j, c.now + d + c.ttl) && PlaceOf(taken, j) == Renewing
  {}

  /** A tick body that raises in time gives the lock back: the scheduler goes on to its release, and the key is gone. */
  lemma RaisedTickReleases(c: Cluster, i: Owner)
    requires Leased(c) && TicksInTime(c) && PlaceOf(c, i) == Ticking
    ensures var left := Next(c, EndTick(i, true));
      && Enabled(left, ReleaseGet(i)) && Enabled(Next(left, ReleaseGet(i)), ReleaseDelete(i))
      && var gone := Next(Next(left, ReleaseGet(i)), ReleaseDelete(i));
         gone.key == Absent && PlaceOf(gone, i) == Standby
  {}

  /**
   * A Redis call that raises in a renewal leads to the release; one that raises in the release ends it, key and all.
   */
  lemma RaisedCallLeadsOn(c: Cluster, i: Owner)
    requires Enabled(c, RedisRaises(i))
    ensures var next := Next(c, RedisRaises(i));
      && next.key == c.key
      && (PlaceOf(c, i) == Renewing || PlaceOf(c, i) == Extending ==> Enabled(next, ReleaseGet(i)))
      && (PlaceOf(c, i) == Leaving || PlaceOf(c, i) == Deleting ==> Enabled(next, Acquire(i)))
  {}
}
