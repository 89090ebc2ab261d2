/** The leader lock as an object over the shared key, and its calls as steps of the lease protocol. */
module LeaderLock {
  import opened Prelude
  import opened Lease

  /** The one lock key in Redis. */
  class LockCell {
    var key: Key

    constructor ()
      ensures key == Absent
    {
      key := Absent;
    }
  }

  /** A renewal's answer and the key after it; the EXPIRE acts at `later` on what the key has become `meanwhile`. */
  function Renewed(owner: Owner, key: Key, ttl: nat, now: int, meanwhile: Key, later: int): (bool, Key) {
    if OwnedBy(key, now, owner) then (true, Expire(meanwhile, ttl, later)) else (false, key)
  }

  /** The key after a release; the DELETE takes whatever it has become since the GET. */
  function Released(owner: Owner, key: Key, now: int): Key {
    if OwnedBy(key, now, owner) then Absent else key
  }

  /**
   * The lock of one owner. Between a call's GET and the EXPIRE or DELETE that follows it other owners may act and time
   * may pass: `meanwhile` is what the key has become by then, at the instant `later`.
   */
  class RedisLeaderLock {
    const owner: Owner
    const cell: LockCell

    constructor (cell: LockCell, owner: Owner)
      ensures this.cell == cell && this.owner == owner
    {
      this.cell, this.owner := cell, owner;
    }

    method Acquire(ttl: nat, now: int) returns (ok: bool)
      modifies cell
      ensures ok == !Present(old(cell.key), now)
      ensures cell.key == SetIfAbsent(old(cell.key), owner, ttl, now)
    {
      ok := !(cell.key.Key? && now < cell.key.expiry);
      if ok {
        cell.key := Key.Key(owner, now + ttl);
      }
    }

    method Renew(ttl: nat, now: int, meanwhile: Key, later: int) returns (ok: bool)
      modifies cell
      ensures (ok, cell.key) == Renewed(owner, old(cell.key), ttl, now, meanwhile, later)
    {
      var current := if Present(cell.key, now) then Some(cell.key.owner) else None;
      if current.None? || current.value != owner {
        return false;
      }
      cell.key := meanwhile;
      if Present(cell.key, later) {
        cell.key := cell.key.(expiry := later + ttl);
      }
      ok := true;
    }

    method Release(now: int, meanwhile: Key)
      modifies cell
      ensures cell.key == Released(owner, old(cell.key), now)
    {
      var current := if Present(cell.key, now) then Some(cell.key.owner) else None;
      if current.Some? && current.value == owner {
        cell.key := meanwhile;
        cell.key := Absent;
      }
    }
  }

  /**
   * `Renew` is two steps of the protocol: its answer is whether the GET step led to the EXPIRE, and the key it
   * leaves is
   * the one that the EXPIRE step leaves in whatever the cluster has become, or that the GET step left.
   */
  lemma RenewIsTwoSteps(c: Cluster, i: Owner, meanwhile: Cluster)
    requires PlaceOf(c, i) == Renewing && meanwhile.ttl == c.ttl
    requires var got := Next(c, RenewGet(i)); PlaceOf(got, i) == Extending ==> PlaceOf(meanwhile, i) == Extending
    ensures var got := Next(c, RenewGet(i));
      Renewed(i, c.key, c.ttl, c.now, meanwhile.key, meanwhile.now)
        == if PlaceOf(got, i) == Extending then (true, Next(meanwhile, RenewExpire(i)).key) else (false, got.key)
    ensures var got := Next(c, RenewGet(i)); PlaceOf(got, i) == Extending || PlaceOf(got, i) == Leaving
  {
    var got := Next(c, RenewGet(i));
    assert PlaceOf(got, i) == if OwnedBy(c.key, c.now, i) then Extending else Leaving;
  }

  /**
   * `Release` is two steps of the protocol: the key it leaves is the one that the DELETE step leaves in whatever the
   * cluster has become, or, when the GET step led to none, that the GET step left.
   */
  lemma ReleaseIsTwoSteps(c: Cluster, i: Owner, meanwhile: Cluster)
    requires PlaceOf(c, i) == Leaving
    requires var got := Next(c, ReleaseGet(i)); PlaceOf(got, i) == Deleting ==> PlaceOf(meanwhile, i) == Deleting
    ensures var got := Next(c, ReleaseGet(i));
      Released(i, c.key, c.now)
        == if PlaceOf(got, i) == Deleting then Next(meanwhile, ReleaseDelete(i)).key else got.key
    ensures var got := Next(c, ReleaseGet(i)); PlaceOf(got, i) == Deleting || PlaceOf(got, i) == Standby
  {
    var got := Next(c, ReleaseGet(i));
    assert PlaceOf(got, i) == if OwnedBy(c.key, c.now, i) then Deleting else Standby;
  }

  /** A renewal that reports success may have renewed nothing: between its GET and its EXPIRE the key can lapse. */
  lemma RenewalCanBeVoid(c: Cluster, i: Owner, d: nat)
    requires PlaceOf(c, i) == Renewing && i in c.schedulers && OwnedBy(c.key, c.now, i)
    ensures var ticking := Next(Next(Next(c, RenewGet(i)), Wait(d)), RenewExpire(i));
      PlaceOf(ticking, i) == Ticking && (0 < c.ttl ==>
          (OwnedBy(ticking.key, ticking.now, i) <==> c.now + d < c.key.expiry))
  {}
}
