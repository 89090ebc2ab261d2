/** The scheduled ZSET: members ordered by score and then by member, and the claim script over it. */
module ScheduledSet {
  import opened Prelude
  import opened Domain

  type Scores = map<TaskId, int>

  predicate Before(z: Scores, a: TaskId, b: TaskId) {
    a in z && b in z && (z[a] < z[b] || (z[a] == z[b] && a < b))
  }

  /** Members a range query from 0 to `now` covers; a negative score is never due. */
  function DueIds(z: Scores, now: int): set<TaskId> {
    set id | id in z && 0 <= z[id] <= now
  }

  lemma {:induction false} FirstExists(z: Scores, ids: set<TaskId>) returns (first: TaskId)
    requires ids != {} && ids <= z.Keys
    ensures first in ids && forall b :: b in ids && b != first ==> Before(z, first, b)
    decreases |ids|
  {
    var a :| a in ids;
    if ids == {a} {
      first := a;
    } else {
      var rest := FirstExists(z, ids - {a});
      first := if Before(z, a, rest) then a else rest;
      forall b | b in ids && b != first ensures Before(z, first, b) {
        if b != a && b != rest {
          assert b in ids - {a};
        }
      }
    }
  }

  function First(z: Scores, ids: set<TaskId>): (first: TaskId)
    requires ids != {} && ids <= z.Keys
    ensures first in ids && forall b :: b in ids && b != first ==> Before(z, first, b)
  {
    assert exists a :: a in ids && forall b :: b in ids && b != a ==> Before(z, a, b) by {
      ghost var f := FirstExists(z, ids);
    }
    var a :| a in ids && forall b :: b in ids && b != a ==> Before(z, a, b);
    a
  }

  /** ZRANGEBYSCORE 0 now LIMIT 0 limit. */
  function Range(z: Scores, now: int, limit: nat): seq<TaskId>
    decreases limit
  {
    var due := DueIds(z, now);
    if limit == 0 || due == {} then []
    else
      var a := First(z, due);
      [a] + Range(z - {a}, now, limit - 1)
  }

  function Members(ids: seq<TaskId>): set<TaskId> {
    set i | 0 <= i < |ids| :: ids[i]
  }

  /** What a claim leaves behind. */
  function AfterClaim(z: Scores, now: int, limit: nat): Scores {
    z - Members(Range(z, now, limit))
  }

  lemma MembersOfCons(a: TaskId, rest: seq<TaskId>)
    ensures Members([a] + rest) == {a} + Members(rest)
  {
    var r := [a] + rest;
    assert r[0] == a;
    assert forall i :: 0 <= i < |rest| ==> rest[i] == r[i + 1];
  }

  lemma DueAfterRemoval(z: Scores, now: int, gone: set<TaskId>)
    ensures DueIds(z - gone, now) == DueIds(z, now) - gone
  {}

  /** `ids` stands in order, and nothing due that is left out precedes anything in it. */
  predicate Lowest(z: Scores, ids: seq<TaskId>, due: set<TaskId>) {
    && (forall i, j :: 0 <= i < j < |ids| ==> Before(z, ids[i], ids[j]))
    && (forall i, b :: 0 <= i < |ids| && b in due - Members(ids) ==> Before(z, ids[i], b))
  }

  lemma LowestCons(z: Scores, a: TaskId, rest: seq<TaskId>, due: set<TaskId>)
    requires a in due && due <= z.Keys && (forall b :: b in due && b != a ==> Before(z, a, b))
    requires Members(rest) <= due - {a} && Lowest(z - {a}, rest, due - {a})
    ensures Lowest(z, [a] + rest, due)
  {
    var r := [a] + rest;
    MembersOfCons(a, rest);
    forall i, b | 0 <= i < |r| && b in due - Members(r) ensures Before(z, r[i], b) {
      if i > 0 {
        assert b in (due - {a}) - Members(rest);
        assert Before(z - {a}, rest[i - 1], b);
      }
    }
    forall i, j | 0 <= i < j < |r| ensures Before(z, r[i], r[j]) {
      if i > 0 {
        assert Before(z - {a}, rest[i - 1], rest[j - 1]);
      } else {
        assert rest[j - 1] in Members(rest);
      }
    }
  }

  /**
   * A range takes the lowest-scored due members up to the limit: distinct, in order, never a future one,
   * and nothing due that is left out precedes anything taken.
   */
  lemma {:induction false} RangeIsLowestDue(z: Scores, now: int, limit: nat)
    ensures var r, due := Range(z, now, limit), DueIds(z, now);
      && |r| == Min(limit, |due|)
      && Members(r) <= due
      && (forall i, j :: 0 <= i < j < |r| ==> Before(z, r[i], r[j]))
      && (forall i, b :: 0 <= i < |r| && b in due - Members(r) ==> Before(z, r[i], b))
    decreases limit
  {
    var due := DueIds(z, now);
    if limit > 0 && due != {} {
      var a := First(z, due);
      var rest := Range(z - {a}, now, limit - 1);
      RangeIsLowestDue(z - {a}, now, limit - 1);
      DueAfterRemoval(z, now, {a});
      assert |due - {a}| == |due| - 1;
      MembersOfCons(a, rest);
      LowestCons(z, a, rest, due);
    }
  }

  /**
   * A range query, by scores: only members with a score from 0 to `now`, up to the limit, in the order of their
   * scores and
   * then of the members themselves, and every such member that is left out comes after all that are taken.
   */
  lemma RangeByScore(z: Scores, now: int, limit: nat)
    ensures var r, due := Range(z, now, limit), set id | id in z && 0 <= z[id] && z[id] <= now;
      && |r| == (if limit < |due| then limit else |due|)
      && (forall i :: 0 <= i < |r| ==> r[i] in z && 0 <= z[r[i]] <= now)
      && (forall i, j :: 0 <= i < j < |r| ==> z[r[i]] < z[r[j]] || (z[r[i]] == z[r[j]] && r[i] < r[j]))
      && (forall i, b :: 0 <= i < |r| && b in due && b !in r ==> z[r[i]] < z[b] || (z[r[i]] == z[b] && r[i] < b))
  {
    var r, due := Range(z, now, limit), set id | id in z && 0 <= z[id] && z[id] <= now;
    assert due == DueIds(z, now);
    RangeIsLowestDue(z, now, limit);
    assert forall i :: 0 <= i < |r| ==> r[i] in Members(r);
    forall i, j | 0 <= i < j < |r| ensures z[r[i]] < z[r[j]] || (z[r[i]] == z[r[j]] && r[i] < r[j]) {
      assert Before(z, r[i], r[j]);
    }
    forall i, b | 0 <= i < |r| && b in due && b !in r ensures z[r[i]] < z[b] || (z[r[i]] == z[b] && r[i] < b) {
      assert Before(z, r[i], b);
    }
  }

  lemma {:induction false} RangeSplits(z: Scores, now: int, first: nat, second: nat)
    ensures Range(z, now, first + second) == Range(z, now, first) + Range(AfterClaim(z, now, first), now, second)
    decreases first
  {
    var due := DueIds(z, now);
    if first == 0 {
      assert AfterClaim(z, now, first) == z;
    } else if due == {} {
      assert AfterClaim(z, now, first) == z;
    } else {
      var a := First(z, due);
      var rest := Range(z - {a}, now, first - 1);
      RangeSplits(z - {a}, now, first - 1, second);
      MembersOfCons(a, rest);
      assert AfterClaim(z, now, first) == AfterClaim(z - {a}, now, first - 1);
    }
  }

  /** `calls` successive claims at a fixed clock, concatenated. */
  function Claims(z: Scores, now: int, limit: nat, calls: nat): seq<TaskId>
    decreases calls
  {
    if calls == 0 then [] else Range(z, now, limit) + Claims(AfterClaim(z, now, limit), now, limit, calls - 1)
  }

  function AfterClaims(z: Scores, now: int, limit: nat, calls: nat): Scores
    decreases calls
  {
    if calls == 0 then z else AfterClaims(AfterClaim(z, now, limit), now, limit, calls - 1)
  }

  /** Claiming in batches returns what one big claim would, in the same order, and leaves the same set. */
  lemma {:induction false} ClaimsAddUp(z: Scores, now: int, limit: nat, calls: nat)
    ensures Claims(z, now, limit, calls) == Range(z, now, calls * limit)
    ensures AfterClaims(z, now, limit, calls) == AfterClaim(z, now, calls * limit)
    decreases calls
  {
    if calls == 0 {
      assert calls * limit == 0;
    } else {
      var z' := AfterClaim(z, now, limit);
      ClaimsAddUp(z', now, limit, calls - 1);
      assert calls * limit == limit + (calls - 1) * limit;
      RangeSplits(z, now, limit, (calls - 1) * limit);
      var one, two := Range(z, now, limit), Range(z', now, (calls - 1) * limit);
      MembersOfConcat(one, two);
      assert AfterClaim(z', now, (calls - 1) * limit) == z - Members(one) - Members(two);
      assert z - Members(one) - Members(two) == z - Members(one + two);
    }
  }

  lemma MembersOfConcat(a: seq<TaskId>, b: seq<TaskId>)
    ensures Members(a + b) == Members(a) + Members(b)
  {
    assert forall i :: 0 <= i < |a| ==> a[i] == (a + b)[i];
    assert forall i :: 0 <= i < |b| ==> b[i] == (a + b)[|a| + i];
  }

  function CeilDiv(n: nat, d: nat): nat
    requires 0 < d
  {
    (n + d - 1) / d
  }

  lemma CeilDivBounds(n: nat, d: nat)
    requires 0 < d
    ensures CeilDiv(n, d) * d >= n
    ensures n > 0 ==> (CeilDiv(n, d) - 1) * d < n
  {}

  lemma ClaimIsShort(z: Scores, now: int, limit: nat)
    ensures var r, due := Range(z, now, limit), DueIds(z, now);
      && |Members(r)| == |r| && Members(r) <= due && DueIds(z - Members(r), now) == due - Members(r)
      && |r| == Min(limit, |due|)
      && (Members(r) == due <==> limit >= |due|)
  {
    RangeIsLowestDue(z, now, limit);
    MembersCount(Range(z, now, limit));
    DueAfterRemoval(z, now, Members(Range(z, now, limit)));
    SubsetOfSameSize(Members(Range(z, now, limit)), DueIds(z, now));
  }

  /**
   * ceil(d / limit) claims at a fixed clock hand out each of the d due members once, in order,
   * and leave exactly the members that are not due; one claim fewer does not suffice.
   */
  lemma ClaimsDrain(z: Scores, now: int, limit: nat)
    requires 0 < limit
    ensures var d, calls := |DueIds(z, now)|, CeilDiv(|DueIds(z, now)|, limit);
      && |Claims(z, now, limit, calls)| == d
      && Members(Claims(z, now, limit, calls)) == DueIds(z, now)
      && AfterClaims(z, now, limit, calls) == z - DueIds(z, now)
      && (calls > 0 ==> DueIds(AfterClaims(z, now, limit, calls - 1), now) != {})
  {
    var d, calls := |DueIds(z, now)|, CeilDiv(|DueIds(z, now)|, limit);
    CeilDivBounds(d, limit);
    ClaimsAddUp(z, now, limit, calls);
    ClaimIsShort(z, now, calls * limit);
    if calls > 0 {
      ClaimsAddUp(z, now, limit, calls - 1);
      ClaimIsShort(z, now, (calls - 1) * limit);
    }
  }

  lemma {:induction false} MembersCount(ids: seq<TaskId>)
    requires forall i, j :: 0 <= i < j < |ids| ==> ids[i] != ids[j]
    ensures |Members(ids)| == |ids|
  {
    if ids != [] {
      var n := |ids| - 1;
      MembersCount(ids[..n]);
      assert Members(ids) == Members(ids[..n]) + {ids[n]};
    }
  }

  lemma {:induction false} SubsetOfSameSize(a: set<TaskId>, b: set<TaskId>)
    requires a <= b
    ensures |a| <= |b|
    ensures (|a| == |b| || b - a == {}) ==> a == b
  {
    assert b == a + (b - a);
    assert |b| == |a| + |b - a|;
  }
}
