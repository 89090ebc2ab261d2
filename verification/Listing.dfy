/** What a listing of a status returns. */
module Listing {
  import opened Prelude
  import opened Domain
  import opened ScheduledSet
  import opened Protocol

  function InStatus(rows: map<TaskId, Row>, status: Status): set<TaskId> {
    set id | id in rows && rows[id].status == status
  }

  predicate Distinct(ids: seq<TaskId>) {
    forall i, j :: 0 <= i < j < |ids| ==> ids[i] != ids[j]
  }

  /** The part of a status that lies in a prefix of the creation order. */
  function InPrefix(rows: map<TaskId, Row>, order: seq<TaskId>, status: Status): set<TaskId> {
    set id | id in Members(order) && id in rows && rows[id].status == status
  }

  lemma PrefixGrows(rows: map<TaskId, Row>, front: seq<TaskId>, last: TaskId, status: Status)
    requires Distinct(front + [last])
    ensures var hit := last in rows && rows[last].status == status;
      InPrefix(rows, front + [last], status) == InPrefix(rows, front, status) + if hit then {last} else {}
    ensures last !in InPrefix(rows, front, status)
  {
    MembersOfConcat(front, [last]);
    assert Members([last]) == {last} by { assert [last][0] == last; }
    var order := front + [last];
    assert forall i :: 0 <= i < |front| ==> order[i] == front[i] && order[i] != order[|front|];
  }

  lemma ListedCons(last: TaskId, rest: seq<TaskId>, older: set<TaskId>)
    requires Distinct(rest) && Members(rest) <= older && last !in older
    ensures Distinct([last] + rest) && Members([last] + rest) <= older + {last} && |older + {last}| == |older| + 1
  {}

  /** A listing holds rows of the status only, each once, and is short only when it has them all. */
  lemma {:induction false} ListingIsFull(rows: map<TaskId, Row>, order: seq<TaskId>, status: Status, limit: nat)
    requires Distinct(order)
    ensures var ids := ListByStatus(rows, order, status, limit);
      && Members(ids) <= InPrefix(rows, order, status)
      && Distinct(ids)
      && |ids| == Min(limit, |InPrefix(rows, order, status)|)
  {
    if order != [] && limit > 0 {
      var n := |order| - 1;
      var last, front := order[n], order[..n];
      assert order == front + [last];
      PrefixGrows(rows, front, last, status);
      if last in rows && rows[last].status == status {
        ListingIsFull(rows, front, status, limit - 1);
        var rest := ListByStatus(rows, front, status, limit - 1);
        assert ListByStatus(rows, order, status, limit) == [last] + rest;
        ListedCons(last, rest, InPrefix(rows, front, status));
      } else {
        ListingIsFull(rows, front, status, limit);
      }
    }
  }

  /** A listed id is in the table with the status asked for, and is listed once. */
  lemma ListedRows(rows: map<TaskId, Row>, order: seq<TaskId>, status: Status, limit: nat)
    requires Distinct(order)
    ensures var ids := ListByStatus(rows, order, status, limit);
      Distinct(ids) && forall i :: 0 <= i < |ids| ==> ids[i] in rows && rows[ids[i]].status == status
  {
    ListingIsFull(rows, order, status, limit);
    var ids := ListByStatus(rows, order, status, limit);
    assert forall i :: 0 <= i < |ids| ==> ids[i] in Members(ids);
  }

  /** `a` was created after `b`. */
  predicate Newer(order: seq<TaskId>, a: TaskId, b: TaskId) {
    exists p, q :: 0 <= p < q < |order| && order[p] == b && order[q] == a
  }

  lemma NewerInLonger(front: seq<TaskId>, last: TaskId, a: TaskId, b: TaskId)
    requires Newer(front, a, b)
    ensures Newer(front + [last], a, b)
  {
    var p, q :| 0 <= p < q < |front| && front[p] == b && front[q] == a;
    var order := front + [last];
    assert order[p] == b && order[q] == a;
  }

  lemma LastIsNewest(front: seq<TaskId>, last: TaskId, b: TaskId)
    requires b in front
    ensures Newer(front + [last], last, b)
  {
    var p :| 0 <= p < |front| && front[p] == b;
    var order := front + [last];
    assert order[p] == b && order[|front|] == last;
  }

  predicate HasStatus(rows: map<TaskId, Row>, id: TaskId, status: Status) {
    id in rows && rows[id].status == status
  }

  /** The ids have the status, stand from the newest to older ones, and whatever else has the status is older still. */
  predicate NewestFirst(rows: map<TaskId, Row>, order: seq<TaskId>, status: Status, ids: seq<TaskId>) {
    && (forall i :: 0 <= i < |ids| ==> ids[i] in order && HasStatus(rows, ids[i], status))
    && (forall i, j :: 0 <= i < j < |ids| ==> Newer(order, ids[i], ids[j]))
    && (forall i, b :: 0 <= i < |ids| && b in order && HasStatus(rows, b, status) && b !in ids ==>
          Newer(order, ids[i], b))
  }

  lemma SkipLast(rows: map<TaskId, Row>, front: seq<TaskId>, last: TaskId, status: Status, ids: seq<TaskId>)
    requires NewestFirst(rows, front, status, ids) && !HasStatus(rows, last, status)
    ensures NewestFirst(rows, front + [last], status, ids)
  {
    forall i, j | 0 <= i < j < |ids| ensures Newer(front + [last], ids[i], ids[j]) {
      NewerInLonger(front, last, ids[i], ids[j]);
    }
    forall i, b | 0 <= i < |ids| && b in front + [last] && HasStatus(rows, b, status) && b !in ids
      ensures Newer(front + [last], ids[i], b) {
      NewerInLonger(front, last, ids[i], b);
    }
  }

  lemma TakeLast(rows: map<TaskId, Row>, front: seq<TaskId>, last: TaskId, status: Status, rest: seq<TaskId>)
    requires NewestFirst(rows, front, status, rest) && HasStatus(rows, last, status)
    ensures NewestFirst(rows, front + [last], status, [last] + rest)
  {
    var ids := [last] + rest;
    assert last in front + [last] by { assert (front + [last])[|front|] == last; }
    forall i, j | 0 <= i < j < |ids| ensures Newer(front + [last], ids[i], ids[j]) {
      if i == 0 {
        LastIsNewest(front, last, rest[j - 1]);
      } else {
        NewerInLonger(front, last, rest[i - 1], rest[j - 1]);
      }
    }
    forall i, b | 0 <= i < |ids| && b in front + [last] && HasStatus(rows, b, status) && b !in ids
      ensures Newer(front + [last], ids[i], b) {
      if i == 0 {
        LastIsNewest(front, last, b);
      } else {
        NewerInLonger(front, last, rest[i - 1], b);
      }
    }
  }

  /** A listing runs from the newest row of the status to older ones, and what it leaves out is older still. */
  lemma {:induction false} ListingIsNewestFirst(rows: map<TaskId, Row>, order: seq<TaskId>, status: Status, limit: nat)
    ensures NewestFirst(rows, order, status, ListByStatus(rows, order, status, limit))
  {
    if order != [] && limit > 0 {
      var last, front := order[|order| - 1], order[..|order| - 1];
      assert order == front + [last];
      if HasStatus(rows, last, status) {
        ListingIsNewestFirst(rows, front, status, limit - 1);
        TakeLast(rows, front, last, status, ListByStatus(rows, front, status, limit - 1));
      } else {
        ListingIsNewestFirst(rows, front, status, limit);
        SkipLast(rows, front, last, status, ListByStatus(rows, front, status, limit));
      }
    }
  }
}
