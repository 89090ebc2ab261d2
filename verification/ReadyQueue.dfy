/** The ready queue: one Redis list per priority level, against one sequence in stable priority order. */
module ReadyQueue {
  import opened Prelude

  /** An item as delivered, with the level of the list that holds it. */
  datatype Entry<T> = Entry(level: nat, item: T)

  /** Priorities beyond the last level share the last list. */
  function Level(priority: nat, levels: nat): nat
    requires 0 < levels
  {
    Min(priority, levels - 1)
  }

  /** LPUSH: onto the head of the list of its level. */
  function Push<T>(lists: seq<seq<T>>, priority: nat, x: T): (r: seq<seq<T>>)
    requires 0 < |lists|
    ensures |r| == |lists|
  {
    var p := Level(priority, |lists|);
    lists[p := [x] + lists[p]]
  }

  /** The first level at or after `from` whose list is not empty. */
  function FirstNonEmpty<T>(lists: seq<seq<T>>, from: nat): (p: nat)
    requires from <= |lists|
    ensures from <= p <= |lists|
    ensures forall q :: from <= q < p ==> lists[q] == []
    ensures p < |lists| ==> lists[p] != []
    decreases |lists| - from
  {
    if from == |lists| || lists[from] != [] then from else FirstNonEmpty(lists, from + 1)
  }

  /** BRPOP over the level keys in order: the tail of the first list that has one. */
  function Pop<T>(lists: seq<seq<T>>): (r: Option<(T, seq<seq<T>>)>)
    ensures r.Some? ==> |r.value.1| == |lists|
  {
    var p := FirstNonEmpty(lists, 0);
    if p == |lists| then None
    else
      var last := |lists[p]| - 1;
      Some((lists[p][last], lists[p := lists[p][..last]]))
  }

  /** A list in delivery order, tail first. */
  function Tagged<T>(level: nat, xs: seq<T>): (r: seq<Entry<T>>)
    ensures |r| == |xs|
    ensures forall i :: 0 <= i < |xs| ==> r[i] == Entry(level, xs[|xs| - 1 - i])
  {
    seq(|xs|, i requires 0 <= i < |xs| => Entry(level, xs[|xs| - 1 - i]))
  }

  /** All lists in delivery order, the first of them being level `base`. */
  function Flat<T>(lists: seq<seq<T>>, base: nat): seq<Entry<T>> {
    if lists == [] then [] else Tagged(base, lists[0]) + Flat(lists[1..], base + 1)
  }

  /** Delivery order of the whole queue. */
  function Order<T>(lists: seq<seq<T>>): seq<Entry<T>> {
    Flat(lists, 0)
  }

  /** Insertion behind every entry of the same or a better level. */
  function StableInsert<T>(es: seq<Entry<T>>, e: Entry<T>): seq<Entry<T>> {
    if es != [] && es[0].level <= e.level then [es[0]] + StableInsert(es[1..], e) else [e] + es
  }

  lemma {:induction false} InsertBehind<T>(front: seq<Entry<T>>, back: seq<Entry<T>>, e: Entry<T>)
    requires forall i :: 0 <= i < |front| ==> front[i].level <= e.level
    requires forall i :: 0 <= i < |back| ==> e.level < back[i].level
    ensures StableInsert(front + back, e) == front + [e] + back
  {
    if front == [] {
      assert front + back == back;
    } else {
      InsertBehind(front[1..], back, e);
      assert (front + back)[1..] == front[1..] + back;
    }
  }

  lemma {:induction false} FlatLevels<T>(lists: seq<seq<T>>, base: nat)
    ensures forall i :: 0 <= i < |Flat(lists, base)| ==> base <= Flat(lists, base)[i].level < base + |lists|
  {
    if lists != [] {
      FlatLevels(lists[1..], base + 1);
    }
  }

  lemma TailSlices<T>(lists: seq<seq<T>>, p: nat)
    requires 0 < p < |lists|
    ensures lists[1..][..p - 1] == lists[..p][1..] && lists[1..][p..] == lists[p + 1..]
  {}

  lemma Regrouped<T>(a: seq<T>, b: seq<T>, c: seq<T>, d: seq<T>)
    ensures a + (b + c + d) == a + b + c + d
  {}

  lemma {:induction false} FlatSplit<T>(lists: seq<seq<T>>, base: nat, p: nat)
    requires p < |lists|
    ensures Flat(lists, base)
         == Flat(lists[..p], base) + Tagged(base + p, lists[p]) + Flat(lists[p + 1..], base + p + 1)
  {
    if p == 0 {
      assert lists[..p] == [];
    } else {
      FlatSplit(lists[1..], base + 1, p - 1);
      TailSlices(lists, p);
      Regrouped(Tagged(base, lists[0]), Flat(lists[..p][1..], base + 1), Tagged(base + p, lists[p]),
        Flat(lists[p + 1..], base + p + 1));
    }
  }

  /** Refinement: LPUSH on the right list is stable insertion into the one delivery order. */
  lemma PushIsStableInsert<T>(lists: seq<seq<T>>, priority: nat, x: T)
    requires 0 < |lists|
    ensures Order(Push(lists, priority, x)) == StableInsert(Order(lists), Entry(Level(priority, |lists|), x))
  {
    var p := Level(priority, |lists|);
    var e, after := Entry(p, x), Push(lists, priority, x);
    var front, mid, back := Flat(lists[..p], 0), Tagged(p, lists[p]), Flat(lists[p + 1..], p + 1);
    FlatSplit(lists, 0, p);
    FlatSplit(after, 0, p);
    assert after[..p] == lists[..p] && after[p + 1..] == lists[p + 1..];
    assert Tagged(p, after[p]) == mid + [e];
    FlatLevels(lists[..p], 0);
    FlatLevels(lists[p + 1..], p + 1);
    InsertBehind(front + mid, back, e);
    assert front + (mid + [e]) + back == front + mid + [e] + back;
  }

  lemma {:induction false} FlatOfEmpty<T>(lists: seq<seq<T>>, base: nat)
    ensures (forall q :: 0 <= q < |lists| ==> lists[q] == []) <==> Flat(lists, base) == []
  {
    if lists != [] {
      FlatOfEmpty(lists[1..], base + 1);
      assert forall q :: 0 < q < |lists| ==> lists[q] == lists[1..][q - 1];
    }
  }

  lemma NothingAhead<T>(a: seq<T>, b: seq<T>, c: seq<T>)
    requires a == []
    ensures a + b + c == b + c
  {}

  lemma LeadingEmpties<T>(lists: seq<seq<T>>, p: nat)
    requires p < |lists| && forall q :: 0 <= q < p ==> lists[q] == []
    ensures Order(lists) == Tagged(p, lists[p]) + Flat(lists[p + 1..], p + 1)
  {
    FlatSplit(lists, 0, p);
    assert forall q :: 0 <= q < p ==> lists[..p][q] == [];
    FlatOfEmpty(lists[..p], 0);
    NothingAhead(Flat(lists[..p], 0), Tagged(p, lists[p]), Flat(lists[p + 1..], p + 1));
  }

  /** Refinement: BRPOP removes the head of the delivery order, and blocks exactly when it is empty. */
  lemma PopIsHead<T>(lists: seq<seq<T>>)
    ensures Pop(lists).None? <==> Order(lists) == []
    ensures Pop(lists).Some? ==>
      Order(lists)[0].item == Pop(lists).value.0 && Order(Pop(lists).value.1) == Order(lists)[1..]
  {
    var p := FirstNonEmpty(lists, 0);
    if p == |lists| {
      FlatOfEmpty(lists, 0);
    } else {
      var after := lists[p := lists[p][..|lists[p]| - 1]];
      LeadingEmpties(lists, p);
      LeadingEmpties(after, p);
      assert after[p + 1..] == lists[p + 1..];
      var here, there := Tagged(p, lists[p]), Tagged(p, after[p]);
      assert there == here[1..];
      assert Order(lists)[1..] == here[1..] + Flat(lists[p + 1..], p + 1);
    }
  }

  // ---------------------------------------------------------------- draining after a run of pushes

  function Empty<T>(levels: nat): seq<seq<T>> {
    seq(levels, _ => [])
  }

  /** Pushes in order; the level of each entry is the priority asked for. */
  function PushAll<T>(lists: seq<seq<T>>, pushes: seq<Entry<T>>): (r: seq<seq<T>>)
    requires 0 < |lists|
    ensures |r| == |lists|
  {
    if pushes == [] then lists
    else
      var last := pushes[|pushes| - 1];
      Push(PushAll(lists, pushes[..|pushes| - 1]), last.level, last.item)
  }

  /** Everything a consumer receives until the queue blocks. */
  function Drain<T>(lists: seq<seq<T>>): seq<T>
    decreases |Order(lists)|
  {
    PopIsHead(lists);
    match Pop(lists)
    case None => []
    case Some((x, rest)) => [x] + Drain(rest)
  }

  function Items<T>(es: seq<Entry<T>>): (r: seq<T>)
    ensures |r| == |es|
    ensures forall i :: 0 <= i < |es| ==> r[i] == es[i].item
  {
    seq(|es|, i requires 0 <= i < |es| => es[i].item)
  }

  lemma {:induction false} DrainIsOrder<T>(lists: seq<seq<T>>)
    ensures Drain(lists) == Items(Order(lists))
    decreases |Order(lists)|
  {
    PopIsHead(lists);
    if Pop(lists).Some? {
      DrainIsOrder(Pop(lists).value.1);
    }
  }

  /**
   * `order` lists every push once, by clamped priority and then by arrival: the stable sort.
   * Strict order on n indices below n leaves no room for a repeated or a missing one.
   */
  predicate IsStableSort<T>(order: seq<nat>, pushes: seq<Entry<T>>, levels: nat)
    requires 0 < levels
  {
    && |order| == |pushes|
    && (forall k :: 0 <= k < |order| ==> order[k] < |pushes|)
    && (forall a, b :: 0 <= a < b < |order| ==> Sooner(pushes, levels, order[a], order[b]))
  }

  predicate Sooner<T>(pushes: seq<Entry<T>>, levels: nat, i: nat, j: nat)
    requires 0 < levels && i < |pushes| && j < |pushes|
  {
    || Level(pushes[i].level, levels) < Level(pushes[j].level, levels)
    || (Level(pushes[i].level, levels) == Level(pushes[j].level, levels) && i < j)
  }

  /** The delivery order of the pushes, each entry carrying its arrival number. */
  function Ranking<T>(pushes: seq<Entry<T>>, levels: nat): seq<Entry<nat>>
    requires 0 < levels
  {
    if pushes == [] then []
    else
      var n := |pushes| - 1;
      StableInsert(Ranking(pushes[..n], levels), Entry(Level(pushes[n].level, levels), n))
  }

  /** Ranked entries name pushes below `n`, carry their levels, and stand in stable order. */
  predicate WellRanked<T>(es: seq<Entry<nat>>, pushes: seq<Entry<T>>, levels: nat, n: nat)
    requires 0 < levels && n <= |pushes|
  {
    && (forall k :: 0 <= k < |es| ==> es[k].item < n && es[k].level == Level(pushes[es[k].item].level, levels))
    && (forall a, b :: 0 <= a < b < |es| ==>
         es[a].level < es[b].level || (es[a].level == es[b].level && es[a].item < es[b].item))
  }

  lemma RankedCons<T>(head: Entry<nat>, rest: seq<Entry<nat>>, pushes: seq<Entry<T>>, levels: nat, n: nat)
    requires 0 < levels && n <= |pushes| && WellRanked(rest, pushes, levels, n)
    requires head.item < n && head.level == Level(pushes[head.item].level, levels)
    requires forall k :: 0 <= k < |rest| ==>
      head.level < rest[k].level || (head.level == rest[k].level && head.item < rest[k].item)
    ensures WellRanked([head] + rest, pushes, levels, n)
  {}

  lemma {:induction false} InsertMembers<T>(es: seq<Entry<T>>, e: Entry<T>)
    ensures forall k :: 0 <= k < |StableInsert(es, e)| ==> StableInsert(es, e)[k] == e || StableInsert(es, e)[k] in es
  {
    if es != [] && es[0].level <= e.level {
      InsertMembers(es[1..], e);
    }
  }

  lemma {:induction false} NewcomerIsRanked<T>(es: seq<Entry<nat>>, pushes: seq<Entry<T>>, levels: nat, n: nat)
    requires 0 < levels && n < |pushes| && WellRanked(es, pushes, levels, n)
    ensures var r := StableInsert(es, Entry(Level(pushes[n].level, levels), n));
      |r| == |es| + 1 && WellRanked(r, pushes, levels, n + 1)
  {
    var e := Entry(Level(pushes[n].level, levels), n);
    if es != [] && es[0].level <= e.level {
      NewcomerIsRanked(es[1..], pushes, levels, n);
      InsertMembers(es[1..], e);
      RankedCons(es[0], StableInsert(es[1..], e), pushes, levels, n + 1);
    } else {
      assert forall k :: 0 <= k < |es| ==> e.level < es[k].level;
      RankedCons(e, es, pushes, levels, n + 1);
    }
  }

  lemma {:induction false} RankingIsStable<T>(pushes: seq<Entry<T>>, all: seq<Entry<T>>, levels: nat)
    requires 0 < levels && pushes <= all
    ensures |Ranking(pushes, levels)| == |pushes| && WellRanked(Ranking(pushes, levels), all, levels, |pushes|)
  {
    if pushes != [] {
      var n := |pushes| - 1;
      RankingIsStable(pushes[..n], all, levels);
      NewcomerIsRanked(Ranking(pushes[..n], levels), all, levels, n);
    }
  }

  /** Ranked entries with each arrival number replaced by the item that arrived. */
  function Delivered<T>(es: seq<Entry<nat>>, pushes: seq<Entry<T>>): (r: seq<Entry<T>>)
    requires forall k :: 0 <= k < |es| ==> es[k].item < |pushes|
    ensures |r| == |es|
    ensures forall k :: 0 <= k < |r| ==> r[k] == Entry(es[k].level, pushes[es[k].item].item)
  {
    seq(|es|, k requires 0 <= k < |es| => Entry(es[k].level, pushes[es[k].item].item))
  }

  lemma {:induction false} InsertDelivered<T>(es: seq<Entry<nat>>, e: Entry<nat>, pushes: seq<Entry<T>>)
    requires e.item < |pushes| && forall k :: 0 <= k < |es| ==> es[k].item < |pushes|
    ensures forall k :: 0 <= k < |StableInsert(es, e)| ==> StableInsert(es, e)[k].item < |pushes|
    ensures Delivered(StableInsert(es, e), pushes)
         == StableInsert(Delivered(es, pushes), Entry(e.level, pushes[e.item].item))
  {
    if es != [] && es[0].level <= e.level {
      InsertDelivered(es[1..], e, pushes);
      assert Delivered(es, pushes)[1..] == Delivered(es[1..], pushes);
      assert Delivered(StableInsert(es, e), pushes)
          == [Delivered(es, pushes)[0]] + Delivered(StableInsert(es[1..], e), pushes);
    } else {
      assert StableInsert(es, e) == [e] + es;
    }
  }

  lemma {:induction false} EmptyOrder<T>(levels: nat, base: nat)
    ensures Flat(Empty<T>(levels), base) == []
  {
    FlatOfEmpty(Empty<T>(levels), base);
  }

  lemma {:induction false} OrderAfterPushes<T>(pushes: seq<Entry<T>>, all: seq<Entry<T>>, levels: nat)
    requires 0 < levels && pushes <= all
    requires forall k :: 0 <= k < |Ranking(pushes, levels)| ==> Ranking(pushes, levels)[k].item < |all|
    ensures Order(PushAll(Empty(levels), pushes)) == Delivered(Ranking(pushes, levels), all)
  {
    if pushes == [] {
      EmptyOrder<T>(levels, 0);
    } else {
      var n := |pushes| - 1;
      RankingIsStable(pushes[..n], all, levels);
      OrderAfterPushes(pushes[..n], all, levels);
      PushIsStableInsert(PushAll(Empty(levels), pushes[..n]), pushes[n].level, pushes[n].item);
      InsertDelivered(Ranking(pushes[..n], levels), Entry(Level(pushes[n].level, levels), n), all);
    }
  }

  /** Draining after any run of pushes yields the stable sort of the pushes by clamped priority. */
  lemma DrainIsStableSort<T>(pushes: seq<Entry<T>>, levels: nat) returns (order: seq<nat>)
    requires 0 < levels
    ensures IsStableSort(order, pushes, levels)
    ensures |Drain(PushAll(Empty(levels), pushes))| == |pushes|
    ensures forall k :: 0 <= k < |pushes| ==> Drain(PushAll(Empty(levels), pushes))[k] == pushes[order[k]].item
  {
    var ranked := Ranking(pushes, levels);
    RankingIsStable(pushes, pushes, levels);
    order := Items(ranked);
    OrderAfterPushes(pushes, pushes, levels);
    DrainIsOrder(PushAll(Empty(levels), pushes));
  }

  // ---------------------------------------------------------------- bounded bypass

  datatype Op<T> = Enqueue(priority: nat, item: T) | Dequeue

  function Apply<T>(lists: seq<seq<T>>, op: Op<T>): (r: seq<seq<T>>)
    requires 0 < |lists|
    ensures |r| == |lists|
  {
    match op
    case Enqueue(p, x) => Push(lists, p, x)
    case Dequeue => if Pop(lists).Some? then Pop(lists).value.1 else lists
  }

  /** What the dequeues of a run hand out. */
  function Outputs<T>(lists: seq<seq<T>>, ops: seq<Op<T>>): seq<T>
    requires 0 < |lists|
    decreases |ops|
  {
    if ops == [] then []
    else
      (if ops[0].Dequeue? && Pop(lists).Some? then [Pop(lists).value.0] else [])
          + Outputs(Apply(lists, ops[0]), ops[1..])
  }

  function Dequeues<T>(ops: seq<Op<T>>): nat {
    if ops == [] then 0 else (if ops[0].Dequeue? then 1 else 0) + Dequeues(ops[1..])
  }

  /** Pushes at a strictly better level than `level`. */
  function Overtakes<T>(ops: seq<Op<T>>, level: nat, levels: nat): nat
    requires 0 < levels
  {
    if ops == [] then 0
    else
      (if ops[0].Enqueue? && Level(ops[0].priority, levels) < level then 1 else 0)
        + Overtakes(ops[1..], level, levels)
  }

  function Rank<T>(rank: nat, level: nat, op: Op<T>, levels: nat): int
    requires 0 < levels
  {
    match op
    case Enqueue(p, _) => if Level(p, levels) < level then rank + 1 else rank
    case Dequeue => rank - 1
  }

  lemma {:induction false} InsertRank<T>(es: seq<Entry<T>>, e: Entry<T>, i: nat)
    requires forall a, b :: 0 <= a < b < |es| ==> es[a].level <= es[b].level
    requires i < |es|
    ensures var j := if e.level < es[i].level then i + 1 else i;
      j < |StableInsert(es, e)| && StableInsert(es, e)[j] == es[i]
  {
    if es[0].level <= e.level && i > 0 {
      InsertRank(es[1..], e, i - 1);
    }
  }

  lemma {:induction false} OrderIsSorted<T>(lists: seq<seq<T>>, base: nat)
    ensures forall a, b :: 0 <= a < b < |Flat(lists, base)| ==> Flat(lists, base)[a].level <= Flat(lists, base)[b].level
  {
    if lists != [] {
      OrderIsSorted(lists[1..], base + 1);
      FlatLevels(lists[1..], base + 1);
    }
  }

  /** A waiting item moves up one place on each dequeue and down one only for a strictly better push. */
  lemma RankStep<T>(lists: seq<seq<T>>, rank: nat, op: Op<T>)
    requires 0 < |lists| && rank < |Order(lists)|
    ensures var e, r := Order(lists)[rank], Rank(rank, Order(lists)[rank].level, op, |lists|);
      if r < 0 then op.Dequeue? && Pop(lists).Some? && Pop(lists).value.0 == e.item
      else r < |Order(Apply(lists, op))| && Order(Apply(lists, op))[r] == e
  {
    match op
    case Enqueue(p, x) =>
      PushIsStableInsert(lists, p, x);
      OrderIsSorted(lists, 0);
      InsertRank(Order(lists), Entry(Level(p, |lists|), x), rank);
    case Dequeue =>
      PopIsHead(lists);
  }

  /** How many of the operations come before the dequeue that hands the entry out; all of them if none does. */
  function LeavesAt<T>(rank: nat, level: nat, ops: seq<Op<T>>, levels: nat): (n: nat)
    requires 0 < levels
    ensures n <= |ops|
    decreases |ops|
  {
    if ops == [] then 0
    else
      var r := Rank(rank, level, ops[0], levels);
      if r < 0 then 0 else 1 + LeavesAt(r, level, ops[1..], levels)
  }

  /**
   * A dequeue hands the entry out, and it is exactly the output that comes after the `rank` entries ahead of it and
   * after those of the better pushes that came before it left.
   */
  ghost predicate LeavesInTurn<T>(lists: seq<seq<T>>, e: Entry<T>, rank: nat, ops: seq<Op<T>>)
    requires 0 < |lists|
  {
    var n := LeavesAt(rank, e.level, ops, |lists|);
    && n < |ops| && ops[n].Dequeue?
    && var k := rank + Overtakes(ops[..n], e.level, |lists|);
       k == Dequeues(ops[..n]) && k < |Outputs(lists, ops)| && Outputs(lists, ops)[k] == e.item
  }

  lemma PrefixCounts<T>(ops: seq<Op<T>>, n: nat, level: nat, levels: nat)
    requires 0 < levels && n < |ops|
    ensures Dequeues(ops[..n + 1]) == (if ops[0].Dequeue? then 1 else 0) + Dequeues(ops[1..][..n])
    ensures Overtakes(ops[..n + 1], level, levels)
         == (if ops[0].Enqueue? && Level(ops[0].priority, levels) < level then 1 else 0)
            + Overtakes(ops[1..][..n], level, levels)
  {
    assert ops[..n + 1][1..] == ops[1..][..n];
  }

  lemma TurnComesNearer<T>(lists: seq<seq<T>>, e: Entry<T>, rank: nat, ops: seq<Op<T>>)
    requires 0 < |lists| && ops != [] && (ops[0].Dequeue? ==> Pop(lists).Some?)
    requires var r := Rank(rank, e.level, ops[0], |lists|); r >= 0 && LeavesInTurn(Apply(lists, ops[0]), e, r, ops[1..])
    ensures LeavesInTurn(lists, e, rank, ops)
  {
    var n := LeavesAt(Rank(rank, e.level, ops[0], |lists|), e.level, ops[1..], |lists|);
    PrefixCounts(ops, n, e.level, |lists|);
    assert LeavesAt(rank, e.level, ops, |lists|) == n + 1 && ops[n + 1] == ops[1..][n];
    var first := if ops[0].Dequeue? then [Pop(lists).value.0] else [];
    assert Outputs(lists, ops) == first + Outputs(Apply(lists, ops[0]), ops[1..]);
  }

  lemma {:induction false} FewerOvertakes<T>(ops: seq<Op<T>>, n: nat, level: nat, levels: nat)
    requires 0 < levels && n <= |ops|
    ensures Overtakes(ops[..n], level, levels) <= Overtakes(ops, level, levels)
    decreases n
  {
    if n > 0 {
      FewerOvertakes(ops[1..], n - 1, level, levels);
      assert ops[..n][1..] == ops[1..][..n - 1];
    }
  }

  lemma {:induction false} TurnComes<T>(lists: seq<seq<T>>, rank: nat, ops: seq<Op<T>>)
    requires 0 < |lists| && rank < |Order(lists)|
    requires Dequeues(ops) >= rank + Overtakes(ops, Order(lists)[rank].level, |lists|) + 1
    ensures LeavesInTurn(lists, Order(lists)[rank], rank, ops)
    decreases |ops|
  {
    var e := Order(lists)[rank];
    RankStep(lists, rank, ops[0]);
    PopIsHead(lists);
    var r := Rank(rank, e.level, ops[0], |lists|);
    if r >= 0 {
      TurnComes(Apply(lists, ops[0]), r, ops[1..]);
      TurnComesNearer(lists, e, rank, ops);
    }
  }

  /**
   * Bounded bypass: with `rank` entries ahead and m later pushes at a strictly better level, an entry leaves in turn,
   * within rank + m + 1 dequeues.
   */
  lemma BoundedBypass<T>(lists: seq<seq<T>>, rank: nat, ops: seq<Op<T>>)
    requires 0 < |lists| && rank < |Order(lists)|
    requires Dequeues(ops) >= rank + Overtakes(ops, Order(lists)[rank].level, |lists|) + 1
    ensures var e := Order(lists)[rank];
      && LeavesInTurn(lists, e, rank, ops)
      && Dequeues(ops[..LeavesAt(rank, e.level, ops, |lists|)]) <= rank + Overtakes(ops, e.level, |lists|)
  {
    var e := Order(lists)[rank];
    TurnComes(lists, rank, ops);
    FewerOvertakes(ops, LeavesAt(rank, e.level, ops, |lists|), e.level, |lists|);
  }
}
