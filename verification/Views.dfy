/** One task's share of the state, and how the primitive writes change it. */
module Views {
  import opened Prelude
  import opened Domain
  import opened Protocol
  import opened Machine
  import ReadyQueue

  /** The stores, restricted to one id: `waiting` counts its copies in the ready lists. */
  datatype Facts = Facts(
    row: Option<Row>,
    trail: seq<Event>,
    waiting: nat,
    zset: bool,
    marked: bool,
    dlq: nat)

  datatype View = View(f: Facts, hands: map<Slot, Worker>, claimed: bool, adrift: bool)

  /** The audit events of one task, oldest first. */
  function Trail(log: seq<Event>, id: TaskId): seq<Event> {
    if log == [] then []
    else
      var last := |log| - 1;
      Trail(log[..last], id) + (if log[last].id == id then [log[last]] else [])
  }

  function FactsOf(s: Store, id: TaskId): Facts {
    Facts(
      if id in s.rows then Some(s.rows[id]) else None,
      Trail(s.log, id),
      Copies(s.redis.ready, id),
      id in s.redis.scheduled,
      id in s.redis.cancelled,
      multiset(s.redis.dlq)[id])
  }

  function HandsOf(workers: map<Slot, Worker>, id: TaskId): map<Slot, Worker> {
    map slot | slot in workers && workers[slot].id == id :: workers[slot]
  }

  function ViewOf(st: State, id: TaskId): View {
    View(FactsOf(st.store, id), HandsOf(st.workers, id), id in st.claimed, id in st.adrift)
  }

  // ---------------------------------------------------------------- primitive writes

  function Wrote(f: Facts, id: TaskId, row: Row, kind: EventKind, from: Option<Status>): Facts {
    f.(row := Some(if f.row.Some? then row.(key := f.row.value.key) else row),
       trail := f.trail + [Event(id, kind, from, row.status)])
  }

  lemma CommitFacts(s: Store, id: TaskId, row: Row, kind: EventKind, from: Option<Status>, j: TaskId)
    ensures FactsOf(Commit(s, id, row, kind, from), j)
         == if j == id then Wrote(FactsOf(s, j), id, row, kind, from) else FactsOf(s, j)
  {}

  lemma {:induction false} CopiesAfterUpdate(lists: seq<seq<TaskId>>, p: nat, xs: seq<TaskId>, id: TaskId)
    requires p < |lists|
    ensures Copies(lists[p := xs], id) == Copies(lists, id) - multiset(lists[p])[id] + multiset(xs)[id]
    ensures multiset(lists[p])[id] <= Copies(lists, id)
  {
    if p == 0 {
      assert lists[p := xs][1..] == lists[1..];
    } else {
      CopiesAfterUpdate(lists[1..], p - 1, xs, id);
      assert lists[p := xs][1..] == lists[1..][p - 1 := xs];
    }
  }

  lemma EnqueueReadyFacts(s: Store, id: TaskId, priority: nat, j: TaskId)
    ensures FactsOf(EnqueueReady(s, id, priority), j)
         == if j == id then FactsOf(s, j).(waiting := FactsOf(s, j).waiting + 1) else FactsOf(s, j)
  {
    var p := ReadyQueue.Level(priority, |s.redis.ready|);
    var xs := s.redis.ready[p];
    CopiesAfterUpdate(s.redis.ready, p, [id] + xs, j);
    assert multiset([id] + xs) == multiset{id} + multiset(xs);
  }

  lemma PopFacts(s: Store, j: TaskId)
    requires ReadyQueue.Pop(s.redis.ready).Some?
    ensures var (id, lists) := ReadyQueue.Pop(s.redis.ready).value;
      var f := FactsOf(s, j);
      && (j == id ==> f.waiting > 0)
      && FactsOf(s.(redis := s.redis.(ready := lists)), j) == if j == id then f.(waiting := f.waiting - 1) else f
  {
    var lists := s.redis.ready;
    var p := ReadyQueue.FirstNonEmpty(lists, 0);
    var last := |lists[p]| - 1;
    CopiesAfterUpdate(lists, p, lists[p][..last], j);
    assert lists[p] == lists[p][..last] + [lists[p][last]];
  }

  lemma SetFacts(s: Store, id: TaskId, at: int, j: TaskId)
    ensures FactsOf(EnqueueScheduled(s, id, at), j) == if j == id then FactsOf(s, j).(zset := true) else FactsOf(s, j)
    ensures FactsOf(RemoveScheduled(s, id), j) == if j == id then FactsOf(s, j).(zset := false) else FactsOf(s, j)
    ensures FactsOf(MarkCancelled(s, id), j) == if j == id then FactsOf(s, j).(marked := true) else FactsOf(s, j)
    ensures FactsOf(ClearCancelled(s, id), j) == if j == id then FactsOf(s, j).(marked := false) else FactsOf(s, j)
    ensures FactsOf(MarkInflight(s, id, at), j) == FactsOf(s, j)
    ensures FactsOf(ClearInflight(s, id), j) == FactsOf(s, j)
  {}

  lemma HandsAfterUpdate(workers: map<Slot, Worker>, slot: Slot, w: Worker, j: TaskId)
    requires slot in workers ==> workers[slot].id == w.id
    ensures HandsOf(workers[slot := w], j)
         == if j == w.id then HandsOf(workers, j)[slot := w] else HandsOf(workers, j)
  {}
}
