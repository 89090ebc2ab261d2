/** The task entity as the services mutate it, and the three ports they write through. */
module Stores {
  import opened Prelude
  import opened Domain
  import opened Backoff
  import opened ScheduledSet
  import opened Protocol
  import opened Listing
  import ReadyQueue

  /** A task in a service's hands: a copy of its row until it is saved. */
  class Task {
    const id: TaskId
    var status: Status
    var priority: nat
    var maxRetries: nat
    var attempts: nat
    var scheduledAt: Option<int>
    var timeoutSeconds: nat
    var backoff: BackoffPolicy
    var workerId: Option<string>
    var result: Option<string>
    var error: Option<string>
    var key: Option<string>
    var startedAt: Option<int>
    var finishedAt: Option<int>

    function AsRow(): Row
      reads this
    {
      Row(status, priority, maxRetries, attempts, scheduledAt, timeoutSeconds, backoff,
        workerId, result, error, key, startedAt, finishedAt)
    }

    constructor FromRow(id: TaskId, r: Row)
      ensures this.id == id && AsRow() == r
    {
      this.id := id;
      status, priority, maxRetries, attempts := r.status, r.priority, r.maxRetries, r.attempts;
      scheduledAt, timeoutSeconds, backoff := r.scheduledAt, r.timeoutSeconds, r.backoff;
      workerId, result, error, key := r.workerId, r.result, r.error, r.key;
      startedAt, finishedAt := r.startedAt, r.finishedAt;
    }

    constructor Create(id: TaskId, q: Request, now: int)
      ensures this.id == id && AsRow() == NewRow(q, now)
    {
      this.id := id;
      status := if q.scheduledAt.Some? && q.scheduledAt.value > now then Scheduled else Pending;
      priority, maxRetries, attempts := q.priority, q.maxRetries, 0;
      scheduledAt, timeoutSeconds := q.scheduledAt, q.timeoutSeconds;
      backoff := if q.backoff.Some? then q.backoff.value else DEFAULT_POLICY;
      workerId, result, error, key := None, None, None, q.key;
      startedAt, finishedAt := None, None;
    }

    /** Refused, and then without effect, unless the table allows the edge. */
    method TransitionTo(to: Status) returns (ok: bool)
      modifies `status
      ensures ok == Allowed(old(status), to)
      ensures status == if ok then to else old(status)
    {
      ok := Allowed(status, to);
      if ok {
        status := to;
      }
    }
  }

  lemma OrderExtended(order: seq<TaskId>, id: TaskId)
    ensures Members(order + [id]) == Members(order) + {id}
    ensures Distinct(order) && id !in Members(order) ==> Distinct(order + [id])
  {
    MembersOfConcat(order, [id]);
    assert Members([id]) == {id} by { assert [id][0] == id; }
    assert forall i :: 0 <= i < |order| ==> order[i] in Members(order);
  }

  class TaskRepository {
    var rows: map<TaskId, Row>
    var order: seq<TaskId>

    /** The creation order lists the table's ids, each once. */
    ghost predicate Valid()
      reads this
    {
      Distinct(order) && Members(order) == rows.Keys
    }

    constructor ()
      ensures rows == map[] && order == [] && Valid()
    {
      rows, order := map[], [];
    }

    /** An update keeps the stored key; an insert whose key is taken is refused by the unique index. */
    method Save(task: Task) returns (ok: bool)
      modifies this
      ensures ok == (task.id in old(rows) || task.key.None? || FindByKey(old(rows), old(order), task.key.value).None?)
      ensures rows == if !ok then old(rows) else old(rows)[task.id :=
        if task.id in old(rows) then task.AsRow().(key := old(rows)[task.id].key) else task.AsRow()]
      ensures order == if !ok || task.id in old(rows) then old(order) else old(order) + [task.id]
      ensures old(Valid()) ==> Valid()
    {
      if task.id in rows {
        rows := rows[task.id := task.AsRow().(key := rows[task.id].key)];
        return true;
      }
      if task.key.Some? {
        var taken := GetByIdempotencyKey(task.key.value);
        if taken.Some? {
          return false;
        }
      }
      OrderExtended(order, task.id);
      rows := rows[task.id := task.AsRow()];
      order := order + [task.id];
      ok := true;
    }

    method GetById(id: TaskId) returns (task: Task?)
      ensures task == null <==> id !in rows
      ensures task != null ==> fresh(task) && task.id == id && task.AsRow() == rows[id]
    {
      task := null;
      if id in rows {
        task := new Task.FromRow(id, rows[id]);
      }
    }

    /** Searches the table backwards through creation order. */
    method GetByIdempotencyKey(key: string) returns (id: Option<TaskId>)
      ensures id == FindByKey(rows, order, key)
    {
      id := None;
      var k := |order|;
      assert order[..k] == order;
      while k > 0
        invariant 0 <= k <= |order|
        invariant FindByKey(rows, order, key) == FindByKey(rows, order[..k], key)
      {
        assert order[..k][..k - 1] == order[..k - 1];
        k := k - 1;
        if order[k] in rows && rows[order[k]].key == Some(key) {
          return Some(order[k]);
        }
      }
    }

    /** The query: up to `limit` ids of a status, most recent first. */
    method SelectByStatus(status: Status, limit: nat) returns (ids: seq<TaskId>)
      ensures ids == Protocol.ListByStatus(rows, order, status, limit)
      ensures forall i :: 0 <= i < |ids| ==> ids[i] in rows
    {
      ids := [];
      var k := |order|;
      assert order[..k] == order;
      while k > 0 && |ids| < limit
        invariant 0 <= k <= |order| && |ids| <= limit
        invariant Protocol.ListByStatus(rows, order, status, limit)
               == ids + Protocol.ListByStatus(rows, order[..k], status, limit - |ids|)
        invariant forall i :: 0 <= i < |ids| ==> ids[i] in rows
        decreases k
      {
        assert order[..k][..k - 1] == order[..k - 1];
        k := k - 1;
        if order[k] in rows && rows[order[k]].status == status {
          ids := ids + [order[k]];
        }
      }
    }

    /** The tasks of a query, each a fresh copy of its row. */
    method ListByStatus(status: Status, limit: nat) returns (tasks: seq<Task>)
      ensures Copied(tasks, Protocol.ListByStatus(rows, order, status, limit))
      ensures forall i :: 0 <= i < |tasks| ==> fresh(tasks[i])
      ensures forall i, j :: 0 <= i < j < |tasks| ==> tasks[i] != tasks[j]
    {
      var ids := SelectByStatus(status, limit);
      tasks := [];
      while |tasks| < |ids|
        invariant |tasks| <= |ids| && Copied(tasks, ids[..|tasks|])
        invariant forall i :: 0 <= i < |tasks| ==> fresh(tasks[i])
        invariant forall i, j :: 0 <= i < j < |tasks| ==> tasks[i] != tasks[j]
        decreases |ids| - |tasks|
      {
        var task := new Task.FromRow(ids[|tasks|], rows[ids[|tasks|]]);
        tasks := tasks + [task];
      }
      assert ids[..|tasks|] == ids;
    }

    /** The objects are copies of the rows of these ids. */
    ghost predicate Copied(tasks: seq<Task>, ids: seq<TaskId>)
      reads this, tasks
    {
      && |tasks| == |ids|
      && forall i :: 0 <= i < |ids| ==> tasks[i].id == ids[i] && ids[i] in rows && tasks[i].AsRow() == rows[ids[i]]
    }
  }

  class EventRepository {
    var log: seq<Event>

    constructor ()
      ensures log == []
    {
      log := [];
    }

    method Append(id: TaskId, kind: EventKind, from: Option<Status>, to: Status)
      modifies this
      ensures log == old(log) + [Event(id, kind, from, to)]
    {
      log := log + [Event(id, kind, from, to)];
    }
  }

  /** Redis as the backend uses it; each call is refused, without effect, when `up` is false. */
  class RedisQueueBackend {
    var ready: ReadyLists
    var scheduled: map<TaskId, int>
    var inflight: map<TaskId, int>
    var cancelled: set<TaskId>
    var dlq: seq<TaskId>

    function AsRedis(): Redis
      reads this
    {
      Redis(ready, scheduled, inflight, cancelled, dlq)
    }

    constructor (levels: nat)
      requires 0 < levels
      ensures AsRedis() == Redis(seq(levels, _ => []), map[], map[], {}, [])
    {
      ready := seq(levels, _ => []);
      scheduled, inflight, cancelled, dlq := map[], map[], {}, [];
    }

    method EnqueueReady(id: TaskId, priority: nat, up: bool) returns (ok: bool)
      modifies `ready
      ensures ok == up
      ensures ready == if up then ReadyQueue.Push(old(ready), priority, id) else old(ready)
    {
      ok := up;
      if up {
        var clamped := if priority < |ready| - 1 then priority else |ready| - 1;
        ready := ready[clamped := [id] + ready[clamped]];
      }
    }

    method EnqueueScheduled(id: TaskId, at: int, up: bool) returns (ok: bool)
      modifies `scheduled
      ensures ok == up
      ensures scheduled == if up then old(scheduled)[id := at] else old(scheduled)
    {
      ok := up;
      if up {
        scheduled := scheduled[id := at];
      }
    }

    /** BRPOP over the priority lists in order; None when it would block. */
    method DequeueReady() returns (id: Option<TaskId>)
      modifies `ready
      ensures match ReadyQueue.Pop(old(ready))
        case None => id == None && ready == old(ready)
        case Some((x, rest)) => id == Some(x) && ready == rest
    {
      var p := 0;
      while p < |ready| && ready[p] == []
        invariant 0 <= p <= |ready|
        invariant ReadyQueue.FirstNonEmpty(ready, 0) == ReadyQueue.FirstNonEmpty(ready, p)
      {
        p := p + 1;
      }
      if p == |ready| {
        return None;
      }
      var last := |ready[p]| - 1;
      id := Some(ready[p][last]);
      ready := ready[p := ready[p][..last]];
    }

    method RemoveScheduled(id: TaskId, up: bool) returns (ok: bool)
      modifies `scheduled
      ensures ok == up
      ensures scheduled == if up then old(scheduled) - {id} else old(scheduled)
    {
      ok := up;
      if up {
        scheduled := scheduled - {id};
      }
    }

    /** ZRANGEBYSCORE 0 now LIMIT 0 limit, without removing anything. */
    method GetDueScheduled(limit: nat, now: int) returns (ids: seq<TaskId>)
      ensures ids == Range(scheduled, now, limit)
    {
      ids := [];
      var left := scheduled;
      var room := limit;
      while room > 0 && DueIds(left, now) != {}
        invariant Range(scheduled, now, limit) == ids + Range(left, now, room)
        decreases room
      {
        var a := First(left, DueIds(left, now));
        ids := ids + [a];
        left := left - {a};
        room := room - 1;
      }
    }

    /** The claim script: the due range, then a ZREM of each member. */
    method ClaimDueScheduled(limit: nat, now: int) returns (ids: seq<TaskId>)
      modifies `scheduled
      ensures ids == Range(old(scheduled), now, limit)
      ensures scheduled == old(scheduled) - Members(ids)
    {
      ids := GetDueScheduled(limit, now);
      var i := 0;
      while i < |ids|
        invariant 0 <= i <= |ids|
        invariant scheduled == old(scheduled) - Members(ids[..i])
      {
        assert ids[..i + 1] == ids[..i] + [ids[i]];
        MembersOfConcat(ids[..i], [ids[i]]);
        assert Members([ids[i]]) == {ids[i]} by { assert [ids[i]][0] == ids[i]; }
        scheduled := scheduled - {ids[i]};
        i := i + 1;
      }
      assert ids[..|ids|] == ids;
    }

    method MarkInflight(id: TaskId, ttl: nat, now: int, up: bool) returns (ok: bool)
      modifies `inflight
      ensures ok == up
      ensures inflight == if up then old(inflight)[id := now + ttl] else old(inflight)
    {
      ok := up;
      if up {
        inflight := inflight[id := now + ttl];
      }
    }

    method ClearInflight(id: TaskId, up: bool) returns (ok: bool)
      modifies `inflight
      ensures ok == up
      ensures inflight == if up then old(inflight) - {id} else old(inflight)
    {
      ok := up;
      if up {
        inflight := inflight - {id};
      }
    }

    method EnqueueDlq(id: TaskId, up: bool) returns (ok: bool)
      modifies `dlq
      ensures ok == up
      ensures dlq == if up then [id] + old(dlq) else old(dlq)
    {
      ok := up;
      if up {
        dlq := [id] + dlq;
      }
    }

    method MarkCancelled(id: TaskId, up: bool) returns (ok: bool)
      modifies `cancelled
      ensures ok == up
      ensures cancelled == if up then old(cancelled) + {id} else old(cancelled)
    {
      ok := up;
      if up {
        cancelled := cancelled + {id};
      }
    }

    method ClearCancelled(id: TaskId, up: bool) returns (ok: bool)
      modifies `cancelled
      ensures ok == up
      ensures cancelled == if up then old(cancelled) - {id} else old(cancelled)
    {
      ok := up;
      if up {
        cancelled := cancelled - {id};
      }
    }

    /** The unexpired inflight keys, each once, in no particular order. */
    method GetInflightTaskIds(now: int) returns (ids: seq<TaskId>)
      ensures Members(ids) == set id | id in inflight && now < inflight[id]
      ensures Distinct(ids)
    {
      var unseen := set id | id in inflight && now < inflight[id];
      ghost var all := unseen;
      ids := [];
      while unseen != {}
        invariant unseen <= all && Members(ids) == all - unseen
        invariant Distinct(ids)
        decreases |unseen|
      {
        var id :| id in unseen;
        OrderExtended(ids, id);
        ids := ids + [id];
        unseen := unseen - {id};
      }
    }
  }

  /** The two stores together, as the specification functions see them. */
  function Joint(tasks: TaskRepository, events: EventRepository, queue: RedisQueueBackend): Store
    reads tasks, events, queue
  {
    Store(tasks.rows, tasks.order, events.log, queue.AsRedis())
  }
}
