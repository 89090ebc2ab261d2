/** The worker pool as an object; its await-free segments are the steps of the permit accounting. */
module WorkerPool {
  import opened Prelude
  import opened Domain
  import P = Pool

  class WorkerPool {
    const concurrency: nat
    var permits: nat
    var loops: seq<P.Loop>
    var running: multiset<TaskId>

    function AsState(): P.State
      reads this
    {
      P.State(permits, loops, running)
    }

    predicate Valid()
      reads this
    {
      P.Accounted(AsState()) && |loops| == concurrency
    }

    constructor (concurrency: nat)
      ensures this.concurrency == concurrency && Valid() && AsState() == P.Init(concurrency)
    {
      this.concurrency := concurrency;
      permits, running := concurrency, multiset{};
      loops := seq(concurrency, _ => P.Polling);
      new;
      P.AllPolling(loops);
    }

    /** A poll of loop `k` returns an id, or None on a timeout or a connection error. */
    method Polled(k: nat, id: Option<TaskId>)
      requires Valid() && k < |loops| && loops[k] == P.Polling
      modifies this
      ensures Valid()
      ensures AsState() == if id.Some? then P.Next(old(AsState()), P.Pop(k, id.value)) else old(AsState())
    {
      if id.Some? {
        P.AccountedStep(AsState(), P.Pop(k, id.value));
        loops := loops[k := P.Popped(id.value)];
      }
    }

    /** The loop goes on with a permit, or stays blocked when none is free. */
    method AcquirePermit(k: nat) returns (ok: bool)
      requires Valid() && k < |loops| && loops[k].Popped?
      modifies this
      ensures Valid() && ok == (old(permits) > 0)
      ensures AsState() == if ok then P.Next(old(AsState()), P.Acquire(k)) else old(AsState())
    {
      ok := permits > 0;
      if ok {
        P.AccountedStep(AsState(), P.Acquire(k));
        permits := permits - 1;
        loops := loops[k := P.Permitted(loops[k].id)];
      }
    }

    /** The processor of the loop's id is created, and the loop polls again. */
    method SpawnProcessor(k: nat)
      requires Valid() && k < |loops| && loops[k].Permitted?
      modifies this
      ensures Valid() && AsState() == P.Next(old(AsState()), P.Spawn(k))
    {
      P.AccountedStep(AsState(), P.Spawn(k));
      running := running + multiset{loops[k].id};
      loops := loops[k := P.Polling];
    }

    /** The loop is cancelled while it waits; an id it has popped is lost. */
    method StopLoop(k: nat)
      requires Valid() && k < |loops| && (loops[k] == P.Polling || loops[k].Popped?)
      modifies this
      ensures Valid() && AsState() == P.Next(old(AsState()), P.Stop(k))
    {
      P.AccountedStep(AsState(), P.Stop(k));
      loops := loops[k := P.Stopped];
    }

    /** A processor ends, however it ends, and gives its permit back. */
    method EndProcessor(id: TaskId)
      requires Valid() && id in running
      modifies this
      ensures Valid() && AsState() == P.Next(old(AsState()), P.Finish(id))
    {
      P.AccountedStep(AsState(), P.Finish(id));
      running := running - multiset{id};
      permits := permits + 1;
    }
  }
}
