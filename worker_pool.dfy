/**
 * The fixed-size set of worker threads behind the tag-protocol scheduler
 * (src/workerPool.ts): it replaces closed workers on demand, hands a task to
 * a given worker, and ends every worker.
 */
module Pool {
  import opened Values
  import opened Channel
  import opened Messages
  import opened Context
  import opened Threads

  /** `workerExits.reduce((result, f) => ({ forceExited: result.forceExited || f }), { forceExited: false })` */
  function OrFold(flags: seq<bool>): bool
    decreases |flags|
  {
    if flags == [] then false else OrFold(flags[..|flags| - 1]) || flags[|flags| - 1]
  }

  /** The pool reports a forced exit exactly when some worker had to be forced. */
  lemma {:induction false} OrFoldAny(flags: seq<bool>)
    ensures OrFold(flags) <==> exists i :: 0 <= i < |flags| && flags[i]
    decreases |flags|
  {
    if flags != [] {
      var p := flags[..|flags| - 1];
      OrFoldAny(p);
      if exists i :: 0 <= i < |p| && p[i] {
        var i :| 0 <= i < |p| && p[i];
        assert flags[i];
      }
      if exists i :: 0 <= i < |flags| && flags[i] {
        var i :| 0 <= i < |flags| && flags[i];
        if i < |p| { assert p[i]; }
      }
    }
  }

  class WorkerPool {
    const maxWorkers: nat
    /** `new Array(maxWorkers)`: a slot is `null` until a worker fills it. */
    var workers: seq<WorkerThread?>

    ghost function Threads(): set<WorkerThread?>
      reads this
    {
      set i | 0 <= i < |workers| :: workers[i]
    }

    /** Every slot holds its own worker, whose id is the slot's index. */
    ghost predicate Filled()
      reads this, Threads()
    {
      && |workers| == maxWorkers
      && (forall i :: 0 <= i < maxWorkers ==> workers[i] != null && workers[i].workerId == i && workers[i].Valid())
      && (forall i, j :: 0 <= i < j < maxWorkers ==> workers[i] != workers[j])
    }

    ghost predicate Valid()
      reads this, Threads()
    {
      Filled()
    }

    constructor (maxWorkers: nat)
      ensures this.maxWorkers == maxWorkers && Valid()
      ensures forall i :: 0 <= i < maxWorkers ==> fresh(workers[i]) && workers[i].Pristine()
    {
      this.maxWorkers := maxWorkers;
      workers := seq(maxWorkers, _ => null);
      new;
      Invalidate();
    }

    /** `invalidateWorkers`: every empty slot and every closed worker gets a new worker. */
    method Invalidate()
      requires |workers| == maxWorkers
      requires forall i :: 0 <= i < maxWorkers && workers[i] != null ==> workers[i].workerId == i && workers[i].Valid()
      requires forall i, j :: 0 <= i < j < maxWorkers && workers[i] != null ==> workers[i] != workers[j]
      modifies this`workers
      ensures Valid()
      ensures forall i :: 0 <= i < maxWorkers ==>
        if old(workers[i]) != null && !old(workers[i].closed) then workers[i] == old(workers[i])
        else fresh(workers[i]) && workers[i].Pristine()
    {
      for id := 0 to maxWorkers
        invariant |workers| == maxWorkers
        invariant forall i :: 0 <= i < maxWorkers && workers[i] != null ==> workers[i].workerId == i && workers[i].Valid()
        invariant forall i, j :: 0 <= i < j < maxWorkers && workers[i] != null ==> workers[i] != workers[j]
        invariant forall i :: 0 <= i < id ==> workers[i] != null
        invariant forall i :: 0 <= i < maxWorkers ==>
          if i >= id || (old(workers[i]) != null && !old(workers[i].closed)) then workers[i] == old(workers[i])
          else fresh(workers[i]) && workers[i].Pristine()
      {
        var existing := workers[id];
        if existing != null && !existing.closed {
          continue;
        }
        var worker := new WorkerThread(id);
        workers := workers[id := worker];
      }
    }

    /**
     * `send`: while the worker in slot `w` is closed, invalidate the pool;
     * then request the task from the (open) worker in that slot. A closed
     * worker is replaced by a new one, so the loop runs at most once.
     */
    method Send(w: nat, req: TaskMessage, cb: nat) returns (ok: bool)
      requires Valid() && w < maxWorkers
      requires req.context.Some? ==> WellTyped(req.context.value)
      modifies this, Threads()
      ensures Valid()
      ensures !old(workers[w].closed) ==> workers == old(workers)
      ensures old(workers[w].closed) ==> forall i :: 0 <= i < maxWorkers ==>
        if old(workers[i].closed) then fresh(workers[i]) else workers[i] == old(workers[i])
      ensures !workers[w].closed && workers[w].request == Some(req) && workers[w].callback == Some(cb)
      ensures ok <==> req.context.Some?
      ensures ok ==> (workers[w].posts ==
        (if old(workers[w].closed) then [] else old(workers[w].posts)) +
        [TaskPost(if old(workers[w].closed) then 0 else old(|workers[w].ports|), req.tag, req.processed,
                  CreateTransferValue(req.context.value))])
      ensures forall i :: 0 <= i < maxWorkers && i != w ==> unchanged(old(workers)[i])
    {
      var worker := workers[w];
      while worker.closed
        invariant Valid() && worker == workers[w]
        invariant worker.closed ==> workers == old(workers)
        invariant !worker.closed && old(workers[w].closed) ==> forall i :: 0 <= i < maxWorkers ==>
          if old(workers[i].closed) then fresh(workers[i]) && workers[i].Pristine() else workers[i] == old(workers[i])
        invariant !old(workers[w].closed) ==> workers == old(workers)
        invariant forall i :: 0 <= i < maxWorkers ==> unchanged(old(workers)[i])
        decreases if worker.closed then 1 else 0
      {
        Invalidate();
        worker := workers[w];
      }
      ok := worker.RequestTask(req, cb);
    }

    /** The first half of `end`: every worker is asked to exit. */
    method RequestExits()
      requires Valid()
      modifies Threads()
      ensures Valid() && workers == old(workers)
      ensures forall i :: 0 <= i < maxWorkers ==>
        workers[i].closed && workers[i].request == Some(ExitRequest) &&
        workers[i].posts == old(workers[i].posts) + [ExitPost(EXIT_THREAD, false)] &&
        workers[i].forceExited == old(workers[i].forceExited)
    {
      for i := 0 to maxWorkers
        invariant Valid() && workers == old(workers)
        invariant forall j :: 0 <= j < i ==>
          workers[j].closed && workers[j].request == Some(ExitRequest) &&
          workers[j].posts == old(workers[j].posts) + [ExitPost(EXIT_THREAD, false)] &&
          workers[j].forceExited == old(workers[j].forceExited)
        invariant forall j :: i <= j < maxWorkers ==> unchanged(workers[j])
      {
        workers[i].RequestExit();
      }
    }

    /** The timers of `end`: the workers whose grace period ran out are forced to exit. */
    method ForceExits(forced: seq<bool>)
      requires Valid() && |forced| == maxWorkers
      modifies Threads()
      ensures Valid() && workers == old(workers)
      ensures forall i :: 0 <= i < maxWorkers ==>
        workers[i].closed == (old(workers[i].closed) || forced[i]) &&
        workers[i].request == old(workers[i].request) && workers[i].posts == old(workers[i].posts) &&
        workers[i].forceExited == (old(workers[i].forceExited) || forced[i])
    {
      for i := 0 to maxWorkers
        invariant Valid() && workers == old(workers)
        invariant forall j :: 0 <= j < i ==>
          workers[j].closed == (old(workers[j].closed) || forced[j]) &&
          workers[j].request == old(workers[j].request) && workers[j].posts == old(workers[j].posts) &&
          workers[j].forceExited == (old(workers[j].forceExited) || forced[j])
        invariant forall j :: i <= j < maxWorkers ==> unchanged(workers[j])
      {
        if forced[i] {
          workers[i].ForceExit();
        }
      }
    }

    /**
     * `end`: ask every worker to exit, then force the exit of those whose
     * grace period ran out (`forced[i]`, decided by the timers against each
     * worker's exit); the pool reports whether any exit had to be forced.
     */
    method End(forced: seq<bool>) returns (forceExited: bool)
      requires Valid() && |forced| == maxWorkers
      modifies Threads()
      ensures Valid() && workers == old(workers)
      ensures forceExited <==> exists i :: 0 <= i < |forced| && forced[i]
      ensures forall i :: 0 <= i < maxWorkers ==>
        workers[i].closed && workers[i].request == Some(ExitRequest) &&
        workers[i].posts == old(workers[i].posts) + [ExitPost(EXIT_THREAD, false)] &&
        workers[i].forceExited == (old(workers[i].forceExited) || forced[i])
    {
      RequestExits();
      ForceExits(forced);
      OrFoldAny(forced);
      forceExited := OrFold(forced);
    }
  }
}
