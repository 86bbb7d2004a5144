/**
 * The façade of the tag-protocol pool (src/threadPoolRedux.ts): it sizes the
 * pool, wires the scheduler's executor to the worker pool's `send`, allows one
 * `close`, keeps a single idle timer that ends the workers, and memoises one
 * pool per options object.
 */
module PoolFacade {
  import opened Values
  import opened Messages
  import opened Context
  import opened Queue
  import opened Threads
  import opened Pool

  /** `maxWorkers || Math.max(cpus().length - 1, 1)`, where `None` is an absent option. */
  function PoolSize(given: Option<int>, cpuCount: nat): (n: int)
    ensures given.Some? && given.value != 0 ==> n == given.value
    ensures (given.None? || given.value == 0) ==> n >= 1 && n == if cpuCount >= 2 then cpuCount - 1 else 1
  {
    if given.Some? && given.value != 0 then given.value
    else if cpuCount - 1 > 1 then cpuCount - 1 else 1
  }

  /** A scheduler step calls the executor at most once, and only ever appends to its record. */
  ghost predicate AtMostOneDispatch(before: seq<Dispatch>, after: seq<Dispatch>) {
    after == before || (|after| == |before| + 1 && after[..|before|] == before)
  }

  lemma PushDispatchesOnce(s0: Sched, s: Sched, t: nat, offset: nat)
    requires Shaped(s0) && t < |s0.processed| && Pushed(s0, s, t, offset)
    ensures AtMostOneDispatch(s0.dispatched, s.dispatched)
    ensures |s.dispatched| == |s0.dispatched| + 1 ==> s.dispatched[|s0.dispatched|].task == t
  {
    if s0.n > 0 {
      var c := FirstFree(s0.locks, offset, s0.n, 0);
      if c < s0.n {
        assert s.dispatched == s.(queue := s0.queue).dispatched;
      } else {
        assert s.dispatched == s.(queue := s0.queue).dispatched;
      }
    }
  }

  lemma ProcessDispatchesOnce(s: Sched, w: nat)
    requires Shaped(s) && w < s.n
    ensures AtMostOneDispatch(s.dispatched, ProcessOn(s, w).dispatched)
  {
  }

  datatype CloseResult = Ended(forceExited: bool) | AlreadyClosing

  class ThreadPool {
    const maxWorkers: nat
    const workerPool: WorkerPool
    const taskQueue: TaskQueue
    var closing: bool
    /** `clearId`: the last idle timer armed; it is kept after the timer fires. */
    var clearId: Option<nat>
    /** The idle timers armed and neither cleared nor fired yet. */
    var pending: set<nat>
    var nextTimer: nat
    /** How many times `workerPool.end` has been called. */
    var ends: nat

    ghost predicate Valid()
      reads this, workerPool, workerPool.Threads(), taskQueue
    {
      && workerPool.Valid() && taskQueue.Valid()
      && workerPool.maxWorkers == maxWorkers && taskQueue.maxWorkers == maxWorkers
      && (forall i :: 0 <= i < |taskQueue.contexts| ==> WellTyped(taskQueue.contexts[i]))
      && (forall id :: id in pending ==> clearId == Some(id))
      && (clearId.Some? ==> clearId.value < nextTimer)
    }

    /** At most one idle timer is pending. */
    lemma OneIdleTimer()
      requires Valid()
      ensures |pending| <= 1
    {
      if clearId.Some? && clearId.value in pending {
        assert pending == {clearId.value};
      } else {
        assert pending == {};
      }
    }

    /** The pool sizes both halves alike and arms the idle timer. */
    constructor (given: Option<int>, cpuCount: nat)
      requires given.Some? ==> given.value >= 0
      ensures Valid() && maxWorkers == PoolSize(given, cpuCount)
      ensures fresh(workerPool) && fresh(taskQueue)
      ensures !closing && pending == {0} && clearId == Some(0) && ends == 0
      ensures taskQueue.state.processed == [] && taskQueue.offset == 0
    {
      var n := PoolSize(given, cpuCount);
      maxWorkers := n;
      workerPool := new WorkerPool(n);
      taskQueue := new TaskQueue(n);
      closing := false;
      clearId, pending, nextTimer := None, {}, 0;
      ends := 0;
      new;
      ScheduleTimeout();
    }

    /** `scheduleTimeout`: clear the previous idle timer, if any, and arm a new one. */
    method ScheduleTimeout()
      requires Valid()
      modifies this`clearId, this`pending, this`nextTimer
      ensures Valid()
      ensures pending == old(pending) - (if old(clearId).Some? then {old(clearId).value} else {}) + {old(nextTimer)}
      ensures clearId == Some(old(nextTimer)) && nextTimer == old(nextTimer) + 1
    {
      if clearId.Some? {
        pending := pending - {clearId.value};
        clearId := None;
      }
      clearId := Some(nextTimer);
      pending := pending + {nextTimer};
      nextTimer := nextTimer + 1;
    }

    /** The executor call a scheduler step just made, if it made one: `workerPool.send`. */
    method Execute(before: nat)
      requires workerPool.Valid() && taskQueue.Valid() && workerPool.maxWorkers == maxWorkers
      requires taskQueue.maxWorkers == maxWorkers
      requires forall i :: 0 <= i < |taskQueue.contexts| ==> WellTyped(taskQueue.contexts[i])
      requires before <= |taskQueue.state.dispatched| <= before + 1
      modifies workerPool, workerPool.Threads()
      ensures workerPool.Valid()
      ensures |taskQueue.state.dispatched| == before ==> workerPool.workers == old(workerPool.workers)
      ensures |taskQueue.state.dispatched| == before + 1 ==>
        var d := taskQueue.state.dispatched[before];
        && workerPool.workers[d.worker].request == Some(taskQueue.Request(d.task))
        && workerPool.workers[d.worker].callback == Some(d.task)
        && !workerPool.workers[d.worker].closed
        && (old(workerPool.workers[d.worker].closed) ==> fresh(workerPool.workers[d.worker]))
    {
      if |taskQueue.state.dispatched| == before + 1 {
        var d := taskQueue.state.dispatched[before];
        var ok := workerPool.Send(d.worker, taskQueue.Request(d.task), d.task);
      }
    }

    /**
     * `runLoaderTask`: re-arm the idle timer, then queue the task; the first
     * free worker in rotation, if any, receives it through `send`.
     */
    method RunLoaderTask(ctx: Entries) returns (t: nat)
      requires Valid() && WellTyped(ctx)
      modifies this, workerPool, workerPool.Threads(), taskQueue
      ensures Valid()
      ensures pending == {old(nextTimer)} && closing == old(closing) && ends == old(ends)
      ensures t == old(|taskQueue.state.processed|) && taskQueue.contexts == old(taskQueue.contexts) + [ctx]
      ensures Pushed(AddTask(old(taskQueue.state)), taskQueue.state, t, old(taskQueue.offset))
      ensures |taskQueue.state.dispatched| <= old(|taskQueue.state.dispatched|) + 1
      ensures |taskQueue.state.dispatched| == old(|taskQueue.state.dispatched|) + 1 ==>
        var d := taskQueue.state.dispatched[old(|taskQueue.state.dispatched|)];
        && d.task == t
        && workerPool.workers[d.worker].request == Some(taskQueue.Request(t))
        && workerPool.workers[d.worker].callback == Some(t)
        && !workerPool.workers[d.worker].closed
    {
      ScheduleTimeout();
      var before := |taskQueue.state.dispatched|;
      t := Submit(ctx);
      Execute(before);
    }

    /** `runLoaderTask`'s `taskQueue.doWork`. */
    method Submit(ctx: Entries) returns (t: nat)
      requires Valid() && WellTyped(ctx)
      modifies taskQueue
      ensures Valid()
      ensures t == old(|taskQueue.state.processed|) && taskQueue.contexts == old(taskQueue.contexts) + [ctx]
      ensures Pushed(AddTask(old(taskQueue.state)), taskQueue.state, t, old(taskQueue.offset))
      ensures AtMostOneDispatch(old(taskQueue.state.dispatched), taskQueue.state.dispatched)
      ensures |taskQueue.state.dispatched| == old(|taskQueue.state.dispatched|) + 1 ==>
        taskQueue.state.dispatched[old(|taskQueue.state.dispatched|)].task == t
    {
      ghost var s0 := AddTask(taskQueue.state);
      t := taskQueue.DoWork(ctx);
      PushDispatchesOnce(s0, taskQueue.state, t, old(taskQueue.offset));
    }

    /**
     * The `onComplete` closure of worker `w`'s running task: the scheduler
     * settles it and may start the worker's next task through `send`.
     */
    method OnTaskComplete(w: nat, error: Value, result: Value)
      requires Valid() && w < maxWorkers && taskQueue.state.locks[w]
      modifies workerPool, workerPool.Threads(), taskQueue
      ensures Valid()
      ensures taskQueue.state == ProcessOn(Settle(old(taskQueue.state), w, TaskOutcome(error, result)), w)
      ensures |taskQueue.state.dispatched| == old(|taskQueue.state.dispatched|) + 1 ==>
        var d := taskQueue.state.dispatched[old(|taskQueue.state.dispatched|)];
        && d.worker == w
        && workerPool.workers[w].request == Some(taskQueue.Request(d.task))
        && workerPool.workers[w].callback == Some(d.task)
    {
      var before := |taskQueue.state.dispatched|;
      taskQueue.Complete(w, error, result);
      Execute(before);
    }

    /** `close`: the first call ends the workers; any later call throws and ends nothing. */
    method Close(forced: seq<bool>) returns (r: CloseResult)
      requires Valid() && |forced| == maxWorkers
      modifies this`closing, this`ends, workerPool.Threads()
      ensures Valid() && closing
      ensures old(closing) ==> r == AlreadyClosing && ends == old(ends)
      ensures !old(closing) ==>
        && ends == old(ends) + 1
        && (r == Ended(exists i :: 0 <= i < |forced| && forced[i]))
        && forall i :: 0 <= i < maxWorkers ==> workerPool.workers[i].closed
    {
      if closing {
        return AlreadyClosing;
      }
      closing := true;
      var f := workerPool.End(forced);
      ends := ends + 1;
      r := Ended(f);
    }

    /**
     * The idle timer fires: it ends the workers but does not set `closing`, so
     * a later task respawns workers through `send`.
     */
    method FireIdleTimer(id: nat, forced: seq<bool>)
      requires Valid() && id in pending && |forced| == maxWorkers
      modifies this`pending, this`ends, workerPool.Threads()
      ensures Valid()
      ensures pending == old(pending) - {id} && closing == old(closing) && ends == old(ends) + 1
      ensures forall i :: 0 <= i < maxWorkers ==> workerPool.workers[i].closed
    {
      pending := pending - {id};
      var f := workerPool.End(forced);
      ends := ends + 1;
    }
  }

  /** `createThreadPool`: `memoize` keyed by the options object's identity. */
  class PoolRegistry {
    var pools: map<nat, ThreadPool>

    constructor ()
      ensures pools == map[]
    {
      pools := map[];
    }

    method CreateThreadPool(options: nat, given: Option<int>, cpuCount: nat) returns (p: ThreadPool)
      requires given.Some? ==> given.value >= 0
      modifies this
      ensures options in old(pools) ==> p == old(pools)[options] && pools == old(pools)
      ensures options !in old(pools) ==>
        fresh(p) && p.Valid() && p.maxWorkers == PoolSize(given, cpuCount) && pools == old(pools)[options := p]
    {
      if options in pools {
        return pools[options];
      }
      p := new ThreadPool(given, cpuCount);
      pools := pools[options := p];
    }
  }
}
