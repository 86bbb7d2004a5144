/**
 * The older, comlink-based pool (src/threadPool.ts): the context is split
 * into clonable data plus a record of which keys held functions; tasks and
 * announced idle workers are paired in arrival order; settled runs are routed
 * to the task's resolve or reject after one more availability probe.
 *
 * The worker threads, comlink and rxjs are outside the model: what the remote
 * workers answer to `isAvailable` and how their runs settle are inputs.
 */
module ComlinkPool {
  import opened Values

  /** `new Array(len)`: a number is a length (a negative one throws), anything else a one-element array. */
  function NewArrayLength(len: Value): (r: Option<nat>)
    ensures len.Num? && len.n >= 0 ==> r == Some(len.n)
    ensures len.Num? && len.n < 0 ==> r == None
    ensures !len.Num? ==> r == Some(1)
  {
    if len.Num? then (if len.n >= 0 then Some(len.n) else None) else Some(1)
  }

  /** The default parameter of `createPool`. */
  const DefaultOptions: Value := Obj(map["maxWorkers" := Num(4)])

  /**
   * How many workers `createPool(options)` starts: the default parameter
   * stands in for `undefined`, `null` makes the property read throw, and
   * any other value's own `maxWorkers` (absent on a primitive) is the length
   * of the array the workers are mapped from. `None` is a thrown error.
   */
  function WorkerCount(options: Value): (r: Option<nat>)
    ensures options.Undefined? ==> r == Some(4)
    ensures options.Null? ==> r == None
    ensures !Nullish(options) ==> r == NewArrayLength(Field(options, "maxWorkers"))
  {
    if options.Undefined? then NewArrayLength(Field(DefaultOptions, "maxWorkers"))
    else if options.Null? then None
    else NewArrayLength(Field(options, "maxWorkers"))
  }

  /** A primitive has no `maxWorkers`, so passing the count itself yields a single worker. */
  lemma CountGivesOneWorker(n: int)
    ensures WorkerCount(Num(n)) == Some(1)
  {
  }

  /** An options object asks for exactly the workers it names. */
  lemma OptionsObjectGivesCount(n: nat)
    ensures WorkerCount(Obj(map["maxWorkers" := Num(n)])) == Some(n)
  {
  }

  /** The two objects `runTask` builds: the data part (with `proxyFnKeys`) and the functions. */
  datatype Split = Split(context: map<string, Value>, proxyContext: map<string, Value>)

  /** The key under which the data part records the function keys. */
  const ProxyFnKeys: string := "proxyFnKeys"

  /**
   * The `reduce` over `Object.entries(context)` from `[{ proxyFnKeys: [] }, {}]`:
   * a function goes to the second object and its key is pushed onto the
   * first object's `proxyFnKeys` (skipped when that is nullish, a TypeError
   * when it is no array); anything else is written into the first object.
   * `None` is the TypeError, which rejects the task's promise.
   */
  function SplitContext(es: Entries): (r: Option<Split>)
    decreases |es|
  {
    if es == [] then Some(Split(map[ProxyFnKeys := List([])], map[]))
    else
      match SplitContext(es[..|es| - 1])
      case None => None
      case Some(acc) =>
        var e := es[|es| - 1];
        if e.1.Fn? then
          var keys := Get(acc.context, ProxyFnKeys);
          if Nullish(keys) then Some(acc.(proxyContext := acc.proxyContext[e.0 := e.1]))
          else if keys.List? then
            Some(Split(acc.context[ProxyFnKeys := List(keys.items + [Str(e.0)])], acc.proxyContext[e.0 := e.1]))
          else None
        else Some(acc.(context := acc.context[e.0 := e.1]))
  }

  /** The keys of the function-valued entries, in entry order. */
  function FnKeys(es: Entries): (ks: seq<string>)
    ensures forall i :: 0 <= i < |ks| ==> exists j :: 0 <= j < |es| && es[j].0 == ks[i] && es[j].1.Fn?
    decreases |es|
  {
    if es == [] then []
    else
      var p := FnKeys(es[..|es| - 1]);
      var e := es[|es| - 1];
      assert forall i :: 0 <= i < |p| ==> exists j :: 0 <= j < |es| - 1 && es[..|es| - 1][j].0 == p[i] && es[j].1.Fn?;
      if e.1.Fn? then p + [e.0] else p
  }

  /** `proxyFnKeys` as the array of strings it holds. */
  function KeyList(ks: seq<string>): (v: seq<Value>)
    ensures |v| == |ks| && forall i :: 0 <= i < |ks| ==> v[i] == Str(ks[i])
  {
    seq(|ks|, i requires 0 <= i < |ks| => Str(ks[i]))
  }

  /** No entry is named like the bookkeeping key. */
  predicate NoReservedKey(es: Entries) {
    forall i :: 0 <= i < |es| ==> es[i].0 != ProxyFnKeys
  }

  /**
   * Without an entry named `proxyFnKeys`, the split succeeds; `proxyFnKeys`
   * lists the function keys in entry order; and every other key lands in
   * exactly one part with its value: a function in the proxy part, anything
   * else in the data part.
   */
  lemma {:induction false} SplitPartitions(es: Entries)
    requires DistinctKeys(es) && NoReservedKey(es)
    ensures SplitContext(es).Some?
    ensures var s, m := SplitContext(es).value, ToMap(es);
      && ProxyFnKeys in s.context && s.context[ProxyFnKeys] == List(KeyList(FnKeys(es)))
      && (forall k :: k != ProxyFnKeys ==> (k in s.context <==> k in m && !m[k].Fn?))
      && (forall k :: k in s.proxyContext <==> k in m && m[k].Fn?)
      && (forall k :: k in s.context && k != ProxyFnKeys ==> s.context[k] == m[k])
      && (forall k :: k in s.proxyContext ==> s.proxyContext[k] == m[k])
    decreases |es|
  {
    if es != [] {
      var p := es[..|es| - 1];
      var e := es[|es| - 1];
      assert DistinctKeys(p) && NoReservedKey(p) by {
        forall i | 0 <= i < |p| ensures p[i] == es[i] { }
      }
      SplitPartitions(p);
      ToMapSnoc(p, e);
      assert p + [e] == es;
      ToMapKeys(p, e.0);
      forall i | 0 <= i < |p| ensures p[i].0 != e.0 {
        assert es[i] == p[i];
      }
      if e.1.Fn? {
        assert KeyList(FnKeys(es)) == KeyList(FnKeys(p)) + [Str(e.0)];
      }
    }
  }

  /** The function keys are exactly the keys of the proxy part. */
  lemma FnKeysAreProxyKeys(es: Entries)
    requires DistinctKeys(es) && NoReservedKey(es)
    ensures SplitContext(es).Some?
    ensures forall k :: k in SplitContext(es).value.proxyContext <==> k in FnKeys(es)
  {
    SplitPartitions(es);
    forall k ensures k in FnKeys(es) <==> k in ToMap(es) && ToMap(es)[k].Fn? {
      ToMapKeys(es, k);
      if k in FnKeys(es) {
        var i :| 0 <= i < |FnKeys(es)| && FnKeys(es)[i] == k;
        var j :| 0 <= j < |es| && es[j].0 == k && es[j].1.Fn?;
        ToMapAt(es, j);
      }
      if k in ToMap(es) && ToMap(es)[k].Fn? {
        var j :| 0 <= j < |es| && es[j].0 == k;
        ToMapAt(es, j);
        FnKeysHas(es, j);
      }
    }
  }

  /** A function entry's key is among the function keys. */
  lemma {:induction false} FnKeysHas(es: Entries, j: nat)
    requires j < |es| && es[j].1.Fn?
    ensures es[j].0 in FnKeys(es)
    decreases |es|
  {
    if j < |es| - 1 {
      var p := es[..|es| - 1];
      assert p[j] == es[j];
      FnKeysHas(p, j);
    }
  }

  /** What the subscriber does with a settled run: `onError(err)` for a truthy error, else `onComplete(result)`. */
  function Delivered(o: Outcome): (d: Outcome)
    ensures d.Rejected? <==> o.Rejected? && Truthy(o.error)
    ensures o.Resolved? ==> d == o
    ensures o.Rejected? && Truthy(o.error) ==> d == o
    ensures o.Rejected? && !Truthy(o.error) ==> d == Resolved(Null)
  {
    match o
    case Resolved(v) => Resolved(v)
    case Rejected(e) => if Truthy(e) then Rejected(e) else Resolved(Null)
  }

  /** A task in the task queue: its id, the data part and the (proxied) function part. */
  datatype Task = Task(id: nat, context: map<string, Value>, proxyContext: map<string, Value>)

  /** A `worker.run(task.context, task.proxyContext)` that zip and the first `mergeMap` started. */
  datatype Run = Run(task: Task, worker: nat)

  /**
   * The queues of `zip`: the k-th run pairs the k-th submitted task with the
   * k-th announced worker, and what is left unpaired are the suffixes.
   */
  ghost predicate PairedQueues(size: nat, tasks: seq<Task>, idle: seq<nat>, submitted: seq<Task>, announced: seq<nat>, runs: seq<Run>) {
    && |runs| <= |submitted| && |runs| <= |announced|
    && tasks == submitted[|runs|..] && idle == announced[|runs|..]
    && (forall k :: 0 <= k < |runs| ==> runs[k] == Run(submitted[k], announced[k]))
    && (forall i :: 0 <= i < |announced| ==> announced[i] < size)
    && (forall i :: 0 <= i < |submitted| ==> submitted[i].id == i)
  }

  /** Submitting the next task keeps the queues paired. */
  lemma SubmitPaired(size: nat, tasks: seq<Task>, idle: seq<nat>, submitted: seq<Task>, announced: seq<nat>, runs: seq<Run>, task: Task)
    requires PairedQueues(size, tasks, idle, submitted, announced, runs) && task.id == |submitted|
    ensures PairedQueues(size, tasks + [task], idle, submitted + [task], announced, runs)
  {
    assert (submitted + [task])[|runs|..] == submitted[|runs|..] + [task];
    assert forall k :: 0 <= k < |submitted| ==> (submitted + [task])[k] == submitted[k];
  }

  /** Announcing a worker keeps the queues paired. */
  lemma AnnouncePaired(size: nat, tasks: seq<Task>, idle: seq<nat>, submitted: seq<Task>, announced: seq<nat>, runs: seq<Run>, w: nat)
    requires PairedQueues(size, tasks, idle, submitted, announced, runs) && w < size
    ensures PairedQueues(size, tasks, idle + [w], submitted, announced + [w], runs)
  {
    assert (announced + [w])[|runs|..] == announced[|runs|..] + [w];
    assert forall k :: 0 <= k < |announced| ==> (announced + [w])[k] == announced[k];
  }

  /** Pairing the two heads keeps the queues paired. */
  lemma ZipPaired(size: nat, tasks: seq<Task>, idle: seq<nat>, submitted: seq<Task>, announced: seq<nat>, runs: seq<Run>)
    requires PairedQueues(size, tasks, idle, submitted, announced, runs) && tasks != [] && idle != []
    ensures tasks[0] == submitted[|runs|] && idle[0] == announced[|runs|]
    ensures PairedQueues(size, tasks[1..], idle[1..], submitted, announced, runs + [Run(tasks[0], idle[0])])
  {
    assert submitted[|runs| + 1..] == submitted[|runs|..][1..];
    assert announced[|runs| + 1..] == announced[|runs|..][1..];
  }

  class ThreadPool {
    const size: nat
    /** Tasks and announced workers that `zip` holds unpaired. */
    var tasks: seq<Task>
    var idle: seq<nat>
    /** Everything ever pushed into `taskQueue` and `workerQueue`. */
    var submitted: seq<Task>
    var announced: seq<nat>
    var runs: seq<Run>
    /** Calls of a task's `onComplete` (resolved) or `onError` (rejected), by task id. */
    var deliveries: seq<(nat, Outcome)>
    var probes: nat
    var terminated: seq<nat>

    /** `zip` pairs the k-th task with the k-th announced worker and holds only one kind unpaired. */
    ghost predicate Paired()
      reads this
    {
      PairedQueues(size, tasks, idle, submitted, announced, runs)
    }

    /** Each task is delivered at most once, and only after its run was started. */
    ghost predicate DeliveredOnce()
      reads this
    {
      && (forall i :: 0 <= i < |deliveries| ==> deliveries[i].0 < |runs|)
      && (forall i, j :: 0 <= i < j < |deliveries| ==> deliveries[i].0 != deliveries[j].0)
    }

    /** The queues as `zip` leaves them: paired in order, at most one kind waiting. */
    ghost predicate Zipped()
      reads this
    {
      Paired() && DeliveredOnce() && (tasks == [] || idle == [])
    }

    /** Each probe announces at most one worker. */
    ghost predicate Probed()
      reads this
    {
      Zipped() && |announced| <= probes
    }

    /** The probes are the kick-off and one per settled run. */
    ghost predicate Valid()
      reads this
    {
      Probed() && probes == |deliveries| + 1
    }

    /**
     * `createPool(options)` for an `options` that does not make it throw,
     * ending with the kick-off `pushAvailableWorker()`; `available[i]` is
     * worker `i`'s answer to that first probe.
     */
    constructor (options: Value, available: seq<bool>)
      requires WorkerCount(options).Some? && |available| == WorkerCount(options).value
      ensures Valid() && size == WorkerCount(options).value
      ensures tasks == [] && submitted == [] && runs == [] && deliveries == [] && probes == 1 && terminated == []
      ensures idle == announced && |announced| <= 1
      ensures announced == [] <==> forall i :: 0 <= i < size ==> !available[i]
      ensures announced != [] ==> available[announced[0]] && forall i :: 0 <= i < announced[0] ==> !available[i]
    {
      size := WorkerCount(options).value;
      tasks, idle, submitted, announced, runs := [], [], [], [], [];
      deliveries, probes, terminated := [], 0, [];
      new;
      var found := PushAvailableWorker(available);
    }

    /** `zip` emits the pair of the two heads, if both queues hold one. */
    method Pair()
      requires Paired() && DeliveredOnce() && (|tasks| <= 1 || |idle| <= 1)
      modifies this`tasks, this`idle, this`runs
      ensures Zipped()
      ensures old(tasks) != [] && old(idle) != [] ==>
        runs == old(runs) + [Run(old(tasks[0]), old(idle[0]))] && tasks == old(tasks[1..]) && idle == old(idle[1..])
      ensures old(tasks) == [] || old(idle) == [] ==> runs == old(runs) && tasks == old(tasks) && idle == old(idle)
    {
      if tasks != [] && idle != [] {
        ZipPaired(size, tasks, idle, submitted, announced, runs);
        runs := runs + [Run(tasks[0], idle[0])];
        tasks, idle := tasks[1..], idle[1..];
      }
    }

    /** The `for ... of workers` loop of `pushAvailableWorker`: the first worker that answers it is available. */
    method FirstAvailable(available: seq<bool>) returns (found: Option<nat>)
      requires |available| == size
      ensures found.None? <==> forall i :: 0 <= i < size ==> !available[i]
      ensures found.Some? ==>
        found.value < size && available[found.value] && forall i :: 0 <= i < found.value ==> !available[i]
    {
      var i := 0;
      while i < size && !available[i]
        invariant i <= size && forall j :: 0 <= j < i ==> !available[j]
      {
        i := i + 1;
      }
      found := if i < size then Some(i) else None;
    }

    /**
     * `pushAvailableWorker`: ask the workers in order whether they are
     * available (`available[i]` is worker `i`'s answer) and announce the
     * first that is, if any. It runs only at the kick-off and before each
     * delivery, which is why `Valid` does not survive a call on its own.
     */
    method PushAvailableWorker(available: seq<bool>) returns (found: Option<nat>)
      requires Probed() && |available| == size
      modifies this`tasks, this`idle, this`runs, this`announced, this`probes
      ensures Probed() && probes == old(probes) + 1
      ensures found.None? <==> forall i :: 0 <= i < size ==> !available[i]
      ensures found.Some? ==>
        found.value < size && available[found.value] && forall i :: 0 <= i < found.value ==> !available[i]
      ensures announced == old(announced) + (if found.Some? then [found.value] else [])
      ensures |runs| <= old(|runs|) + 1 && runs[..old(|runs|)] == old(runs)
    {
      found := FirstAvailable(available);
      probes := probes + 1;
      if found.Some? {
        AnnouncePaired(size, tasks, idle, submitted, announced, runs, found.value);
        announced := announced + [found.value];
        idle := idle + [found.value];
        Pair();
      }
    }

    /** `taskQueue.next(task)`: record the task and let `zip` pair it with a waiting worker. */
    method Next(task: Task)
      requires Valid() && task.id == |submitted|
      modifies this`tasks, this`idle, this`runs, this`submitted
      ensures Valid()
      ensures submitted == old(submitted) + [task]
      ensures old(idle) != [] ==> runs == old(runs) + [Run(task, old(idle[0]))]
      ensures old(idle) == [] ==> runs == old(runs)
    {
      SubmitPaired(size, tasks, idle, submitted, announced, runs, task);
      submitted := submitted + [task];
      tasks := tasks + [task];
      assert submitted == old(submitted) + [task];
      Pair();
    }

    /**
     * `runTask`: split the context and queue the task; `None` is a split
     * that threw, which rejects the promise before anything is queued.
     */
    method RunTask(es: Entries) returns (id: Option<nat>)
      requires Valid()
      modifies this`tasks, this`idle, this`runs, this`submitted
      ensures Valid()
      ensures SplitContext(es).None? ==> id.None? && submitted == old(submitted) && runs == old(runs)
      ensures SplitContext(es).Some? ==>
        && id == Some(old(|submitted|))
        && submitted == old(submitted) + [Task(old(|submitted|), SplitContext(es).value.context, SplitContext(es).value.proxyContext)]
        && (old(idle) != [] ==> runs == old(runs) + [Run(submitted[|submitted| - 1], old(idle[0]))])
        && (old(idle) == [] ==> runs == old(runs))
    {
      var s := SplitContext(es);
      if s.None? {
        return None;
      }
      var task := Task(|submitted|, s.value.context, s.value.proxyContext);
      Next(task);
      id := Some(task.id);
    }

    /**
     * Run `k` settles with `o`: the second `mergeMap` probes for an
     * available worker first, then the subscriber calls the task's
     * `onError` or `onComplete`.
     */
    method RunSettled(k: nat, o: Outcome, available: seq<bool>)
      requires Valid() && k < |runs| && |available| == size
      requires forall i :: 0 <= i < |deliveries| ==> deliveries[i].0 != runs[k].task.id
      modifies this`tasks, this`idle, this`runs, this`announced, this`probes, this`deliveries
      ensures Valid() && probes == old(probes) + 1
      ensures deliveries == old(deliveries) + [(old(runs[k].task.id), Delivered(o))]
    {
      var task := runs[k].task;
      var found := PushAvailableWorker(available);
      deliveries := deliveries + [(task.id, Delivered(o))];
    }

    /**
     * Runs are started only by announcements, and announcements only by the
     * kick-off probe and the probe before each delivery: however many
     * workers there are, at most one started run is still undelivered.
     */
    lemma OneRunInFlight()
      requires Valid()
      ensures |runs| <= |deliveries| + 1
    {
    }

    /** `complete`: terminate the workers one after another. */
    method Complete()
      modifies this`terminated
      ensures terminated == old(terminated) + seq(size, i => i)
    {
      for i := 0 to size
        invariant terminated == old(terminated) + seq(i, j => j)
      {
        terminated := terminated + [i];
      }
    }
  }
}
