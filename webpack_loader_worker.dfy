/**
 * The loader entry point (src/webpackLoaderWorker.ts): a process-wide count
 * of finished compilers that tears the pool down once every registered
 * compiler is done, the context the loader hands to the comlink pool, and
 * how the pool's answer reaches webpack's asynchronous callback.
 */
module LoaderWorker {
  import opened Values
  import opened Context
  import opened ComlinkPool
  import opened ComlinkWorker

  /**
   * `registerAllCompilerDoneEvent`'s closure: the compilers seen, one done
   * hook per compiler (holding the teardown of the pool of the run that
   * registered it), and the number of done events so far.
   */
  class CompilerDoneRegistry {
    var compilerSet: set<nat>
    var hooks: map<nat, nat>
    var doneCount: nat

    ghost predicate Valid()
      reads this
    {
      hooks.Keys == compilerSet
    }

    constructor ()
      ensures Valid() && compilerSet == {} && doneCount == 0
    {
      compilerSet, hooks, doneCount := {}, map[], 0;
    }

    /** A compiler already seen is left alone; a new one joins the set and gets a done hook with `pool`'s teardown. */
    method Register(compiler: nat, pool: nat)
      requires Valid()
      modifies this
      ensures Valid() && doneCount == old(doneCount)
      ensures compiler in old(compilerSet) ==> compilerSet == old(compilerSet) && hooks == old(hooks)
      ensures compiler !in old(compilerSet) ==>
        compilerSet == old(compilerSet) + {compiler} && hooks == old(hooks)[compiler := pool]
    {
      if compiler in compilerSet {
        return;
      }
      compilerSet := compilerSet + {compiler};
      hooks := hooks[compiler := pool];
    }

    /** A compiler's done hook: count the event; the event that makes the count reach the set's size tears down. */
    method OnDone(compiler: nat) returns (teardown: Option<nat>)
      requires Valid() && compiler in compilerSet
      modifies this`doneCount
      ensures Valid() && doneCount == old(doneCount) + 1
      ensures teardown.Some? <==> doneCount == |compilerSet|
      ensures teardown.Some? ==> teardown.value == hooks[compiler]
    {
      doneCount := doneCount + 1;
      if doneCount == |compilerSet| {
        return Some(hooks[compiler]);
      }
      return None;
    }
  }

  /** `o[k] = v` on the object `Object.entries` would list as `es`: in place when present, else at the end. */
  function Assign(es: Entries, k: string, v: Value): (r: Entries)
    ensures forall i :: 0 <= i < |r| ==> r[i].0 == k || r[i] in es
    ensures DistinctKeys(es) ==> DistinctKeys(r)
  {
    if exists i :: 0 <= i < |es| && es[i].0 == k then
      seq(|es|, i requires 0 <= i < |es| => if es[i].0 == k then (k, v) else es[i])
    else es + [(k, v)]
  }

  lemma {:induction false} ReplaceMap(es: Entries, k: string, v: Value)
    ensures var r := seq(|es|, i requires 0 <= i < |es| => if es[i].0 == k then (k, v) else es[i]);
      ToMap(r) == if k in ToMap(es) then ToMap(es)[k := v] else ToMap(es)
    decreases |es|
  {
    if es != [] {
      var p := es[..|es| - 1];
      var r := seq(|es|, i requires 0 <= i < |es| => if es[i].0 == k then (k, v) else es[i]);
      var rp := seq(|p|, i requires 0 <= i < |p| => if p[i].0 == k then (k, v) else p[i]);
      assert r[..|es| - 1] == rp;
      ReplaceMap(p, k, v);
    }
  }

  /** Assigning a key writes that key and leaves the rest of the object alone. */
  lemma AssignMap(es: Entries, k: string, v: Value)
    ensures ToMap(Assign(es, k, v)) == ToMap(es)[k := v]
  {
    ToMapKeys(es, k);
    if exists i :: 0 <= i < |es| && es[i].0 == k {
      ReplaceMap(es, k, v);
    } else {
      ToMapSnoc(es, (k, v));
    }
  }

  /**
   * The local `buildWorkerLoaderContext`: the rest of the context after the
   * six omitted keys, with `loaders` and `resource` assigned.
   */
  function BuildLoaderContext(ctx: Entries): (r: Entries)
    requires WellTyped(ctx)
  {
    Assign(Assign(Rest(ctx), "loaders", List(TransferLoaders(ctx))), "resource", Str(Resource(ctx)))
  }

  /**
   * It keeps every entry but the six omitted keys, functions included, and
   * applies the shared `loaders` and `resource` rule.
   */
  lemma BuildLoaderContextMap(ctx: Entries)
    requires WellTyped(ctx)
    ensures ToMap(BuildLoaderContext(ctx)) == Augment(ToMap(ctx) - OmittedKeys, ctx)
  {
    RestMap(ctx);
    AssignMap(Rest(ctx), "loaders", List(TransferLoaders(ctx)));
    AssignMap(Assign(Rest(ctx), "loaders", List(TransferLoaders(ctx))), "resource", Str(Resource(ctx)));
  }

  /** An object's own keys stay distinct, and no key is invented besides the two assigned ones. */
  lemma BuildLoaderContextKeys(ctx: Entries)
    requires WellTyped(ctx) && DistinctKeys(ctx)
    ensures DistinctKeys(BuildLoaderContext(ctx))
    ensures NoReservedKey(ctx) ==> NoReservedKey(BuildLoaderContext(ctx))
  {
    RestDistinct(ctx);
    var a := Assign(Rest(ctx), "loaders", List(TransferLoaders(ctx)));
    var b := BuildLoaderContext(ctx);
    if NoReservedKey(ctx) {
      forall i | 0 <= i < |b| ensures b[i].0 != ProxyFnKeys {
        if b[i].0 != "resource" {
          assert b[i] in a;
          var j :| 0 <= j < |a| && a[j] == b[i];
          if a[j].0 != "loaders" {
            assert a[j] in Rest(ctx);
          }
        }
      }
    }
  }

  /**
   * End to end on the comlink path: a function of the webpack loader context
   * (other than the six omitted keys, `resource` and `resolve`) is, in the
   * worker's rebuilt context, the same function under the same key.
   */
  lemma WorkerSeesLoaderFunctions(ctx: Entries, fs: Value, c: map<string, Value>, k: string)
    requires WellTyped(ctx) && DistinctKeys(ctx) && NoReservedKey(ctx)
    requires k in ToMap(ctx) && ToMap(ctx)[k].Fn? && k !in OmittedKeys && k != "resource"
    requires SplitContext(BuildLoaderContext(ctx)).Some?
    requires var s := SplitContext(BuildLoaderContext(ctx)).value;
      Bound(BaseContext(s.context, fs), KeyList(FnKeys(BuildLoaderContext(ctx))), s.proxyContext, c)
    ensures k in c && c[k] == ToMap(ctx)[k]
  {
    BuildLoaderContextMap(ctx);
    BuildLoaderContextKeys(ctx);
    FunctionsRebound(BuildLoaderContext(ctx), fs, c, k);
  }

  /** Splitting the loader's context never throws when no key is named `proxyFnKeys`. */
  lemma LoaderContextSplits(ctx: Entries)
    requires WellTyped(ctx) && DistinctKeys(ctx) && NoReservedKey(ctx)
    ensures SplitContext(BuildLoaderContext(ctx)).Some?
  {
    BuildLoaderContextKeys(ctx);
    SplitPartitions(BuildLoaderContext(ctx));
  }

  /** `const { maxWorkers } = loaderUtils.getOptions(this) ?? {}` */
  function MaxWorkersOption(options: Value): (m: Value)
    ensures Nullish(options) ==> m == Undefined
    ensures options.Obj? ==> m == Get(options.fields, "maxWorkers")
  {
    Field(if Nullish(options) then Obj(map[]) else options, "maxWorkers")
  }

  /** The argument `createPool` receives as written: the configured count itself. */
  function PoolArgumentAsWritten(maxWorkers: Value): Value {
    maxWorkers
  }

  /** A configured count of 8 starts a single worker, as a number has no `maxWorkers`. */
  lemma ConfiguredCountIgnored()
    ensures WorkerCount(PoolArgumentAsWritten(MaxWorkersOption(Obj(map["maxWorkers" := Num(8)])))) == Some(1)
  {
  }

  /** The evidently intended argument: an options object when a count is configured, the default otherwise. */
  function PoolArgument(maxWorkers: Value): (a: Value)
    ensures maxWorkers.Undefined? ==> a.Undefined?
    ensures !maxWorkers.Undefined? ==> a == Obj(map["maxWorkers" := maxWorkers])
  {
    if maxWorkers.Undefined? then Undefined else Obj(map["maxWorkers" := maxWorkers])
  }

  /** With it, the pool has the configured number of workers, and four when none is configured. */
  lemma ConfiguredCountHonoured(n: nat, options: Value)
    requires Nullish(options) || (options.Obj? && "maxWorkers" !in options.fields)
    ensures WorkerCount(PoolArgument(MaxWorkersOption(Obj(map["maxWorkers" := Num(n)])))) == Some(n)
    ensures WorkerCount(PoolArgument(MaxWorkersOption(options))) == Some(4)
  {
  }

  /** How a loader run starts: refused before any pool exists, or a pool argument and the context to queue. */
  datatype Start = Refused(error: Value) | Started(poolArgument: Value, context: Entries)

  /** The message of the error thrown when `worker_threads` is not available. */
  const DisabledMessage: string := "Cannot initialize loader, ensure worker_threads is enabled"

  /** The entry up to `pool.runTask` (with the intended pool argument): the worker check comes first. */
  function StartLoader(enabled: bool, options: Value, ctx: Entries): (s: Start)
    requires WellTyped(ctx)
    ensures !enabled ==> s == Refused(Err(DisabledMessage, "Error", Undefined, map[]))
    ensures enabled ==> s.Started? && s.context == BuildLoaderContext(ctx)
    ensures enabled ==> (WorkerCount(s.poolArgument) ==
      if MaxWorkersOption(options).Undefined? then Some(4) else NewArrayLength(MaxWorkersOption(options)))
  {
    if !enabled then Refused(Err(DisabledMessage, "Error", Undefined, map[]))
    else Started(PoolArgument(MaxWorkersOption(options)), BuildLoaderContext(ctx))
  }

  /** The members of the object `createPool` returns. */
  const PoolMembers: set<string> := {"complete", "runTask"}

  /** `pool[name]()`: a member is called; a missing one is `undefined`, and calling it throws. */
  function CallPoolMember(name: string): (r: Option<string>)
    ensures r.Some? <==> name in PoolMembers
    ensures r.Some? ==> r.value == name
  {
    if name in PoolMembers then Some(name) else None
  }

  /** The teardown the done hook runs as written: `pool.dispose()`. */
  function TeardownAsWritten(): Option<string> {
    CallPoolMember("dispose")
  }

  /** The pool has no `dispose`, so the teardown throws instead of stopping the workers. */
  lemma TeardownThrows()
    ensures TeardownAsWritten().None?
  {
  }

  /** The evidently intended teardown: `pool.complete()`, which terminates every worker. */
  function Teardown(): (r: Option<string>)
    ensures r == Some("complete")
  {
    CallPoolMember("complete")
  }

  /**
   * The done hook's teardown run on the pool it captured: the corrected
   * call resolves to `complete`, so every worker of that pool is terminated.
   */
  method RunTeardown(pool: ThreadPool) returns (r: Option<string>)
    modifies pool`terminated
    ensures r == Teardown() && r.Some?
    ensures pool.terminated == old(pool.terminated) + seq(pool.size, i => i)
    ensures forall w :: 0 <= w < pool.size ==> w in pool.terminated
  {
    r := Teardown();
    pool.Complete();
    forall w | 0 <= w < pool.size ensures w in pool.terminated {
      assert pool.terminated[|old(pool.terminated)| + w] == w;
    }
  }

  /** An error the engine throws; its message is engine-specific and not modelled. */
  const EngineTypeError: Value := Err("", "TypeError", Undefined, map[])

  /**
   * `(list ?? []).forEach(...)`: the elements visited in order, or `None`
   * when `forEach` throws. An ArrayBuffer view is excluded: a typed array
   * would be iterated and a `DataView` would throw, and `Buffer` does not
   * tell them apart.
   */
  function DependencyList(v: Value): (r: Option<seq<Value>>)
    requires !v.Buffer?
    ensures Nullish(v) ==> r == Some([])
    ensures v.List? ==> r == Some(v.items)
    ensures !Nullish(v) && !v.List? ==> r.None?
  {
    if Nullish(v) then Some([]) else if v.List? then Some(v.items) else None
  }

  /** `...result` in an argument list: an array's elements, a string's characters; other values are not iterable. */
  function SpreadArgs(v: Value): (r: Option<seq<Value>>)
    requires !v.Buffer?
    ensures v.List? ==> r == Some(v.items)
    ensures v.Str? ==> r.Some? && |r.value| == |v.s| && forall i :: 0 <= i < |v.s| ==> r.value[i] == Str([v.s[i]])
    ensures !v.List? && !v.Str? ==> r.None?
  {
    if v.List? then Some(v.items)
    else if v.Str? then Some(seq(|v.s|, i requires 0 <= i < |v.s| => Str([v.s[i]])))
    else None
  }

  /** Whether webpack's callback was called, and with what. */
  datatype Completion = Stalled | Called(args: seq<Value>)

  /** What the loader does with the task's settlement: dependencies it adds, and the callback. */
  datatype LoaderEffect = LoaderEffect(fileDependencies: seq<Value>, contextDependencies: seq<Value>, completion: Completion)

  /** A task result none of whose three read parts is an ArrayBuffer view. */
  predicate NoBufferParts(task: Outcome) {
    task.Resolved? ==>
      && !Field(task.value, "result").Buffer?
      && !Field(task.value, "fileDependencies").Buffer?
      && !Field(task.value, "contextDependencies").Buffer?
  }

  /**
   * The part of `webpackLoaderWorker` after `await pool.runTask(taskContext)`.
   * An error thrown in the `try`, or a rejected task, is passed to the callback.
   */
  function ForwardResult(task: Outcome): (e: LoaderEffect)
    requires NoBufferParts(task)
  {
    match task
    case Rejected(err) => LoaderEffect([], [], Called([err]))
    case Resolved(v) =>
      if !Truthy(v) then LoaderEffect([], [], Stalled)
      else
        match DependencyList(Field(v, "fileDependencies"))
        case None => LoaderEffect([], [], Called([EngineTypeError]))
        case Some(files) =>
          match DependencyList(Field(v, "contextDependencies"))
          case None => LoaderEffect(files, [], Called([EngineTypeError]))
          case Some(dirs) =>
            var result := Field(v, "result");
            if !Truthy(result) then LoaderEffect(files, dirs, Called([Null, Undefined]))
            else
              match SpreadArgs(result)
              case None => LoaderEffect(files, dirs, Called([EngineTypeError]))
              case Some(args) => LoaderEffect(files, dirs, Called([Null] + args))
  }

  /**
   * A result object with dependency lists and a result array: every
   * dependency is added in order, and the callback gets `null` followed by
   * the result's elements.
   */
  lemma ResultReachesWebpack(files: seq<Value>, dirs: seq<Value>, result: seq<Value>, rest: map<string, Value>)
    ensures var v := Obj(rest["fileDependencies" := List(files)]["contextDependencies" := List(dirs)]["result" := List(result)]);
      ForwardResult(Resolved(v)) == LoaderEffect(files, dirs, Called([Null] + result))
  {
  }

  /** Missing dependency lists count as empty, and a missing result is passed on as `undefined`. */
  lemma MissingPartsDefault(rest: map<string, Value>)
    requires "fileDependencies" !in rest && "contextDependencies" !in rest && "result" !in rest
    ensures ForwardResult(Resolved(Obj(rest))) == LoaderEffect([], [], Called([Null, Undefined]))
  {
  }

  /** A rejected task gives the callback exactly its error, and a falsy task result never calls it. */
  lemma FailuresAndStalls(err: Value, v: Value)
    requires !Truthy(v)
    ensures ForwardResult(Rejected(err)) == LoaderEffect([], [], Called([err]))
    ensures ForwardResult(Resolved(v)).completion == Stalled
  {
  }

  /** The callback, when called, always gets `null` first unless it gets a single error. */
  lemma CallbackShape(task: Outcome)
    requires NoBufferParts(task)
    ensures var c := ForwardResult(task).completion;
      c.Called? ==> |c.args| >= 1 && (|c.args| == 1 || c.args[0] == Null)
  {
  }
}
