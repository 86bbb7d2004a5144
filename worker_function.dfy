/**
 * The worker side of the comlink pool (src/workerFunction.ts): a runner that
 * is available while no run is in progress, and that rebuilds a loader
 * context from the data part and the proxied functions before handing it to
 * the loader runner.
 *
 * The loader runner, `fs` and comlink are outside the model: the runner's
 * settlement is an input, the `fs` module is a value given to the run, and a
 * proxied function is the function it proxies.
 */
module ComlinkWorker {
  import opened Values
  import opened ComlinkPool

  /** The options handed to the loader runner. */
  datatype RunOptions = RunOptions(
    /** `...loaderContext` apart from the two keys written over it, `readResource` and `context`. */
    spread: map<string, Value>,
    /** `loaderOptions.context` apart from its `resolve`, which is the wrapper below. */
    context: map<string, Value>,
    /** The function the `resolve` wrapper calls: the main thread's `resolve`. */
    resolveTarget: Value)

  /** The run context's fixed entries: `options.context`, the `fs` module, `webpack` and `parallelLoader`. */
  function BaseContext(loaderContext: map<string, Value>, fs: Value): (c: map<string, Value>)
    ensures c.Keys == {"options", "fs", "webpack", "parallelLoader"}
    ensures c["options"] == Obj(map["context" := Get(loaderContext, "optionsContext")])
    ensures c["fs"] == fs
    ensures c["webpack"] == Bool(true) && c["parallelLoader"] == Bool(true)
  {
    map["options" := Obj(map["context" := Get(loaderContext, "optionsContext")]),
        "fs" := fs, "webpack" := Bool(true), "parallelLoader" := Bool(true)]
  }

  /** The strings an array of keys holds. */
  function KeyStrings(keys: seq<Value>): (ks: set<string>)
    ensures forall k :: k in ks <==> Str(k) in keys
  {
    set i | 0 <= i < |keys| && keys[i].Str? :: keys[i].s
  }

  /** One more key string in the array is one more string in its set. */
  lemma KeyStringsSnoc(keys: seq<Value>, key: string)
    ensures KeyStrings(keys + [Str(key)]) == KeyStrings(keys) + {key}
  {
    assert forall k :: Str(k) in keys + [Str(key)] <==> Str(k) in keys || k == key;
  }

  /** After binding: each listed key holds the proxy's entry, every other key its earlier value. */
  ghost predicate Bound(base: map<string, Value>, keys: seq<Value>, proxy: map<string, Value>, c: map<string, Value>) {
    && c.Keys == base.Keys + KeyStrings(keys)
    && (forall k :: k in KeyStrings(keys) ==> c[k] == Get(proxy, k))
    && (forall k :: k in base && k !in KeyStrings(keys) ==> c[k] == base[k])
  }

  /** `loaderContext.proxyFnKeys.forEach(key => loaderOptions.context[key] = loaderProxyFnContext[key])` */
  method BindProxyKeys(base: map<string, Value>, keys: seq<Value>, proxy: map<string, Value>)
    returns (c: map<string, Value>)
    requires forall i :: 0 <= i < |keys| ==> keys[i].Str?
    ensures Bound(base, keys, proxy, c)
  {
    c := base;
    for i := 0 to |keys|
      invariant c.Keys == base.Keys + KeyStrings(keys[..i])
      invariant forall k :: k in KeyStrings(keys[..i]) ==> c[k] == Get(proxy, k)
      invariant forall k :: k in base && k !in KeyStrings(keys[..i]) ==> c[k] == base[k]
    {
      var key := keys[i].s;
      assert keys[..i + 1] == keys[..i] + [keys[i]];
      KeyStringsSnoc(keys[..i], key);
      c := c[key := Get(proxy, key)];
    }
    assert keys[..|keys|] == keys;
  }

  /**
   * The round trip of the comlink pool: after the main thread splits a
   * context and the worker binds `proxyFnKeys`, every function of the
   * original context other than `resolve` is back under its own key.
   */
  lemma FunctionsRebound(es: Entries, fs: Value, c: map<string, Value>, k: string)
    requires DistinctKeys(es) && NoReservedKey(es)
    requires SplitContext(es).Some?
    requires var s := SplitContext(es).value;
      Bound(BaseContext(s.context, fs), KeyList(FnKeys(es)), s.proxyContext, c)
    requires k in ToMap(es) && ToMap(es)[k].Fn?
    ensures k in c && c[k] == ToMap(es)[k]
  {
    SplitPartitions(es);
    FnKeysAreProxyKeys(es);
    assert Str(k) in KeyList(FnKeys(es)) by {
      var i :| 0 <= i < |FnKeys(es)| && FnKeys(es)[i] == k;
      assert KeyList(FnKeys(es))[i] == Str(k);
    }
  }

  /** The comlink-exposed `taskRunner` and its closure variable. */
  class TaskRunner {
    var isRunning: bool

    constructor ()
      ensures IsAvailable()
    {
      isRunning := false;
    }

    predicate IsAvailable()
      reads this
    {
      !isRunning
    }

    /**
     * `run` up to the call of the loader runner: mark the runner busy, then
     * build the loader options around the worker's `fs` module. `None` is the
     * TypeError of a `proxyFnKeys` that is no array, which rejects the run
     * and leaves the runner busy.
     */
    method Run(loaderContext: map<string, Value>, proxy: map<string, Value>, fs: Value) returns (opts: Option<RunOptions>)
      requires var keys := Get(loaderContext, ProxyFnKeys);
        keys.List? ==> forall i :: 0 <= i < |keys.items| ==> keys.items[i].Str?
      modifies this
      ensures isRunning && !IsAvailable()
      ensures opts.None? <==> !Get(loaderContext, ProxyFnKeys).List?
      ensures opts.Some? ==>
        && opts.value.spread.Keys == loaderContext.Keys - {"readResource", "context"}
        && (forall k :: k in loaderContext && k != "readResource" && k != "context" ==>
              opts.value.spread[k] == loaderContext[k])
        && "resolve" !in opts.value.context
        && opts.value.resolveTarget == Get(proxy, "resolve")
        && exists c :: Bound(BaseContext(loaderContext, fs), Get(loaderContext, ProxyFnKeys).items, proxy, c) &&
             opts.value.context == c - {"resolve"}
    {
      isRunning := true;
      var keys := Get(loaderContext, ProxyFnKeys);
      if !keys.List? {
        return None;
      }
      var c := BindProxyKeys(BaseContext(loaderContext, fs), keys.items, proxy);
      opts := Some(RunOptions(loaderContext - {"readResource", "context"}, c - {"resolve"}, Get(proxy, "resolve")));
    }

    /**
     * The loader runner settles: a result frees the runner and is the
     * result of `run`; a rejection rejects `run` and leaves the runner busy,
     * as there is no `finally`.
     */
    method RunnerSettled(o: Outcome) returns (r: Outcome)
      modifies this
      ensures r == o
      ensures o.Resolved? ==> IsAvailable()
      ensures o.Rejected? ==> isRunning == old(isRunning)
    {
      if o.Resolved? {
        isRunning := false;
      }
      r := o;
    }
  }

  /** What the `resolve` wrapper does with a call: the same context and request, and a proxy of the callback. */
  function ResolveCall(opts: RunOptions, context: Value, request: Value, callback: Value): (call: (Value, seq<Value>))
    ensures call.0 == opts.resolveTarget && |call.1| == 3
    ensures call.1[0] == context && call.1[1] == request && call.1[2] == callback
  {
    (opts.resolveTarget, [context, request, callback])
  }
}
