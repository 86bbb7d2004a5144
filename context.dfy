/**
 * The rule every context-marshalling variant shares: drop six keys that are
 * never sent to a worker (src/utils/WorkerTaskLoaderContext.ts), replace
 * `loaders` by the loaders after the current one, and set `resource` to the
 * resource path followed by its query.
 */
module Context {
  import opened Values

  /** Keys a context loses before it crosses to a worker thread. */
  const OmittedKeys: set<string> := {"fs", "callback", "async", "_module", "_compilation", "_compiler"}

  /** `const { fs, callback, async, _module, _compilation, _compiler, ...rest } = context` */
  function Rest(ctx: Entries): (r: Entries)
    ensures forall i :: 0 <= i < |r| ==> r[i].0 !in OmittedKeys && r[i] in ctx
    decreases |ctx|
  {
    if ctx == [] then []
    else
      var p := Rest(ctx[..|ctx| - 1]);
      var e := ctx[|ctx| - 1];
      if e.0 in OmittedKeys then p else p + [e]
  }

  /** The rest object holds every key but the six, with its value. */
  lemma {:induction false} RestMap(ctx: Entries)
    ensures ToMap(Rest(ctx)) == ToMap(ctx) - OmittedKeys
    decreases |ctx|
  {
    if ctx != [] {
      var pre := ctx[..|ctx| - 1];
      var e := ctx[|ctx| - 1];
      RestMap(pre);
      if e.0 !in OmittedKeys {
        ToMapSnoc(Rest(pre), e);
      }
    }
  }

  /** Dropping keys keeps the remaining keys distinct. */
  lemma {:induction false} RestDistinct(ctx: Entries)
    requires DistinctKeys(ctx)
    ensures DistinctKeys(Rest(ctx))
    decreases |ctx|
  {
    if ctx != [] {
      var pre := ctx[..|ctx| - 1];
      var e := ctx[|ctx| - 1];
      RestDistinct(pre);
      var p := Rest(pre);
      if e.0 !in OmittedKeys {
        forall i | 0 <= i < |p| ensures p[i].0 != e.0 {
          var j :| 0 <= j < |pre| && pre[j] == p[i];
          assert ctx[j] == pre[j];
        }
      }
    }
  }

  /** The fields the `loader.LoaderContext` type guarantees and the rule reads. */
  predicate WellTyped(ctx: Entries) {
    var m := ToMap(ctx);
    && "loaders" in m && m["loaders"].List?
    && "loaderIndex" in m && m["loaderIndex"].Num?
    && "resourcePath" in m && m["resourcePath"].Str?
    && ("resourceQuery" in m ==> m["resourceQuery"].Str? || m["resourceQuery"].Undefined?)
  }

  /** Where `Array.prototype.slice(start)` starts on an array of length `len`. */
  function SliceStart(len: nat, start: int): (b: nat)
    ensures b <= len
    ensures 0 <= start <= len ==> b == start
    ensures start < 0 && len + start >= 0 ==> b == len + start
  {
    if start < 0 then (if len + start < 0 then 0 else len + start)
    else if start > len then len
    else start
  }

  /** `{ loader: l.path, options: l.options, ident: l.ident }` */
  function LoaderSpec(l: Value): Value {
    Obj(map["loader" := Field(l, "path"), "options" := Field(l, "options"), "ident" := Field(l, "ident")])
  }

  function LoadersOf(ctx: Entries): seq<Value>
    requires WellTyped(ctx)
  {
    ToMap(ctx)["loaders"].items
  }

  function LoaderIndexOf(ctx: Entries): int
    requires WellTyped(ctx)
  {
    ToMap(ctx)["loaderIndex"].n
  }

  /** `context.loaders.slice(context.loaderIndex + 1).map(...)` */
  function TransferLoaders(ctx: Entries): (r: seq<Value>)
    requires WellTyped(ctx)
    ensures var ls, idx := LoadersOf(ctx), LoaderIndexOf(ctx);
      0 <= idx < |ls| ==>
        |r| == |ls| - idx - 1 && forall i :: 0 <= i < |r| ==> r[i] == LoaderSpec(ls[idx + 1 + i])
    ensures LoaderIndexOf(ctx) + 1 >= |LoadersOf(ctx)| ==> r == []
    ensures LoaderIndexOf(ctx) == -1 ==>
      |r| == |LoadersOf(ctx)| && forall i :: 0 <= i < |r| ==> r[i] == LoaderSpec(LoadersOf(ctx)[i])
  {
    var ls := LoadersOf(ctx);
    var b := SliceStart(|ls|, LoaderIndexOf(ctx) + 1);
    seq(|ls| - b, i requires 0 <= i < |ls| - b => LoaderSpec(ls[b + i]))
  }

  /** `context.resourcePath + (context.resourceQuery || '')` */
  function Resource(ctx: Entries): (r: string)
    requires WellTyped(ctx)
    ensures var m := ToMap(ctx); var path := m["resourcePath"].s;
      && (("resourceQuery" in m && m["resourceQuery"].Str?) ==> r == path + m["resourceQuery"].s)
      && (("resourceQuery" !in m || m["resourceQuery"].Undefined?) ==> r == path)
  {
    var m := ToMap(ctx);
    var q := Get(m, "resourceQuery");
    m["resourcePath"].s + (if Truthy(q) then q.s else "")
  }

  /** The two augmented keys written over an object built from the context. */
  function Augment(o: map<string, Value>, ctx: Entries): (r: map<string, Value>)
    requires WellTyped(ctx)
    ensures r.Keys == o.Keys + {"loaders", "resource"}
    ensures r["loaders"] == List(TransferLoaders(ctx)) && r["resource"] == Str(Resource(ctx))
    ensures forall k :: k in o && k != "loaders" && k != "resource" ==> r[k] == o[k]
  {
    o["loaders" := List(TransferLoaders(ctx))]["resource" := Str(Resource(ctx))]
  }
}
