/**
 * `buildWorkerLoaderContext` (src/utils/buildWorkerLoaderContext.ts): the
 * context without its six omitted keys, split into a clonable data part and a
 * part holding the functions, with `loaders` and `resource` recomputed on the
 * data part.
 */
module ContextBuilder {
  import opened Values
  import opened Context

  datatype WorkerLoaderContext = WorkerLoaderContext(contextObject: map<string, Value>, contextFunctions: map<string, Value>)

  /** The `reduce` that writes each entry into `acc[0]` (not a function) or `acc[1]` (a function). */
  function Partition(es: Entries): (r: WorkerLoaderContext)
    ensures forall k :: k in r.contextObject ==> !r.contextObject[k].Fn?
    ensures forall k :: k in r.contextFunctions ==> r.contextFunctions[k].Fn?
    ensures r.contextObject.Keys + r.contextFunctions.Keys == ToMap(es).Keys
    decreases |es|
  {
    if es == [] then WorkerLoaderContext(map[], map[])
    else
      var acc := Partition(es[..|es| - 1]);
      var e := es[|es| - 1];
      if !e.1.Fn? then acc.(contextObject := acc.contextObject[e.0 := e.1])
      else acc.(contextFunctions := acc.contextFunctions[e.0 := e.1])
  }

  /** Each key of an object lands in exactly one part, with its value unchanged. */
  lemma {:induction false} PartitionSplits(es: Entries)
    requires DistinctKeys(es)
    ensures var r, m := Partition(es), ToMap(es);
      && r.contextObject.Keys !! r.contextFunctions.Keys
      && (forall k :: k in r.contextObject ==> r.contextObject[k] == m[k])
      && (forall k :: k in r.contextFunctions ==> r.contextFunctions[k] == m[k])
    decreases |es|
  {
    if es != [] {
      var pre := es[..|es| - 1];
      var e := es[|es| - 1];
      PartitionSplits(pre);
      ToMapKeys(pre, e.0);
      forall i | 0 <= i < |pre| ensures pre[i].0 != e.0 {
        assert es[i] == pre[i];
      }
    }
  }

  function BuildWorkerLoaderContext(ctx: Entries): (r: WorkerLoaderContext)
    requires WellTyped(ctx)
    ensures forall k :: k in r.contextFunctions ==> r.contextFunctions[k].Fn?
    ensures forall k :: k in r.contextObject ==> !r.contextObject[k].Fn?
    ensures OmittedKeys !! r.contextObject.Keys && OmittedKeys !! r.contextFunctions.Keys
    ensures "loaders" in r.contextObject && r.contextObject["loaders"] == List(TransferLoaders(ctx))
    ensures "resource" in r.contextObject && r.contextObject["resource"] == Str(Resource(ctx))
  {
    RestMap(ctx);
    var p := Partition(Rest(ctx));
    WorkerLoaderContext(Augment(p.contextObject, ctx), p.contextFunctions)
  }

  /**
   * Apart from `loaders` and `resource`, every key that is not omitted lands in
   * exactly one of the two parts, according to whether it holds a function,
   * with its value unchanged; and nothing else is in either part.
   */
  lemma BuildPartitions(ctx: Entries, k: string)
    requires WellTyped(ctx) && DistinctKeys(ctx)
    requires k != "loaders" && k != "resource"
    ensures var r, m := BuildWorkerLoaderContext(ctx), ToMap(ctx);
      && (k in r.contextObject <==> k in m && k !in OmittedKeys && !m[k].Fn?)
      && (k in r.contextFunctions <==> k in m && k !in OmittedKeys && m[k].Fn?)
      && (k in r.contextObject ==> r.contextObject[k] == m[k])
      && (k in r.contextFunctions ==> r.contextFunctions[k] == m[k])
  {
    RestMap(ctx);
    RestDistinct(ctx);
    PartitionSplits(Rest(ctx));
  }
}
