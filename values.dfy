/**
 * JavaScript values as the worker pool sees them.
 *
 * A value is either callable (`typeof v === 'function'`), an `Error`
 * instance, an ArrayBuffer view, or plain clonable data. Objects are
 * modelled twice: as a key-to-value `map` where only the keys matter, and as
 * the ordered result of `Object.entries` where the order matters.
 */
module Values {

  datatype Option<+T> = None | Some(value: T)

  datatype Value =
    | Undefined
    | Null
    | Bool(b: bool)
    | Num(n: int)
    | Str(s: string)
      /** A function value; `id` stands for its identity. */
    | Fn(id: nat)
      /** An `Error` instance with its own properties besides the three standard ones. */
    | Err(message: string, name: string, stack: Value, props: map<string, Value>)
      /** An ArrayBuffer view; `id` names the underlying buffer. */
    | Buffer(id: nat)
    | List(items: seq<Value>)
    | Obj(fields: map<string, Value>)

  /** The settlement of a promise. */
  datatype Outcome = Resolved(value: Value) | Rejected(error: Value)

  /** JavaScript truthiness (numbers are integers here, so NaN is not modelled). */
  predicate Truthy(v: Value) {
    match v
    case Undefined => false
    case Null => false
    case Bool(b) => b
    case Num(n) => n != 0
    case Str(s) => s != []
    case _ => true
  }

  /** The values `??` and `?.` treat as missing. */
  predicate Nullish(v: Value) {
    v.Undefined? || v.Null?
  }

  /** Property read `v[k]` on an object; anything else yields `undefined`. */
  function Field(v: Value, k: string): (r: Value)
    ensures !v.Obj? ==> r == Undefined
    ensures v.Obj? && k !in v.fields ==> r == Undefined
  {
    if v.Obj? && k in v.fields then v.fields[k] else Undefined
  }

  /** Property read on a key-to-value map. */
  function Get(m: map<string, Value>, k: string): Value {
    if k in m then m[k] else Undefined
  }

  /** The result of `Object.entries(o)`: own keys in insertion order. */
  type Entries = seq<(string, Value)>

  /** Own keys of an object are pairwise distinct. */
  predicate DistinctKeys(es: Entries) {
    forall i, j :: 0 <= i < j < |es| ==> es[i].0 != es[j].0
  }

  /** The object that assigning the entries in order builds (a later write wins). */
  function ToMap(es: Entries): (m: map<string, Value>)
    decreases |es|
  {
    if es == [] then map[] else ToMap(es[..|es| - 1])[es[|es| - 1].0 := es[|es| - 1].1]
  }

  /** The keys of `ToMap(es)` are exactly the keys that occur in `es`. */
  lemma {:induction false} ToMapKeys(es: Entries, k: string)
    ensures k in ToMap(es) <==> exists i :: 0 <= i < |es| && es[i].0 == k
    decreases |es|
  {
    if es != [] {
      var p := es[..|es| - 1];
      ToMapKeys(p, k);
      if k in ToMap(p) {
        var i :| 0 <= i < |p| && p[i].0 == k;
        assert es[i].0 == k;
      }
      if exists i :: 0 <= i < |es| && es[i].0 == k {
        var i :| 0 <= i < |es| && es[i].0 == k;
        if i < |p| { assert p[i].0 == k; }
      }
    }
  }

  /** With distinct keys, each entry's value is what the object holds under its key. */
  lemma {:induction false} ToMapAt(es: Entries, i: nat)
    requires DistinctKeys(es) && i < |es|
    ensures es[i].0 in ToMap(es) && ToMap(es)[es[i].0] == es[i].1
    decreases |es|
  {
    var p := es[..|es| - 1];
    if i < |p| {
      assert p[i] == es[i];
      ToMapAt(p, i);
    }
  }

  /** The entries of a prefix extended by one entry. */
  lemma ToMapSnoc(p: Entries, e: (string, Value))
    ensures ToMap(p + [e]) == ToMap(p)[e.0 := e.1]
  {
    assert (p + [e])[..|p|] == p;
  }
}
