/**
  The two trees the persistence codec converts between.

  A `Value` is an in-memory value as the serializer meets it: JavaScript scalars,
  arrays and plain objects, plus instances of the classes the codec recognises
  (`Secret`, an ArkType schema, `Date`, `Scope`). A `Json` is the JSON-safe
  envelope tree that is stored. Both represent a plain object as the sequence of
  its own enumerable string-keyed entries, in `Object.entries` order; the key
  sequence of any object the source builds has no repeated key.
 */
module Trees {
  import opened Results

  /** One own enumerable property of a plain object: an element of `Object.entries(value)`. */
  datatype Entry<+T> = Entry(key: string, value: T)

  /** Plain scalars: they pass through both walks unchanged. */
  datatype Prim = Undefined | Null | Bool(b: bool) | Num(n: real) | Str(s: string)

  /** The stored, JSON-compatible envelope tree. */
  datatype Json =
    | Prim(p: Prim)
    | Arr(items: seq<Json>)
    | Obj(entries: seq<Entry<Json>>)

  /** An in-memory value tree. */
  datatype Value =
    | Prim(p: Prim)
    | Arr(items: seq<Value>)
    | Obj(entries: seq<Entry<Value>>)
      /** A `Secret` instance; only its `unencrypted` payload is ever read. */
    | Secret(unencrypted: string)
      /** A schema-capable object, carrying the descriptor its `toJSON()` yields. */
    | Schema(exported: Json)
      /** A `Date` instance: milliseconds since the epoch, or `None` for an Invalid Date. */
    | Date(time: Option<int>)
      /** A `Scope` instance reachable from the tree. */
    | ScopeRef

  /** The reserved envelope keys of the wire format. */
  const SECRET_TAG: string := "@secret"
  const SCHEMA_TAG: string := "@schema"
  const DATE_TAG: string := "@date"

  predicate IsReserved(key: string) {
    key == SECRET_TAG || key == SCHEMA_TAG || key == DATE_TAG
  }

  /** `key in value` for a plain object. */
  predicate HasKey<T>(es: seq<Entry<T>>, key: string) {
    exists i :: 0 <= i < |es| && es[i].key == key
  }

  /** `value[key]` for a plain object: the value of the entry with that key, if any. */
  function Lookup<T>(es: seq<Entry<T>>, key: string): (r: Option<T>)
    ensures r.Some? <==> HasKey(es, key)
    ensures r.Some? ==> exists i :: 0 <= i < |es| && es[i] == Entry(key, r.value)
  {
    if es == [] then None
    else if es[0].key == key then Some(es[0].value)
    else
      var r := Lookup(es[1..], key);
      assert r.Some? ==> exists i :: 0 <= i < |es[1..]| && es[1..][i] == Entry(key, r.value);
      r
  }

  /** The payload of `value[key]` when `typeof value[key] === "string"`. */
  function StringAt(es: seq<Entry<Json>>, key: string): (r: Option<string>)
    ensures r.Some? ==> HasKey(es, key) && Lookup(es, key) == Some(Json.Prim(Str(r.value)))
  {
    var found := Lookup(es, key);
    if found.Some? && found.value.Prim? && found.value.p.Str? then Some(found.value.p.s) else None
  }

  /** `value && typeof value === "object"`: everything but the scalars (including null). */
  predicate IsObject(v: Value) {
    !v.Prim?
  }

  /** A `Secret` occurs somewhere the serializer walks. */
  predicate ContainsSecret(v: Value) {
    match v
    case Secret(_) => true
    case Arr(xs) => exists i :: 0 <= i < |xs| && ContainsSecret(xs[i])
    case Obj(es) => exists i :: 0 <= i < |es| && ContainsSecret(es[i].value)
    case _ => false
  }

  /** A `Date` occurs somewhere the serializer walks. */
  predicate ContainsDate(v: Value) {
    match v
    case Date(_) => true
    case Arr(xs) => exists i :: 0 <= i < |xs| && ContainsDate(xs[i])
    case Obj(es) => exists i :: 0 <= i < |es| && ContainsDate(es[i].value)
    case _ => false
  }

  /** An Invalid Date occurs somewhere the serializer walks. */
  predicate ContainsInvalidDate(v: Value) {
    match v
    case Date(t) => t.None?
    case Arr(xs) => exists i :: 0 <= i < |xs| && ContainsInvalidDate(xs[i])
    case Obj(es) => exists i :: 0 <= i < |es| && ContainsInvalidDate(es[i].value)
    case _ => false
  }

  /**
    A tree made only of scalars, arrays, plain objects, secrets and dates: no schema
    object and no scope anywhere. These are the values deserialization can produce.
   */
  predicate DataOnly(v: Value) {
    match v
    case Schema(_) => false
    case ScopeRef => false
    case Arr(xs) => forall i :: 0 <= i < |xs| ==> DataOnly(xs[i])
    case Obj(es) => forall i :: 0 <= i < |es| ==> DataOnly(es[i].value)
    case _ => true
  }

  /** No plain object anywhere in the tree uses a reserved envelope key. */
  predicate NoReservedKeys(v: Value) {
    match v
    case Arr(xs) => forall i :: 0 <= i < |xs| ==> NoReservedKeys(xs[i])
    case Obj(es) =>
      && (forall i :: 0 <= i < |es| ==> !IsReserved(es[i].key))
      && (forall i :: 0 <= i < |es| ==> NoReservedKeys(es[i].value))
    case _ => true
  }

  /** A tree of scalars, arrays and plain objects whose keys never include a reserved tag. */
  predicate IsPlain(v: Value) {
    DataOnly(v) && NoReservedKeys(v) && !ContainsSecret(v) && !ContainsDate(v)
  }

  /** No object anywhere in a stored tree uses a reserved envelope key. */
  predicate TagFree(j: Json) {
    match j
    case Prim(_) => true
    case Arr(xs) => forall i :: 0 <= i < |xs| ==> TagFree(xs[i])
    case Obj(es) =>
      && (forall i :: 0 <= i < |es| ==> !IsReserved(es[i].key))
      && (forall i :: 0 <= i < |es| ==> TagFree(es[i].value))
  }

  /** The stored tree read back as a `Value`: the same shape, with nothing unwrapped. */
  function FromJson(j: Json): (v: Value)
    ensures DataOnly(v) && !ContainsSecret(v) && !ContainsDate(v)
  {
    match j
    case Prim(p) => Value.Prim(p)
    case Arr(xs) => Value.Arr(seq(|xs|, i requires 0 <= i < |xs| => FromJson(xs[i])))
    case Obj(es) => Value.Obj(seq(|es|, i requires 0 <= i < |es| => Entry(es[i].key, FromJson(es[i].value))))
  }
}
