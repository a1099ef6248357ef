/**
  The persistence codec: `serialize` turns a value tree into a JSON-safe envelope
  tree, `deserialize` turns an envelope tree back into a value tree.

  Both walks are asynchronous in the source and fan out over the children of an
  array or object with `Promise.all`. `Promise.all` settles with the children's
  results in index order, whatever order they complete in, and rejects if any
  child rejects; the walkers `SerializeItems`, `SerializeEntries`,
  `DeserializeItems` and `DeserializeEntries` model it as an order-preserving map
  that stops at the first failing child.
 */
module Serde {
  import opened Results
  import opened Trees

  /** The only part of a `Scope` the codec reads. */
  datatype Scope = Scope(password: Option<string>)

  /** The `options` argument of `serialize`. */
  datatype Options = Options(encrypt: Option<bool>)

  /** Errors a call can reject with. */
  datatype Error =
    | ConfigError(message: string)   // a secret met without a password
    | CodecError(reason: string)     // a rejection of `encrypt` or `decryptWithKey`, passed on unchanged
    | RangeError(message: string)    // `toISOString` on an Invalid Date

  const SERIALIZE_NO_PASSWORD: string := "Cannot serialize secret without password"
  const DESERIALIZE_NO_PASSWORD: string := "Cannot deserialize secret without password"
  const INVALID_TIME: string := "Invalid time value"

  /**
    The collaborators the codec calls but does not define: the password-based
    secret codec, `Date.prototype.toISOString`, and `new Date(x)` on a stored value
    (`None` for an Invalid Date).
   */
  datatype Env = Env(
    encrypt: (string, string) -> Result<string, string>,
    decryptWithKey: (string, string) -> Result<string, string>,
    toIsoString: int -> string,
    parseDate: Json -> Option<int>)

  /** `!!scope.password`: an absent or empty password is falsy. */
  predicate HasPassword(scope: Scope) {
    scope.password.Some? && scope.password.value != ""
  }

  /** `options?.encrypt !== false`: encryption is on unless switched off explicitly. */
  predicate Encrypts(options: Option<Options>) {
    !(options.Some? && options.value.encrypt == Some(false))
  }

  /**
    The `isType` guard: a non-null object exposing a `toJsonSchema` method. The
    source probes for `toJsonSchema` but then calls `toJSON()`; the model's
    `Schema` stands for an object having both and carries what `toJSON()` yields.
   */
  predicate IsType(v: Value) {
    IsObject(v) && v.Schema?
  }

  function SecretEnvelope(payload: string): Json {
    Json.Obj([Entry(SECRET_TAG, Json.Prim(Str(payload)))])
  }

  /** `serialize(scope, value, options)`: the cases are tried in the source's order. */
  function Serialize(scope: Scope, v: Value, options: Option<Options>, env: Env): (r: Result<Json, Error>)
    decreases v
    // scalars, and `null`, pass through unchanged; a scope yields `undefined`
    ensures v.Prim? ==> r == Ok(Json.Prim(v.p))
    ensures v.ScopeRef? ==> r == Ok(Json.Prim(Undefined))
    // an array becomes an array of the same length, element by element, in order
    ensures v.Arr? ==> (r.Ok? <==> forall i :: 0 <= i < |v.items| ==> Serialize(scope, v.items[i], options, env).Ok?)
    ensures v.Arr? && r.Ok? ==>
      && r.value.Arr? && |r.value.items| == |v.items|
      && forall i :: 0 <= i < |v.items| ==> r.value.items[i] == Serialize(scope, v.items[i], options, env).value
    // a plain object keeps exactly its keys, in order, each with its value's serialization
    ensures v.Obj? ==> (r.Ok? <==> forall i :: 0 <= i < |v.entries| ==> Serialize(scope, v.entries[i].value, options, env).Ok?)
    ensures v.Obj? && r.Ok? ==>
      && r.value.Obj? && |r.value.entries| == |v.entries|
      && forall i :: 0 <= i < |v.entries| ==>
           r.value.entries[i] == Entry(v.entries[i].key, Serialize(scope, v.entries[i].value, options, env).value)
    // a schema-capable object is stored as its exported descriptor
    ensures v.Schema? ==> r == Ok(Json.Obj([Entry(SCHEMA_TAG, v.exported)]))
    // a date is stored as its ISO string; an Invalid Date is a RangeError
    ensures v.Date? && v.time.Some? ==> r == Ok(Json.Obj([Entry(DATE_TAG, Json.Prim(Str(env.toIsoString(v.time.value))))]))
    ensures v.Date? && v.time.None? ==> r == Err(RangeError(INVALID_TIME))
    // a secret needs a password; the payload is the ciphertext unless encryption is switched off
    ensures v.Secret? && !HasPassword(scope) ==> r == Err(ConfigError(SERIALIZE_NO_PASSWORD))
    ensures v.Secret? && HasPassword(scope) && options == Some(Options(Some(false))) ==>
      r == Ok(SecretEnvelope(v.unencrypted))
    ensures v.Secret? && HasPassword(scope) && (options.None? || options.value.encrypt != Some(false)) ==>
      match env.encrypt(v.unencrypted, scope.password.value)
      case Ok(c) => r == Ok(SecretEnvelope(c))
      case Err(e) => r == Err(CodecError(e))
    // only secrets and Invalid Dates make a call fail; every Invalid Date does, and so does
    // every secret when there is no password
    ensures r.Err? ==> ContainsSecret(v) || ContainsInvalidDate(v)
    ensures !HasPassword(scope) && ContainsSecret(v) ==> r.Err?
    ensures ContainsInvalidDate(v) ==> r.Err?
    ensures !HasPassword(scope) && r.Err? ==>
      r.error == ConfigError(SERIALIZE_NO_PASSWORD) || r.error == RangeError(INVALID_TIME)
  {
    if v.Arr? then
      match SerializeItems(scope, v.items, options, env)
      case Ok(ys) => Ok(Json.Arr(ys))
      case Err(e) => Err(e)
    else if v.Secret? then
      if !HasPassword(scope) then Err(ConfigError(SERIALIZE_NO_PASSWORD))
      else if Encrypts(options) then
        match env.encrypt(v.unencrypted, scope.password.value)
        case Ok(c) => Ok(SecretEnvelope(c))
        case Err(e) => Err(CodecError(e))
      else Ok(SecretEnvelope(v.unencrypted))
    else if IsType(v) then
      Ok(Json.Obj([Entry(SCHEMA_TAG, v.exported)]))
    else if v.Date? then
      match v.time
      case None => Err(RangeError(INVALID_TIME))
      case Some(t) => Ok(Json.Obj([Entry(DATE_TAG, Json.Prim(Str(env.toIsoString(t))))]))
    else if v.ScopeRef? then
      Ok(Json.Prim(Undefined))
    else if IsObject(v) then
      match SerializeEntries(scope, v.entries, options, env)
      case Ok(es) => Ok(Json.Obj(es))
      case Err(e) => Err(e)
    else
      Ok(Json.Prim(v.p))
  }

  /** `Promise.all(value.map(v => serialize(scope, v, options)))`. */
  function SerializeItems(scope: Scope, xs: seq<Value>, options: Option<Options>, env: Env): (r: Result<seq<Json>, Error>)
    decreases xs
    ensures r.Ok? <==> forall i :: 0 <= i < |xs| ==> Serialize(scope, xs[i], options, env).Ok?
    ensures r.Ok? ==>
      && |r.value| == |xs|
      && forall i :: 0 <= i < |xs| ==> r.value[i] == Serialize(scope, xs[i], options, env).value
    ensures r.Err? ==>
      exists i :: 0 <= i < |xs| && Serialize(scope, xs[i], options, env) == Err(r.error) &&
        forall k :: 0 <= k < i ==> Serialize(scope, xs[k], options, env).Ok?
  {
    if xs == [] then Ok([])
    else
      match Serialize(scope, xs[0], options, env)
      case Err(e) => Err(e)
      case Ok(y) =>
        match SerializeItems(scope, xs[1..], options, env)
        case Err(e) => assert forall k :: 0 <= k < |xs| - 1 ==> xs[1..][k] == xs[k + 1]; Err(e)
        case Ok(ys) => Ok([y] + ys)
  }

  /** `Object.fromEntries(await Promise.all(Object.entries(value).map(...serialize...)))`. */
  function SerializeEntries(scope: Scope, es: seq<Entry<Value>>, options: Option<Options>, env: Env)
    : (r: Result<seq<Entry<Json>>, Error>)
    decreases es
    ensures r.Ok? <==> forall i :: 0 <= i < |es| ==> Serialize(scope, es[i].value, options, env).Ok?
    ensures r.Ok? ==>
      && |r.value| == |es|
      && forall i :: 0 <= i < |es| ==> r.value[i] == Entry(es[i].key, Serialize(scope, es[i].value, options, env).value)
    ensures r.Err? ==>
      exists i :: 0 <= i < |es| && Serialize(scope, es[i].value, options, env) == Err(r.error) &&
        forall k :: 0 <= k < i ==> Serialize(scope, es[k].value, options, env).Ok?
  {
    if es == [] then Ok([])
    else
      match Serialize(scope, es[0].value, options, env)
      case Err(e) => Err(e)
      case Ok(y) =>
        match SerializeEntries(scope, es[1..], options, env)
        case Err(e) => assert forall k :: 0 <= k < |es| - 1 ==> es[1..][k] == es[k + 1]; Err(e)
        case Ok(rest) => Ok([Entry(es[0].key, y)] + rest)
  }

  /** An object the deserializer unwraps instead of treating as a plain mapping. */
  predicate IsEnvelope(es: seq<Entry<Json>>) {
    StringAt(es, SECRET_TAG).Some? || HasKey(es, SCHEMA_TAG) || HasKey(es, DATE_TAG)
  }

  /**
    A `@secret` string is reached by the deserializer's walk: the walk enters arrays
    and plain mappings but never the contents of an envelope.
   */
  predicate ReachesSecret(j: Json) {
    match j
    case Prim(_) => false
    case Arr(xs) => exists i :: 0 <= i < |xs| && ReachesSecret(xs[i])
    case Obj(es) =>
      if StringAt(es, SECRET_TAG).Some? then true
      else if IsEnvelope(es) then false
      else exists i :: 0 <= i < |es| && ReachesSecret(es[i].value)
  }

  /** `deserialize(scope, value)`: the tags are tried in the source's order. */
  function Deserialize(scope: Scope, j: Json, env: Env): (r: Result<Value, Error>)
    decreases j
    // scalars pass through unchanged
    ensures j.Prim? ==> r == Ok(Value.Prim(j.p))
    // an array becomes an array of the same length, element by element, in order
    ensures j.Arr? ==> (r.Ok? <==> forall i :: 0 <= i < |j.items| ==> Deserialize(scope, j.items[i], env).Ok?)
    ensures j.Arr? && r.Ok? ==>
      && r.value.Arr? && |r.value.items| == |j.items|
      && forall i :: 0 <= i < |j.items| ==> r.value.items[i] == Deserialize(scope, j.items[i], env).value
    // an object that is no envelope keeps exactly its keys, in order
    ensures j.Obj? && !IsEnvelope(j.entries) ==>
      (r.Ok? <==> forall i :: 0 <= i < |j.entries| ==> Deserialize(scope, j.entries[i].value, env).Ok?)
    ensures j.Obj? && !IsEnvelope(j.entries) && r.Ok? ==>
      && r.value.Obj? && |r.value.entries| == |j.entries|
      && forall i :: 0 <= i < |j.entries| ==>
           r.value.entries[i] == Entry(j.entries[i].key, Deserialize(scope, j.entries[i].value, env).value)
    // no schema object and no scope is ever rebuilt
    ensures r.Ok? ==> DataOnly(r.value)
    // only a reached `@secret` string makes a call fail; without a password every one does
    ensures r.Err? ==> ReachesSecret(j)
    ensures !HasPassword(scope) ==> (r.Err? <==> ReachesSecret(j))
    ensures !HasPassword(scope) && r.Err? ==> r.error == ConfigError(DESERIALIZE_NO_PASSWORD)
  {
    if j.Arr? then
      match DeserializeItems(scope, j.items, env)
      case Ok(xs) => Ok(Value.Arr(xs))
      case Err(e) => Err(e)
    else if j.Obj? then
      var es := j.entries;
      if StringAt(es, SECRET_TAG).Some? then
        if !HasPassword(scope) then Err(ConfigError(DESERIALIZE_NO_PASSWORD))
        else
          match env.decryptWithKey(StringAt(es, SECRET_TAG).value, scope.password.value)
          case Ok(p) => Ok(Secret(p))
          case Err(e) => Err(CodecError(e))
      else if HasKey(es, SCHEMA_TAG) then
        Ok(FromJson(Lookup(es, SCHEMA_TAG).value))
      else if HasKey(es, DATE_TAG) then
        Ok(Date(env.parseDate(Lookup(es, DATE_TAG).value)))
      else
        match DeserializeEntries(scope, es, env)
        case Ok(vs) => Ok(Value.Obj(vs))
        case Err(e) => Err(e)
    else
      Ok(Value.Prim(j.p))
  }

  /** `Promise.all(value.map(item => deserialize(scope, item)))`. */
  function DeserializeItems(scope: Scope, xs: seq<Json>, env: Env): (r: Result<seq<Value>, Error>)
    decreases xs
    ensures r.Ok? <==> forall i :: 0 <= i < |xs| ==> Deserialize(scope, xs[i], env).Ok?
    ensures r.Ok? ==>
      && |r.value| == |xs|
      && forall i :: 0 <= i < |xs| ==> r.value[i] == Deserialize(scope, xs[i], env).value
    ensures r.Err? ==>
      exists i :: 0 <= i < |xs| && Deserialize(scope, xs[i], env) == Err(r.error) &&
        forall k :: 0 <= k < i ==> Deserialize(scope, xs[k], env).Ok?
  {
    if xs == [] then Ok([])
    else
      match Deserialize(scope, xs[0], env)
      case Err(e) => Err(e)
      case Ok(y) =>
        match DeserializeItems(scope, xs[1..], env)
        case Err(e) => assert forall k :: 0 <= k < |xs| - 1 ==> xs[1..][k] == xs[k + 1]; Err(e)
        case Ok(ys) => Ok([y] + ys)
  }

  /** `Object.fromEntries(await Promise.all(Object.entries(value).map(...deserialize...)))`. */
  function DeserializeEntries(scope: Scope, es: seq<Entry<Json>>, env: Env): (r: Result<seq<Entry<Value>>, Error>)
    decreases es
    ensures r.Ok? <==> forall i :: 0 <= i < |es| ==> Deserialize(scope, es[i].value, env).Ok?
    ensures r.Ok? ==>
      && |r.value| == |es|
      && forall i :: 0 <= i < |es| ==> r.value[i] == Entry(es[i].key, Deserialize(scope, es[i].value, env).value)
    ensures r.Err? ==>
      exists i :: 0 <= i < |es| && Deserialize(scope, es[i].value, env) == Err(r.error) &&
        forall k :: 0 <= k < i ==> Deserialize(scope, es[k].value, env).Ok?
  {
    if es == [] then Ok([])
    else
      match Deserialize(scope, es[0].value, env)
      case Err(e) => Err(e)
      case Ok(y) =>
        match DeserializeEntries(scope, es[1..], env)
        case Err(e) => assert forall k :: 0 <= k < |es| - 1 ==> es[1..][k] == es[k + 1]; Err(e)
        case Ok(rest) => Ok([Entry(es[0].key, y)] + rest)
  }
}
