/**
  What the codec promises across calls: round trips, the encryption escape hatch,
  the one-way treatment of schemas and scopes, and the precedence of envelope tags.
 */
module SerdeProperties {
  import opened Results
  import opened Trees
  import opened Serde

  /** The secret codec's contract: decrypting a ciphertext with its key gives back the plaintext. */
  ghost predicate CodecRoundTrips(env: Env) {
    forall p, k :: env.encrypt(p, k).Ok? ==> env.decryptWithKey(env.encrypt(p, k).value, k) == Ok(p)
  }

  /** `new Date(d.toISOString())` is `d`, to the millisecond. */
  ghost predicate DatesRoundTrip(env: Env) {
    forall t :: env.parseDate(Json.Prim(Str(env.toIsoString(t)))) == Some(t)
  }

  /** Equal key sequences have the same keys. */
  lemma SameKeys<S, T>(a: seq<Entry<S>>, b: seq<Entry<T>>, key: string)
    requires |a| == |b| && forall i :: 0 <= i < |a| ==> a[i].key == b[i].key
    ensures HasKey(a, key) <==> HasKey(b, key)
  {
  }

  /**
    Round trip: a tree of scalars, arrays, plain mappings, secrets and dates, whose
    keys avoid the reserved tags, comes back unchanged from `deserialize` after
    `serialize`, provided secrets were encrypted with a codec that round-trips and
    dates are formatted and parsed consistently.
   */
  lemma {:induction false} RoundTrip(scope: Scope, v: Value, options: Option<Options>, env: Env)
    requires DataOnly(v) && NoReservedKeys(v)
    requires ContainsSecret(v) ==> Encrypts(options) && CodecRoundTrips(env)
    requires ContainsDate(v) ==> DatesRoundTrip(env)
    requires Serialize(scope, v, options, env).Ok?
    ensures Deserialize(scope, Serialize(scope, v, options, env).value, env) == Ok(v)
    decreases v, 1
  {
    var j := Serialize(scope, v, options, env).value;
    match v
    case Prim(_) =>
    case Arr(xs) => RoundTripArray(scope, xs, options, env);
    case Obj(es) => RoundTripMapping(scope, es, options, env);
    case Secret(s) =>
      assert j == SecretEnvelope(env.encrypt(s, scope.password.value).value);
      assert StringAt(j.entries, SECRET_TAG) == Some(env.encrypt(s, scope.password.value).value);
    case Date(t) =>
      assert StringAt(j.entries, SECRET_TAG).None?;
      assert !HasKey(j.entries, SCHEMA_TAG);
  }

  /** The array case of `RoundTrip`. */
  lemma {:induction false} RoundTripArray(scope: Scope, xs: seq<Value>, options: Option<Options>, env: Env)
    requires DataOnly(Value.Arr(xs)) && NoReservedKeys(Value.Arr(xs))
    requires ContainsSecret(Value.Arr(xs)) ==> Encrypts(options) && CodecRoundTrips(env)
    requires ContainsDate(Value.Arr(xs)) ==> DatesRoundTrip(env)
    requires Serialize(scope, Value.Arr(xs), options, env).Ok?
    ensures Deserialize(scope, Serialize(scope, Value.Arr(xs), options, env).value, env) == Ok(Value.Arr(xs))
    decreases Value.Arr(xs), 0
  {
    var j := Serialize(scope, Value.Arr(xs), options, env).value;
    forall i | 0 <= i < |xs|
      ensures Deserialize(scope, j.items[i], env) == Ok(xs[i])
    {
      assert ContainsSecret(xs[i]) ==> ContainsSecret(Value.Arr(xs));
      assert ContainsDate(xs[i]) ==> ContainsDate(Value.Arr(xs));
      RoundTrip(scope, xs[i], options, env);
    }
    assert Deserialize(scope, j, env).value.items == xs;
  }

  /** The mapping case of `RoundTrip`. */
  lemma {:induction false} RoundTripMapping(scope: Scope, es: seq<Entry<Value>>, options: Option<Options>, env: Env)
    requires DataOnly(Value.Obj(es)) && NoReservedKeys(Value.Obj(es))
    requires ContainsSecret(Value.Obj(es)) ==> Encrypts(options) && CodecRoundTrips(env)
    requires ContainsDate(Value.Obj(es)) ==> DatesRoundTrip(env)
    requires Serialize(scope, Value.Obj(es), options, env).Ok?
    ensures Deserialize(scope, Serialize(scope, Value.Obj(es), options, env).value, env) == Ok(Value.Obj(es))
    decreases Value.Obj(es), 0
  {
    var j := Serialize(scope, Value.Obj(es), options, env).value;
    SameKeys(j.entries, es, SECRET_TAG);
    SameKeys(j.entries, es, SCHEMA_TAG);
    SameKeys(j.entries, es, DATE_TAG);
    forall i | 0 <= i < |es|
      ensures Deserialize(scope, j.entries[i].value, env) == Ok(es[i].value)
    {
      assert ContainsSecret(es[i].value) ==> ContainsSecret(Value.Obj(es));
      assert ContainsDate(es[i].value) ==> ContainsDate(Value.Obj(es));
      RoundTrip(scope, es[i].value, options, env);
    }
    assert Deserialize(scope, j, env).value.entries == es;
  }

  /**
    A stored tree with no reserved key anywhere is plain data: deserializing it
    succeeds without a password and gives the same tree back.
   */
  lemma {:induction false} TagFreeIsVerbatim(scope: Scope, j: Json, env: Env)
    requires TagFree(j)
    ensures Deserialize(scope, j, env) == Ok(FromJson(j))
    decreases j
  {
    match j
    case Prim(_) =>
    case Arr(xs) =>
      forall i | 0 <= i < |xs| ensures Deserialize(scope, xs[i], env) == Ok(FromJson(xs[i])) {
        TagFreeIsVerbatim(scope, xs[i], env);
      }
      assert Deserialize(scope, j, env).value == FromJson(j);
    case Obj(es) =>
      assert !HasKey(es, SECRET_TAG) && !HasKey(es, SCHEMA_TAG) && !HasKey(es, DATE_TAG);
      forall i | 0 <= i < |es| ensures Deserialize(scope, es[i].value, env) == Ok(FromJson(es[i].value)) {
        TagFreeIsVerbatim(scope, es[i].value, env);
      }
      assert Deserialize(scope, j, env).value.entries == FromJson(j).entries;
  }

  /** A tree without dates holds no Invalid Date. */
  lemma {:induction false} NoInvalidDateInDateFree(v: Value)
    requires !ContainsDate(v)
    ensures !ContainsInvalidDate(v)
    decreases v
  {
    match v
    case Arr(xs) =>
      forall i | 0 <= i < |xs| ensures !ContainsInvalidDate(xs[i]) {
        assert !ContainsDate(xs[i]);
        NoInvalidDateInDateFree(xs[i]);
      }
    case Obj(es) =>
      forall i | 0 <= i < |es| ensures !ContainsInvalidDate(es[i].value) {
        assert !ContainsDate(es[i].value);
        NoInvalidDateInDateFree(es[i].value);
      }
    case _ =>
  }

  /**
    Plain round trip: a tree of scalars, arrays and mappings whose keys never
    include a reserved tag serializes without error, whatever the scope, options
    and collaborators, and deserializes back to itself.
   */
  lemma PlainRoundTrip(scope: Scope, v: Value, options: Option<Options>, env: Env)
    requires IsPlain(v)
    ensures Serialize(scope, v, options, env).Ok?
    ensures Deserialize(scope, Serialize(scope, v, options, env).value, env) == Ok(v)
  {
    NoInvalidDateInDateFree(v);
    RoundTrip(scope, v, options, env);
  }

  /**
    Secret round trip: with a password and encryption on, a serialized secret
    deserializes to a secret with the same payload.
   */
  lemma SecretRoundTrip(scope: Scope, s: string, options: Option<Options>, env: Env)
    requires HasPassword(scope) && Encrypts(options) && CodecRoundTrips(env)
    requires env.encrypt(s, scope.password.value).Ok?
    ensures Serialize(scope, Secret(s), options, env).Ok?
    ensures Deserialize(scope, Serialize(scope, Secret(s), options, env).value, env) == Ok(Secret(s))
  {
    RoundTrip(scope, Secret(s), options, env);
  }

  /**
    The escape hatch is not symmetric: with encryption off the plaintext is stored,
    but deserialization still decrypts it.
   */
  lemma PlaintextSecretIsDecrypted(scope: Scope, s: string, env: Env)
    requires HasPassword(scope)
    ensures var stored := Serialize(scope, Secret(s), Some(Options(Some(false))), env);
      && stored == Ok(SecretEnvelope(s))
      && Deserialize(scope, stored.value, env) ==
         match env.decryptWithKey(s, scope.password.value)
         case Ok(p) => Ok(Secret(p))
         case Err(e) => Err(CodecError(e))
  {
  }

  /**
    With encryption switched off, serialization never consults the secret codec:
    replacing `encrypt` by any other function gives the same result.
   */
  lemma {:induction false} EncryptOffIgnoresCodec(
    scope: Scope, v: Value, options: Option<Options>, env: Env,
    other: (string, string) -> Result<string, string>)
    requires !Encrypts(options)
    ensures Serialize(scope, v, options, env) == Serialize(scope, v, options, env.(encrypt := other))
    decreases v, 1
  {
    match v
    case Arr(xs) => EncryptOffIgnoresCodecItems(scope, xs, options, env, other);
    case Obj(es) => EncryptOffIgnoresCodecEntries(scope, es, options, env, other);
    case _ =>
  }

  lemma {:induction false} EncryptOffIgnoresCodecItems(
    scope: Scope, xs: seq<Value>, options: Option<Options>, env: Env,
    other: (string, string) -> Result<string, string>)
    requires !Encrypts(options)
    ensures SerializeItems(scope, xs, options, env) == SerializeItems(scope, xs, options, env.(encrypt := other))
    decreases xs, 0
  {
    if xs != [] {
      EncryptOffIgnoresCodec(scope, xs[0], options, env, other);
      EncryptOffIgnoresCodecItems(scope, xs[1..], options, env, other);
    }
  }

  lemma {:induction false} EncryptOffIgnoresCodecEntries(
    scope: Scope, es: seq<Entry<Value>>, options: Option<Options>, env: Env,
    other: (string, string) -> Result<string, string>)
    requires !Encrypts(options)
    ensures SerializeEntries(scope, es, options, env) == SerializeEntries(scope, es, options, env.(encrypt := other))
    decreases es, 0
  {
    if es != [] {
      EncryptOffIgnoresCodec(scope, es[0].value, options, env, other);
      EncryptOffIgnoresCodecEntries(scope, es[1..], options, env, other);
    }
  }

  /**
    A schema is stored one way: deserializing its envelope yields the exported
    descriptor as plain data, never the schema object itself.
   */
  lemma SchemaIsOneWay(scope: Scope, d: Json, options: Option<Options>, env: Env)
    ensures Serialize(scope, Schema(d), options, env) == Ok(Json.Obj([Entry(SCHEMA_TAG, d)]))
    ensures Deserialize(scope, Serialize(scope, Schema(d), options, env).value, env) == Ok(FromJson(d))
    ensures FromJson(d) != Schema(d)
  {
  }

  /**
    A scope inside a mapping keeps its key, with the value `undefined`; inside an
    array it leaves an `undefined` slot. Nothing is dropped and nothing moves.
   */
  lemma ScopeLeavesUndefined(scope: Scope, v: Value, n: nat, options: Option<Options>, env: Env)
    requires v.Arr? ==> n < |v.items| && v.items[n] == ScopeRef
    requires v.Obj? ==> n < |v.entries| && v.entries[n].value == ScopeRef
    requires v.Arr? || v.Obj?
    requires Serialize(scope, v, options, env).Ok?
    ensures var j := Serialize(scope, v, options, env).value;
      if v.Arr? then |j.items| == |v.items| && j.items[n] == Json.Prim(Undefined)
      else |j.entries| == |v.entries| && j.entries[n] == Entry(v.entries[n].key, Json.Prim(Undefined))
  {
  }

  /**
    Envelope precedence on deserialization: a string `@secret` wins over every
    other tag, then `@schema`, then `@date`; a `@secret` that is not a string is
    no tag at all, and the object is a plain mapping.
   */
  lemma EnvelopePrecedence(scope: Scope, es: seq<Entry<Json>>, env: Env)
    ensures StringAt(es, SECRET_TAG).Some? && !HasPassword(scope) ==>
      Deserialize(scope, Json.Obj(es), env) == Err(ConfigError(DESERIALIZE_NO_PASSWORD))
    ensures StringAt(es, SECRET_TAG).Some? && HasPassword(scope) ==>
      Deserialize(scope, Json.Obj(es), env) ==
        match env.decryptWithKey(StringAt(es, SECRET_TAG).value, scope.password.value)
        case Ok(p) => Ok(Secret(p))
        case Err(e) => Err(CodecError(e))
    ensures StringAt(es, SECRET_TAG).None? && HasKey(es, SCHEMA_TAG) ==>
      Deserialize(scope, Json.Obj(es), env) == Ok(FromJson(Lookup(es, SCHEMA_TAG).value))
    ensures StringAt(es, SECRET_TAG).None? && !HasKey(es, SCHEMA_TAG) && HasKey(es, DATE_TAG) ==>
      Deserialize(scope, Json.Obj(es), env) == Ok(Date(env.parseDate(Lookup(es, DATE_TAG).value)))
    ensures HasKey(es, SECRET_TAG) && StringAt(es, SECRET_TAG).None? && !HasKey(es, SCHEMA_TAG) && !HasKey(es, DATE_TAG) ==>
      var r := Deserialize(scope, Json.Obj(es), env);
      r.Ok? ==> r.value.Obj? && HasKey(r.value.entries, SECRET_TAG)
  {
  }
}
