# alchemy persistence codec, modelled in Dafny

This project models the persistence codec of alchemy (`alchemy/src/serde.ts`).
The codec saves resource state between runs. It has two functions:

- `serialize(scope, value, options)` turns an in-memory value tree into a
  JSON-safe envelope tree. At each node it tries the cases in a fixed order:
  1. array
  2. `Secret`, which becomes `{"@secret": …}`
  3. schema-capable object, which becomes `{"@schema": …}`
  4. `Date`, which becomes `{"@date": …}`
  5. `Scope`, which becomes `undefined`
  6. plain object
  7. anything else passes through unchanged
- `deserialize(scope, value)` undoes the envelopes. Its precedence is a string
  `@secret`, then `@schema`, then `@date`, then a plain mapping.

A secret met in either direction without a password is an error.

## Files

- `results.dfy` (module `Results`) holds `Option` and `Result`. A `Result` stands
  for a settled promise.
- `trees.dfy` (module `Trees`) holds the value tree `Value` and the stored tree
  `Json`. It also holds the reserved tags, object lookup, and the structural
  predicates used in the contracts.
- `serde.dfy` (module `Serde`) holds `IsType`, `Serialize`, `Deserialize` and
  the four `Promise.all` walkers.
- `properties.dfy` (module `SerdeProperties`) holds the properties that relate
  several calls: round trips, the encryption escape hatch, the one-way schema,
  scope slots and tag precedence.

## How the source is represented

- A plain object is the sequence of its `Object.entries`, in enumeration order.
  Objects the source builds have distinct keys. `value[key]` and `key in value`
  are `Lookup` and `HasKey` on that sequence.
- `!scope.password` is true for an absent password and for the empty string.
  `HasPassword` models both.
- `options?.encrypt !== false` is `Encrypts`. Encryption stays on when `options`
  is missing, when `encrypt` is missing, and when it is `true`.
- The collaborators the codec calls but does not define are fields of `Env`:
  - `encrypt` and `decryptWithKey` from `./encrypt.js`. Each returns `Ok` or
    rejects with a reason.
  - `Date.prototype.toISOString`.
  - `new Date(x)`, which gives `None` for an Invalid Date.

  Their expected behaviour is stated as hypotheses of the lemmas that need it.
  `CodecRoundTrips` says `decryptWithKey(encrypt(p, k), k) = p`.
  `DatesRoundTrip` says that parsing a formatted timestamp gives it back.
- `Promise.all` is an order-preserving map that fails when any child fails.
  Its result is indexed by position, so completion order cannot change it.
- The errors are `ConfigError` with the source's two messages, `CodecError`
  for a rejection from the secret codec, and `RangeError` for `toISOString` on
  an Invalid Date.

## Where the code and its description differ

The code is followed in each case below.

- A `Scope` inside a mapping is described as dropping its key. The code keeps
  the key with the value `undefined`, because `Object.fromEntries` keeps it.
  Inside an array the slot becomes `undefined` and nothing is re-indexed.
  `ScopeLeavesUndefined` states both cases.
- An envelope is described as carrying exactly one reserved key. The code
  accepts any object and tries the tags in order. For example, `{"@secret": 1}`
  is a plain mapping, and `{"@schema": d, "@date": t}` yields `d`.
  `EnvelopePrecedence` states these cases.
- `isType` probes for `toJsonSchema`, but `serialize` then calls `toJSON()`. The
  model's `Schema` value stands for an object that has both methods, and it
  carries what `toJSON()` returns.
- With `encrypt: false` the plaintext is stored, but `deserialize` still
  decrypts it. `PlaintextSecretIsDecrypted` states this asymmetry.

## Model

| member | source | states |
|---|---|---|
| `Serde.Serialize` | alchemy/src/serde.ts:16-56 | scalars pass unchanged; a Scope yields `undefined`; a schema-capable object becomes `{"@schema": descriptor}`; a valid Date becomes `{"@date": toISOString()}` and an Invalid Date fails with a RangeError; an array keeps its length and order; a mapping keeps its keys in order; without a password a secret fails with "Cannot serialize secret without password"; with `encrypt: false` the plaintext is stored; otherwise the ciphertext is stored or the codec's rejection is passed on; only secrets and Invalid Dates can make a call fail; every tree holding an Invalid Date fails, and without a password so does every tree that holds a secret |
| `Serde.SerializeItems` | alchemy/src/serde.ts:23-24 | `Promise.all` over array elements: fulfils exactly when every element does, with element i being the serialization of input element i; otherwise rejects with the first failing element's error |
| `Serde.SerializeEntries` | alchemy/src/serde.ts:45-53 | `Promise.all` over object entries: fulfils exactly when every value does, keeping each key at its position with its value's serialization; otherwise rejects with the first failing entry's error |
| `Serde.Deserialize` | alchemy/src/serde.ts:58-85 | scalars pass unchanged; arrays keep length and order; a non-envelope object keeps its keys in order; the result never contains a schema object or a scope; only a reachable string `@secret` can make a call fail, and without a password a call fails exactly when one is reachable, with "Cannot deserialize secret without password" |
| `Serde.DeserializeItems` | alchemy/src/serde.ts:59-62 | `Promise.all` over array elements: fulfils exactly when every element does, element by element in order; otherwise rejects with the first failing element's error |
| `Serde.DeserializeEntries` | alchemy/src/serde.ts:73-81 | `Promise.all` over object entries: fulfils exactly when every value does, keeping each key at its position; otherwise rejects with the first failing entry's error |
| `SerdeProperties.RoundTrip` | alchemy/src/serde.ts:16-85 | a tree of scalars, arrays, mappings, secrets and dates with no reserved key comes back unchanged from deserialize after a successful serialize. This holds when secrets are encrypted with a codec that round-trips and dates format and parse consistently |
| `SerdeProperties.PlainRoundTrip` | alchemy/src/serde.ts:16-85 | a tree of scalars, arrays and mappings with no reserved key always serializes, for any scope, options and collaborators, and deserializes back to itself |
| `SerdeProperties.SecretRoundTrip` | alchemy/src/serde.ts:64-68 | with a password, encryption on and a codec that round-trips, a serialized `Secret(s)` deserializes to `Secret(s)` |
| `SerdeProperties.PlaintextSecretIsDecrypted` | alchemy/src/serde.ts:29-34 | with `encrypt: false` a secret is stored as `{"@secret": plaintext}`, and deserializing that runs the plaintext through `decryptWithKey` |
| `SerdeProperties.EncryptOffIgnoresCodec` | alchemy/src/serde.ts:31-33 | with encryption off, the output does not depend on `encrypt` at all |
| `SerdeProperties.SchemaIsOneWay` | alchemy/src/serde.ts:35-38 | a schema is stored as `{"@schema": descriptor}`, and deserializing it gives the descriptor as plain data, never the schema object |
| `SerdeProperties.ScopeLeavesUndefined` | alchemy/src/serde.ts:43-53 | a Scope in a mapping keeps its key with the value `undefined`; in an array it leaves an `undefined` slot; the container keeps its size |
| `SerdeProperties.EnvelopePrecedence` | alchemy/src/serde.ts:63-82 | a string `@secret` wins over the other tags, fails without a password and decrypts otherwise; then `@schema` yields its value verbatim; then `@date` yields a Date; a non-string `@secret` alone leaves a plain mapping that keeps the `@secret` key |
| `SerdeProperties.TagFreeIsVerbatim` | alchemy/src/serde.ts:73-84 | a stored tree with no reserved key anywhere deserializes, with or without a password, to the same tree |

## Left out

- Asynchrony: both walks are modelled as sequential functions.
  - When several children fail, the model reports the lowest-index failure.
    The source reports whichever rejection settles first.
- The implementations of `encrypt` and `decryptWithKey` in `./encrypt.js` are not part of this model. They are parameters.
  - `encrypt` may be randomized in the source. Here it is a function of its
    inputs. The round-trip hypothesis does not depend on this.
- `Date.prototype.toISOString` and `new Date(x)` are parameters. Dates outside
  the range JavaScript accepts are not modelled; a `Date` holds either a valid
  millisecond timestamp or is an Invalid Date.
- JavaScript object semantics are reduced to own enumerable string-keyed
  entries. Out of scope:
  - prototypes and `instanceof`
  - getters, symbol keys and non-enumerable properties
  - functions as values
  - the integer-key ordering rule (the walks never reorder keys)
- Distinct keys are not enforced. A JavaScript object never has two properties
  with the same key, but the model's `Obj` accepts a repeated key and the walks
  keep every entry, where `Object.fromEntries` would keep one.
- Cyclic value trees are out of scope: a datatype is finite and acyclic.
- Numbers are unbounded reals: NaN, infinities and -0 are not modelled. Every
  scalar passes through unchanged, so no branch depends on them.
- A schema-capable object without a `toJSON` method, which throws a TypeError
  in the source, is not modelled.
- The internals of `Scope` and `Secret` are out of scope. Only `scope.password`
  and `secret.unencrypted` are read.
- `deserialize` is given a stored JSON tree. A class instance passed to it
  directly is not modelled.
- `alchemy/src/cloudflare/external.ts` is a static list of module names with no
  algorithm. It is not part of this model.
