# mongo-wrapper connection cache, modelled in Dafny

The package exports one class, `DB`, defined in `src/index.js`. A `DB` holds a database URL,
the connect options to pass to the MongoDB driver, a logging level, and a cache
(`connections`) that maps each database name to a connected `MongoClient`. `getConnection(db)`
returns the cached client for `db` if there is one. Otherwise it asks the driver to connect,
and it caches the new client only when the connect succeeds. The CRUD methods all go through
`getConnection` and then hand their arguments to the driver.

This project models the constructor and `getConnection`:

- `wrappers.dfy` (`Wrappers`): `Option` for arguments that may be missing, and `Result` for
  values that are returned, thrown or rejected.
- `connect_options.dfy` (`ConnectOptions`): the three default options and the object-spread
  merge of the caller's options over them.
- `connection_cache.dfy` (`ConnectionCache`): one `getConnection` call as a pure function
  `Acquire` of the cache before the call (corrected lookup, see Findings: only stored
  entries count as cached). The driver's answer is an argument `reply`
  (`Connected(client)` or `ConnectFailed(error)`). The outcome has a field `request` that records
  whether the driver was asked to connect, and with which URL and options. `Replay` runs any
  sequence of calls, and the lemmas about it hold for every such sequence.
- `db.dfy` (`Db`): the class `DB`. Its `connections` map is a mutable field, and
  `GetConnection` updates it in place. The postcondition of `GetConnection` ties the new map,
  the result and the request to `Acquire` on the old map (corrected lookup, see Findings). `New` models the constructor, which
  can throw.
- `prototype_lookup.dfy` (`PrototypeLookup`): the cache test exactly as written, where
  properties are read from a plain JavaScript object (see Findings).

Clients and driver errors are opaque types. Clients are compared by identity. For the URL and
the database name, a missing argument (`undefined` or `null`) is `None`, and the empty string is
`Some("")`. Both are falsy in JavaScript, so both are rejected. For the logging level, `None` is
`undefined` only, which takes the default 1; an explicit `null` is `Some(Null)` and is stored
as `null`, since a default parameter applies only to `undefined`.

## Model

| member | source | states |
|---|---|---|
| `ConnectOptions.MergeConnectOptions` | src/index.js:17-23 | The merged keys are the caller's keys plus the three default keys. Every caller key keeps the caller's value, including an explicit `undefined`. Every default key the caller leaves out keeps its default. |
| `ConnectOptions.MergedDefaultsByName` | src/index.js:17-21 | `useNewUrlParser`, `poolSize` and `useUnifiedTopology` are always present after the merge. Each is `true`, `5` and `true` respectively unless the caller set it. No key beyond the caller's keys and these three appears. |
| `ConnectOptions.DefaultsAreAFixedPoint` | src/index.js:10-23 | Omitting the options (the `= {}` default) gives exactly the defaults. Passing the defaults explicitly, as test/index.js does, also gives exactly the defaults. |
| `Db.DB.New` | src/index.js:10-30 | Fails with the "url is required" error exactly when the URL is missing or empty. Otherwise the new `DB` is fresh and stores the URL unchanged. Its options are the merge of the caller's options over the defaults. Its logging level is the argument as given (an explicit `null` stays `null`), or 1 when the argument is `undefined`. Its connection map is empty. |
| `Db.DB.constructor` | src/index.js:15-29 | Given a URL that has passed the check, stores it along with the merged options and the logging level, starts with an empty connection map, and establishes the invariant `Valid`. |
| `Db.DB.GetConnection` | src/index.js:33-59 | Keeps `Valid` (the URL is non-empty). Uses the corrected lookup (see Findings). The new map, the result and the connect request are exactly those of `Acquire` on the old map. The old map's entries all survive unchanged. A success returns the client that is now stored under the name. |
| `Db.ConnectToolboxAndCumulus` | test/index.js:6-29 | With the default options and a non-empty URL, connecting to 'toolbox' and then 'cumulus' returns each database's own client. Asking for 'toolbox' again returns the first client without asking the driver, whatever the driver would have answered. The URL must be set, as the scenario's environment provides it; without it the constructor throws before any call. |
| `ConnectionCache.Acquire` | src/index.js:33-59 | Uses the corrected lookup (see Findings). The map only grows: no entry is removed or replaced, and the only key that can be added is the requested name. A success returns the client stored under the requested name. Any connect request carries the stored URL and options unchanged. |
| `ConnectionCache.MissingNameRejected` | src/index.js:34-36 | The result is the "database name is required" error if and only if the name is missing or empty. In that case the map is unchanged and the driver is not asked. |
| `ConnectionCache.ConnectsExactlyOnMiss` | src/index.js:39-47 | The driver is asked to connect if and only if the name is valid and not yet cached. |
| `ConnectionCache.HitReturnsStoredClient` | src/index.js:39-41 | On a hit the result is exactly the stored client, no connect request is made, and the map is unchanged. |
| `ConnectionCache.FailedConnectNotCached` | src/index.js:47-50 | On a miss whose connect fails, the driver's error is passed back, the map is unchanged, and the name is still absent. |
| `ConnectionCache.SuccessfulConnectStored` | src/index.js:47-54 | On a miss whose connect succeeds, the new client is stored under the name and returned. Exactly one key is added, and every other entry is unchanged. The driver received the stored URL and the merged options. |
| `ConnectionCache.Replay` | src/index.js:33-59 | A sequence of calls yields one outcome per call, and the final map extends the initial map. |
| `ConnectionCache.ReplayStep` | src/index.js:33-59 | Call `i` of a sequence behaves as a single call on the map left by the calls before it. |
| `ConnectionCache.ReplayOnlyGrows` | src/index.js:39-54 | Over any sequence of calls, the map before a later call extends the map before an earlier one. Keys are only added, and an entry is never replaced. |
| `ConnectionCache.ReplayRepeatReturnsSameClient` | src/index.js:39-41 | Once a call for a name has returned a client, every later call for that name returns the same client. It makes no connect request and leaves the map unchanged. So at most one connect per name is ever stored. |
| `ConnectionCache.ReplayOtherNamesKeepAbsent` | src/index.js:49-53 | Calls for other names never add an entry for a name that is absent. |
| `ConnectionCache.ReplayFailureIsRetried` | src/index.js:47-50 | After a failed connect for a name, the next call for that name asks the driver again with the same URL and options. Calls for other names may come in between. |
| `ConnectionCache.ReplayEntriesComeFromConnects` | src/index.js:47-54 | Every entry that the calls added is the client that the driver returned to a connect request made for that same name. |
| `ConnectionCache.ReplayDistinctNamesSeparateEntries` | src/index.js:53 | After successful calls for two distinct names, the final map holds each name's own client under its own key. |
| `PrototypeLookup.ReadProperty` | src/index.js:39 | Reading `connections[key]` on the plain object is truthy exactly when `key` is an own entry or an `Object.prototype` member. It yields the stored client exactly when `key` is an own entry. |
| `PrototypeLookup.AcquireAsWritten` | src/index.js:33-59 | As written, the map only grows. The driver is asked exactly when the name is valid, not cached, and not an `Object.prototype` member. |
| `PrototypeLookup.PrototypeNameResolvesToInheritedMember` | src/index.js:39-41 | As written, a name inherited from `Object.prototype` that is not cached resolves to the inherited member instead of a client. The driver is never asked, and nothing is stored. |
| `PrototypeLookup.ConstructorNameOnFreshDb` | src/index.js:25-41 | On a fresh `DB`, `getConnection('constructor')` as written resolves to `Object` without connecting. The corrected `Acquire` connects, stores the client and returns it. |
| `PrototypeLookup.AsWrittenAgreesOffPrototype` | src/index.js:39-54 | For every name that is not an `Object.prototype` member, the code as written and the corrected cache give the same map, result and connect request. |

## Left out

- `find`, `findOne`, `insertOne`, `upsert`, `updateOne` and `removeOne` (src/index.js:61-194) are not modelled. Each calls `getConnection` and passes its arguments to driver collection methods that are not part of this model.
- `MongoClient.connect` (network I/O, authentication) is not modelled. Its answer is the `reply` argument.
- Promise and callback plumbing is not modelled. The model does not distinguish the synchronous `throw` for a missing name (src/index.js:34-36) from a rejected promise. Both are a `Failure`.
- Concurrency is not modelled. In the source, two overlapping calls for the same new name can both miss at src/index.js:39, and the later store at src/index.js:53 then overwrites the first client. The model runs calls one after another, and a call's check and store happen together.
- The `console.log` gated by `logLevel` (src/index.js:43-45) is not modelled. `logLevel` is stored but has no other effect.
- The `ObjectID` re-export (src/index.js:27) is not modelled.
- The URL and database name are modelled as strings or missing, and the logging level as an integer, `null` or `undefined`. Other falsy values (`0`, `false`, `NaN`) and non-string names, which JavaScript turns into property keys, are not modelled.
- Option values are modelled as booleans, integers, strings or `undefined`. Fractional numbers, nested objects and key order are not modelled.
- The fields `url`, `connectOptions` and `logLevel` are modelled as constants. Callers reassigning them from outside is not modelled.
- The source does not close the race between concurrent misses. The model follows the code, which is sequential per call, rather than a coalescing cache without that race.
- Bulk writes and `insertMany`, `deleteMany`, `replaceOne` and `findOneAndUpdate` do not exist in src/index.js and are not modelled.

## Findings

| source | as written | input that shows it | evidently intended | confidence | as-written member | corrected member |
|---|---|---|---|---|---|---|
| src/index.js:39-41 | The cache is the plain object `{}` (src/index.js:25). The hit test `this.connections[db]` also sees the members every object inherits from `Object.prototype`, and all of them are truthy. | `getConnection('constructor')` on a fresh `DB` resolves to the `Object` constructor without connecting. The same happens for `toString`, `valueOf`, `hasOwnProperty` and the other members. | Only clients that were actually stored count as cached. Any other valid name connects. | high; not executed | `PrototypeLookup.PrototypeNameResolvesToInheritedMember` | `ConnectionCache.Acquire` |
