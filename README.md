# backbone-hoodie, modelled in Dafny

backbone-hoodie is the glue between Backbone (models and collections) and the
Hoodie store. It does two things, and this project models both:

- **The sync dispatcher** (`Backbone.sync`). It turns each Backbone persistence
  operation (`read`, `create`, `update`, `delete`) into exactly one call on
  `Backbone.hoodie.store`, or none. It then hangs the caller's `success` and
  `error` callbacks on the promise the store returns.
- **The echo-suppressing bridge** (`Backbone.Collection.prototype.initialize`).
  A collection whose model class declares a `type` listens to the store's
  `add`, `remove` and `update` events for that type and mirrors them into its
  records. Events that carry `backbone: true` are skipped: they echo a write
  the adapter made itself.

Files:

- `values.dfy` (module `Values`): the JavaScript values passed between the two
  libraries, with JavaScript truthiness (`Truthy`). Every truthiness test on
  a JavaScript value (`id`, `type`, `filter`, `attrs`, the callbacks,
  `backbone`) goes through it. So `''`, `0`, `null` and
  `undefined` behave as they do in the source: an `id` of `''` routes a
  `read` to `findAll`, for example.
- `dispatcher.dfy` (module `Dispatcher`): `Sync`, a pure function. It returns
  the store call the adapter makes, as a `StoreCall` value (`Find`, `FindAll`,
  `Add`, `UpdateOrAdd`, `Remove`, or `NoCall`), together with what it hands
  back to its caller (`Completion`). `Fired` gives the callbacks that run once
  the promise settles with an `Outcome` (`Ok` or `Err`).
- `bridge.dfy` (module `Bridge`): the class `Collection`. Its fields are the
  records (a map from id to attributes, plus the records that have no id) and
  a log of the store calls its handlers make. Its methods are the three store
  listeners and `Deliver`, the store emitting an event. Each method is
  specified by a pure function (`RemoteAdd`, `RemoteRemove`, `RemoteUpdate`,
  `Receive`, `Handle`). The lemmas about those functions cover whole streams
  of events (`Replay`).

The remote `remove` listener destroys the record with `{hoodie: true}`.
Backbone then calls `sync('delete', record, options)` with the hoodie flag
set. The model runs exactly that call through `Dispatcher.Sync` and appends
whatever store call comes back to the log. The log provably never grows
(`Bridge.DestroyCall`, `Bridge.Handle`, `Bridge.ReplayIssuesNoStoreCalls`).
This is the adapter's loop-prevention guarantee, and it is proved through
the dispatcher's short-circuit rather than assumed.

The store is not called anywhere: a call is a value. The outcome of the
store's promise is a parameter.

## Model

| member | source | states |
|---|---|---|
| `Dispatcher.ResolveType` | src/backbone-hoodie.js:44-48 | The store type is the target's own `type` when that is truthy. Otherwise it is the collection model's `prototype.type`. With neither an own type nor a `model`, resolution fails, where the source throws. |
| `Dispatcher.Sync` | src/backbone-hoodie.js:33-86 | With `options.hoodie` truthy: no store call and `undefined` returned, whatever the method. A target without a type or model class throws before any call. A store call is made exactly for `read`/`create`/`update`/`delete`. `read` finds by (type, id) when the id is truthy, else `findAll(filter)` when a filter is given, else `findAll(type)`. `create` adds the `attrs` override or else the `toJSON()` snapshot. `update` sends only `changed`, keyed by the id. `delete` removes by (type, id). Every write carries `{backbone: true}`; reads carry no options. Any call returns the store's promise with exactly the given callbacks attached. An unknown method throws when a callback is given, and returns `undefined` otherwise. |
| `Dispatcher.Fired` | src/backbone-hoodie.js:76-85 | At most one callback runs. The attached success callback runs, with the resolved value, exactly when the promise resolves. The attached error callback runs, with the rejection value, exactly when it is rejected. Nothing runs when no promise was returned. |
| `Dispatcher.CallbacksFollowOutcome` | src/backbone-hoodie.js:76-85 | For any call that reaches the store: the success callback runs with `v` if and only if one was given and the outcome is `Ok(v)`. The error callback runs with `v` if and only if one was given and the outcome is `Err(v)`. The value handed back is the fail-chained promise exactly when an error callback was given. |
| `Dispatcher.TestSuiteScenarios` | test/specs/model.spec.js:68-202 | The delegations the test suite expects: a collection of `Task` fetches `findAll('task')`; a filter is passed alone to `findAll`; a task is fetched by `find('task', 'juyc3ej')`; a new task is added with `{backbone: true}`; an update sends only the changed attributes; a destroy removes by type and id. |
| `Bridge.Merge` | src/backbone-hoodie.js:134 | `record.set(attributes)`: the keys become the union. Each given attribute overwrites. Every other attribute stays. |
| `Bridge.DestroyCall` | src/backbone-hoodie.js:117-122 | Destroying a record with `{hoodie: true}` sends it through `Sync` as a `delete`, and that reaches no store method. |
| `Bridge.Handle` | src/backbone-hoodie.js:102-136 | An event with `backbone` truthy changes nothing. No event makes a store call. A `remove`/`update` for an id the collection does not hold changes nothing. Records with any other id are untouched. Only an `add` inserts, and only under the event's own id. An `add` of a new id inserts the record; an `add` of a held id keeps the held record (no merge). Only an `add` of a record without an id touches the records without id, and it appends that record. A `remove` of a held id drops exactly that record. An `update` of a held id merges the attributes into that record. |
| `Bridge.Binding` | src/backbone-hoodie.js:93-100 | The collection subscribes if and only if it has a model class whose `prototype.type` is truthy, and then to the store of exactly that type (`store('task')` for a collection of `Task`). |
| `Bridge.ReplayIssuesNoStoreCalls` | src/backbone-hoodie.js:110-123 | However many store events of any kind arrive, the bridge makes no store call. |
| `Bridge.ReplayOfEchoesChangesNothing` | src/backbone-hoodie.js:102-105 | A stream of events that all carry `backbone: true` leaves the records as they were. |
| `Bridge.ReplayOfOtherTypesChangesNothing` | src/backbone-hoodie.js:100-102 | Events for types other than the one subscribed to change nothing and make no call. |
| `Bridge.ReplayKeepsUnnamedRecords` | src/backbone-hoodie.js:117-135 | A record whose id no event in the stream names keeps its presence and its attributes. |
| `Bridge.RedeliveryIsHarmless` | src/backbone-hoodie.js:107-135 | For an event about a record with an id, delivering it twice does the same as delivering it once. `add` keeps the first copy, `remove` finds nothing left, and merging the same attributes again changes nothing. |
| `Bridge.LocalWriteEchoIsIgnored` | src/backbone-hoodie.js:50-73 | Whatever write `Sync` sends to the store, the event the store echoes back for it leaves every collection unchanged and makes no call. |
| `Bridge.Collection.constructor` | src/backbone-hoodie.js:88-101 | `initialize` starts with the given records and an empty call log. It subscribes exactly when the model class declares a truthy `prototype.type`, and to that type. |
| `Bridge.Collection.OnAdd` | src/backbone-hoodie.js:102-108 | The records become `RemoteAdd` of the old ones; no store call is logged. |
| `Bridge.Collection.OnRemove` | src/backbone-hoodie.js:110-123 | The records become `RemoteRemove` of the old ones. The log is extended by what the destroy's `sync` issued, which is nothing. |
| `Bridge.Collection.OnUpdate` | src/backbone-hoodie.js:125-136 | The records become `RemoteUpdate` of the old ones; no store call is logged. |
| `Bridge.Collection.Deliver` | src/backbone-hoodie.js:100-136 | A store event runs the listener registered for its name when the collection subscribed to its type. The records become `Receive` of the old ones, and the log is unchanged. |

## Left out

- The UMD loader wrapper (src/backbone-hoodie.js:1-19) is module-system plumbing.
- `Backbone.connect` (src/backbone-hoodie.js:25-31) builds a `Hoodie` client and stores it in a process-wide global. In the model the store is implicit: `Sync` returns the call it would make.
- Promise timing and the jQuery/Hoodie deferred machinery are not modelled. A promise is reduced to the callbacks attached to it and the value it settles with.
- Backbone's own success wrapper is not modelled. That wrapper overwrites a model's attributes with the store's result, and it is Backbone code, not this adapter's.
- The tests at test/specs/collection.spec.js:69 and :103 expect `add`/`set` to receive `{hoodie: true}`. The source passes no options (src/backbone-hoodie.js:107, 134), and the model follows the source.
- Backbone's collection internals beyond insert, merge and delete by id are not modelled: ordering and comparators, `cid` lookup, and the `add`/`remove`/`change` events Backbone fires.
- Ids are compared as values, so Backbone's coercion of `1` and `'1'` to the same key is not modelled.
- `Truthy` has no `NaN`, because numbers are integers.
- The store's own echo of a write is an assumption about Hoodie, stated as `Bridge.EchoOf`: the event for a write carries the write's `backbone` option. It is not code of this repository.
- Throwing inside a listener, or calling a listener with a missing options object, is not modelled. The store always passes an options object.
