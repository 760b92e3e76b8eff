/**
 * `Backbone.sync` as replaced by the adapter: every persistence operation of a
 * Backbone model or collection is turned into exactly one call on the Hoodie
 * store (or none), and the caller's `success`/`error` callbacks are attached
 * to the promise the store returns.
 *
 * The store is not called here: `Sync` returns the call it would make, as a
 * `StoreCall` value, together with what `Backbone.sync` hands back to its
 * caller. The promise's eventual outcome is a parameter of `Fired`.
 */
module Dispatcher {
  import opened Values

  /** A Backbone model class, as far as the adapter reads it: `prototype.type`. */
  datatype ModelClass = ModelClass(protoType: Value)

  /** What `sync` reads of the model or collection it is handed. */
  datatype Target = Target(
    id: Value,                  // `modelOrCollection.id`
    ownType: Value,             // `modelOrCollection.type`
    model: Option<ModelClass>,  // `modelOrCollection.model`: a collection's model class; None on a model
    snapshot: Value,            // `modelOrCollection.toJSON()`
    changed: Value)             // `modelOrCollection.changed`

  /** The options object Backbone passes to `sync`. */
  datatype SyncOptions = SyncOptions(
    hoodie: Value,   // set when the call itself comes from a store event
    attrs: Value,    // attribute override for `create`
    filter: Value,   // selector for a collection `read`
    success: Value,  // success callback
    error: Value)    // error callback

  /** `options || {}`: a missing options object reads as one with no properties. */
  const NoOptions := SyncOptions(Undefined, Undefined, Undefined, Undefined, Undefined)

  function Opts(options: Option<SyncOptions>): SyncOptions {
    match options
    case Some(o) => o
    case None => NoOptions
  }

  /** The options object the adapter passes to the store's write calls. */
  datatype StoreOptions = StoreOptions(backbone: bool)

  const Tagged := StoreOptions(true)

  /** One call on `Backbone.hoodie.store`, with exactly its arguments. */
  datatype StoreCall =
    | NoCall
    | Find(typeName: Value, id: Value)
    | FindAll(selector: Value)
    | Add(typeName: Value, attrs: Value, opts: StoreOptions)
    | UpdateOrAdd(typeName: Value, id: Value, changes: Value, opts: StoreOptions)
    | Remove(typeName: Value, id: Value, opts: StoreOptions)

  predicate IsWrite(c: StoreCall) {
    c.Add? || c.UpdateOrAdd? || c.Remove?
  }

  /** The TypeErrors `sync` can throw. */
  datatype Fault =
    | NoModelClass  // no own type and no `model`: `model.prototype` of undefined
    | NoPromise     // unknown method: `done`/`fail` called on undefined

  /**
   * What `sync` gives back to its caller. With `ReturnsPromise(done, fail)`
   * the store's promise is returned, `done` and `fail` are the callbacks that
   * were attached to it, and when `fail` is present the value returned is the
   * one `promise.fail(error)` produced.
   */
  datatype Completion =
    | ReturnsUndefined
    | ReturnsPromise(done: Option<Value>, fail: Option<Value>)
    | Throws(fault: Fault)

  datatype SyncResult = SyncResult(call: StoreCall, completion: Completion)

  predicate IsKnown(op: string) {
    op == "read" || op == "create" || op == "update" || op == "delete"
  }

  /**
   * The store's type name for the target: its own `type` when that is truthy,
   * otherwise its collection model's `prototype.type`; None when the target
   * has neither an own type nor a `model`, where the source throws.
   */
  function ResolveType(t: Target): (r: Option<Value>)
    ensures Truthy(t.ownType) ==> r == Some(t.ownType)
    ensures !Truthy(t.ownType) ==> (r.Some? <==> t.model.Some?)
    ensures !Truthy(t.ownType) && t.model.Some? ==> r == Some(t.model.value.protoType)
  {
    if Truthy(t.ownType) then Some(t.ownType)
    else match t.model
      case None => None
      case Some(m) => Some(m.protoType)
  }

  /** `options.attrs || modelOrCollection.toJSON()` */
  function Payload(t: Target, o: SyncOptions): Value {
    if Truthy(o.attrs) then o.attrs else t.snapshot
  }

  /** The `switch (method)` of `sync`, once the type is known. */
  function Route(op: string, ty: Value, t: Target, o: SyncOptions): StoreCall {
    if op == "read" then
      if Truthy(t.id) then Find(ty, t.id)
      else if Truthy(o.filter) then FindAll(o.filter)
      else FindAll(ty)
    else if op == "create" then Add(ty, Payload(t, o), Tagged)
    else if op == "update" then UpdateOrAdd(ty, t.id, t.changed, Tagged)
    else if op == "delete" then Remove(ty, t.id, Tagged)
    else NoCall
  }

  /** A callback `if (options.x)` attaches. */
  function Attached(callback: Value): Option<Value> {
    if Truthy(callback) then Some(callback) else None
  }

  /** The tail of `sync`: attaching the callbacks and choosing what to return. */
  function Wire(call: StoreCall, o: SyncOptions): Completion {
    if call == NoCall then
      if Truthy(o.success) || Truthy(o.error) then Throws(NoPromise) else ReturnsUndefined
    else ReturnsPromise(Attached(o.success), Attached(o.error))
  }

  /** Conditions under which `sync` gets past its guard and its type lookup. */
  predicate Dispatches(t: Target, o: SyncOptions) {
    !Truthy(o.hoodie) && ResolveType(t).Some?
  }

  /** `Backbone.sync(op, modelOrCollection, options)`. */
  function Sync(op: string, target: Target, options: Option<SyncOptions>): (r: SyncResult)
    // a call made on behalf of a store event is dropped: no store call, nothing returned
    ensures Truthy(Opts(options).hoodie) ==> r == SyncResult(NoCall, ReturnsUndefined)
    // a target with no type and no model class throws before the store is reached
    ensures !Truthy(Opts(options).hoodie) && ResolveType(target).None? ==>
              r == SyncResult(NoCall, Throws(NoModelClass))
    // the store is called exactly for the four known methods
    ensures r.call != NoCall <==> Dispatches(target, Opts(options)) && IsKnown(op)
    // read: find by id, else findAll by the filter (not the type), else findAll by type
    ensures Dispatches(target, Opts(options)) && op == "read" ==>
              if Truthy(target.id) then r.call == Find(ResolveType(target).value, target.id)
              else if Truthy(Opts(options).filter) then r.call == FindAll(Opts(options).filter)
              else r.call == FindAll(ResolveType(target).value)
    // create: add the attribute override when given, otherwise the snapshot
    ensures Dispatches(target, Opts(options)) && op == "create" ==>
              r.call == Add(ResolveType(target).value,
                            if Truthy(Opts(options).attrs) then Opts(options).attrs else target.snapshot,
                            StoreOptions(true))
    // update: only the changed attributes, keyed by the model's id
    ensures Dispatches(target, Opts(options)) && op == "update" ==>
              r.call == UpdateOrAdd(ResolveType(target).value, target.id, target.changed, StoreOptions(true))
    // delete: remove by type and id
    ensures Dispatches(target, Opts(options)) && op == "delete" ==>
              r.call == Remove(ResolveType(target).value, target.id, StoreOptions(true))
    // every write is marked as coming from Backbone
    ensures IsWrite(r.call) ==> r.call.opts.backbone
    // a store call always hands back the store's promise with the given callbacks on it
    ensures r.call != NoCall ==>
              r.completion.ReturnsPromise? &&
              (r.completion.done.Some? <==> Truthy(Opts(options).success)) &&
              (r.completion.fail.Some? <==> Truthy(Opts(options).error)) &&
              (r.completion.done.Some? ==> r.completion.done.value == Opts(options).success) &&
              (r.completion.fail.Some? ==> r.completion.fail.value == Opts(options).error)
    // an unknown method reaches `done`/`fail` on undefined when a callback is given
    ensures Dispatches(target, Opts(options)) && !IsKnown(op) ==>
              r.completion == if Truthy(Opts(options).success) || Truthy(Opts(options).error)
                              then Throws(NoPromise) else ReturnsUndefined
  {
    var o := Opts(options);
    if Truthy(o.hoodie) then SyncResult(NoCall, ReturnsUndefined)
    else match ResolveType(target)
      case None => SyncResult(NoCall, Throws(NoModelClass))
      case Some(ty) =>
        var call := Route(op, ty, target, o);
        SyncResult(call, Wire(call, o))
  }

  /** How the store's promise settles. */
  datatype Outcome = Ok(value: Value) | Err(error: Value)

  /** A callback run when the promise settles, with the value it is given. */
  datatype Invocation = SuccessRan(callback: Value, arg: Value) | ErrorRan(callback: Value, arg: Value)

  /** The callbacks that run once the promise `sync` handed back settles with `out`. */
  function Fired(c: Completion, out: Outcome): (fired: seq<Invocation>)
    ensures |fired| <= 1
    ensures forall i | i in fired ::
              (i.SuccessRan? && c.ReturnsPromise? && c.done == Some(i.callback) && out == Ok(i.arg)) ||
              (i.ErrorRan? && c.ReturnsPromise? && c.fail == Some(i.callback) && out == Err(i.arg))
    ensures c.ReturnsPromise? && c.done.Some? && out.Ok? ==> fired == [SuccessRan(c.done.value, out.value)]
    ensures c.ReturnsPromise? && c.fail.Some? && out.Err? ==> fired == [ErrorRan(c.fail.value, out.error)]
  {
    match c
    case ReturnsPromise(done, fail) =>
      (match out
       case Ok(v) => if done.Some? then [SuccessRan(done.value, v)] else []
       case Err(e) => if fail.Some? then [ErrorRan(fail.value, e)] else [])
    case _ => []
  }

  /**
   * The wiring of the caller's callbacks: for a call that reaches the store,
   * the success callback runs exactly when the promise resolves and the error
   * callback exactly when it is rejected, each with the settled value and at
   * most one of them; with an error callback the fail-chained promise is what
   * the caller gets back.
   */
  lemma CallbacksFollowOutcome(op: string, target: Target, options: Option<SyncOptions>, out: Outcome, v: Value)
    requires Dispatches(target, Opts(options)) && IsKnown(op)
    ensures var fired := Fired(Sync(op, target, options).completion, out);
            && |fired| <= 1
            && (SuccessRan(Opts(options).success, v) in fired <==> Truthy(Opts(options).success) && out == Ok(v))
            && (ErrorRan(Opts(options).error, v) in fired <==> Truthy(Opts(options).error) && out == Err(v))
            && (Sync(op, target, options).completion.fail.Some? <==> Truthy(Opts(options).error))
  {
  }

  /**
   * The scenarios of the adapter's test suite: a `Task` model class with type
   * `'task'`, a persisted task with id `'juyc3ej'`, and a collection of tasks.
   */
  lemma TestSuiteScenarios()
    // fetching a collection of tasks asks for all tasks
    ensures Sync("read", Target(Undefined, Undefined, Some(ModelClass(Str("task"))), Arr([]), Undefined),
                 Some(SyncOptions(Undefined, Undefined, Undefined, Fn("success"), Fn("error")))).call
            == FindAll(Str("task"))
    // fetching with a filter passes the filter alone
    ensures Sync("read", Target(Undefined, Undefined, Some(ModelClass(Str("task"))), Arr([]), Undefined),
                 Some(SyncOptions(Undefined, Undefined, Obj(map["foo" := Str("bar")]), Undefined, Undefined))).call
            == FindAll(Obj(map["foo" := Str("bar")]))
    // fetching one task finds it by type and id
    ensures Sync("read", Target(Str("juyc3ej"), Str("task"), None, Obj(map["id" := Str("juyc3ej")]), Undefined),
                 Some(SyncOptions(Undefined, Undefined, Undefined, Fn("success"), Fn("error")))).call
            == Find(Str("task"), Str("juyc3ej"))
    // saving a new task adds its attributes, marked as coming from Backbone
    ensures Sync("create", Target(Undefined, Str("task"), None, Obj(map["name" := Str("New Task")]), Undefined),
                 Some(SyncOptions(Undefined, Undefined, Undefined, Fn("success"), Fn("error")))).call
            == Add(Str("task"), Obj(map["name" := Str("New Task")]), StoreOptions(true))
    // saving a persisted task sends only its changes
    ensures Sync("update", Target(Str("juyc3ej"), Str("task"), None, Undefined,
                                  Obj(map["name" := Str("Updated Name"), "tags" := Str("foo, bar, baz")])),
                 Some(SyncOptions(Undefined, Undefined, Undefined, Fn("success"), Fn("error")))).call
            == UpdateOrAdd(Str("task"), Str("juyc3ej"),
                           Obj(map["name" := Str("Updated Name"), "tags" := Str("foo, bar, baz")]), StoreOptions(true))
    // destroying a persisted task removes it by type and id
    ensures Sync("delete", Target(Str("juyc3ej"), Str("task"), None, Undefined, Undefined),
                 Some(SyncOptions(Undefined, Undefined, Undefined, Fn("success"), Fn("error")))).call
            == Remove(Str("task"), Str("juyc3ej"), StoreOptions(true))
  {
  }
}
