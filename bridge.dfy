/**
 * The adapter's `Backbone.Collection.prototype.initialize`: a collection whose
 * model class carries a type subscribes to the store's `add`, `remove` and
 * `update` events for that type and mirrors them into its own records, except
 * for the events that carry `backbone: true`, which the adapter's own writes
 * caused.
 *
 * The pure functions `RemoteAdd`, `RemoteRemove`, `RemoteUpdate` and `Handle`
 * say what one event does to the records; the class `Collection` holds the
 * records and performs the same steps in place. A remote removal destroys the
 * record through `Dispatcher.Sync` with `{hoodie: true}`, and what that returns
 * is appended to the collection's log of store calls: the lemmas below show
 * the log never grows.
 */
module Bridge {
  import opened Values
  import opened Dispatcher

  /** The collection's records: by id, and those without an id in insertion order. */
  datatype Records = Records(byId: map<Value, Attrs>, unkeyed: seq<Attrs>)

  /** The records after an event, and the store calls handling it made. */
  datatype Reaction = Reaction(after: Records, calls: seq<StoreCall>)

  datatype EventKind = AddEvent | RemoveEvent | UpdateEvent

  /** A store event: its name, the type it is for, the record and the options of the write behind it. */
  datatype StoreEvent = StoreEvent(kind: EventKind, typeName: Value, attributes: Attrs, options: Attrs)

  /** `options.backbone`: the event echoes a write the adapter made itself. */
  predicate FromBackbone(options: Attrs) {
    Truthy(Prop(options, "backbone"))
  }

  /** The key `self.get(attributes.id)` looks up; null and undefined find nothing. */
  function IdOf(attributes: Attrs): Option<Value> {
    var id := Prop(attributes, "id");
    if id == Undefined || id == Null then None else Some(id)
  }

  /** Backbone's `record.set(attributes)`: given attributes overwrite, the others stay. */
  function Merge(existing: Attrs, attributes: Attrs): (r: Attrs)
    ensures r.Keys == existing.Keys + attributes.Keys
    ensures forall k | k in attributes :: r[k] == attributes[k]
    ensures forall k | k in existing && k !in attributes :: r[k] == existing[k]
  {
    existing + attributes
  }

  /** The options `record.destroy({hoodie: true})` passes on to `sync`. */
  const DestroyOptions := SyncOptions(Bool(true), Undefined, Undefined,
                                      Fn("destroy success"), Fn("destroy error"))

  /** A record of the collection as `sync` sees it: a model of the collection's model class. */
  function RecordTarget(modelType: Value, rec: Attrs): Target {
    Target(Prop(rec, "id"), modelType, None, Obj(rec), Obj(map[]))
  }

  /**
   * `record.destroy({hoodie: true})` on a record that has an id: Backbone calls
   * `sync('delete', record, …)` with the hoodie flag, which reaches no store method.
   */
  function DestroyCall(modelType: Value, rec: Attrs): (c: StoreCall)
    ensures c == NoCall
  {
    Sync("delete", RecordTarget(modelType, rec), Some(DestroyOptions)).call
  }

  /** The store calls a `sync` result stands for: its call, unless there is none. */
  function Issued(c: StoreCall): seq<StoreCall> {
    if c == NoCall then [] else [c]
  }

  /** The `add` handler: `self.add(attributes)`, which keeps an existing record as it is. */
  function RemoteAdd(s: Records, attributes: Attrs, options: Attrs): Records {
    if FromBackbone(options) then s
    else match IdOf(attributes)
      case None => Records(s.byId, s.unkeyed + [attributes])
      case Some(id) => if id in s.byId then s else Records(s.byId[id := attributes], s.unkeyed)
  }

  /** The `remove` handler: destroy the record with that id, if there is one. */
  function RemoteRemove(s: Records, modelType: Value, attributes: Attrs, options: Attrs): Reaction {
    if FromBackbone(options) then Reaction(s, [])
    else match IdOf(attributes)
      case None => Reaction(s, [])
      case Some(id) =>
        if id !in s.byId then Reaction(s, [])
        else
          Reaction(Records(s.byId - {id}, s.unkeyed), Issued(DestroyCall(modelType, s.byId[id])))
  }

  /** The `update` handler: merge the attributes into the record with that id, if there is one. */
  function RemoteUpdate(s: Records, attributes: Attrs, options: Attrs): Records {
    if FromBackbone(options) then s
    else match IdOf(attributes)
      case None => s
      case Some(id) => if id in s.byId then Records(s.byId[id := Merge(s.byId[id], attributes)], s.unkeyed) else s
  }

  /**
   * One store event handled by a subscribed collection whose model type is
   * `modelType`.
   */
  function Handle(s: Records, modelType: Value, ev: StoreEvent): (r: Reaction)
    // echoes of the adapter's own writes are ignored
    ensures FromBackbone(ev.options) ==> r == Reaction(s, [])
    // handling a store event never writes to the store
    ensures r.calls == []
    // a remove or update for an id the collection does not hold changes nothing
    ensures ev.kind != AddEvent && (IdOf(ev.attributes).None? || IdOf(ev.attributes).value !in s.byId) ==>
              r.after == s
    // records with any other id are left as they are
    ensures forall k | k in s.byId && Some(k) != IdOf(ev.attributes) ::
              k in r.after.byId && r.after.byId[k] == s.byId[k]
    // only an add inserts, and only the event's own id
    ensures forall k | k in r.after.byId && k !in s.byId ::
              ev.kind == AddEvent && IdOf(ev.attributes) == Some(k) && r.after.byId[k] == ev.attributes
    // only an add of a record without id touches the records without id, by appending it
    ensures r.after.unkeyed == s.unkeyed ||
            (ev.kind == AddEvent && IdOf(ev.attributes).None? && r.after.unkeyed == s.unkeyed + [ev.attributes])
    // an add of a record with an id inserts it, unless that id is held, whose record is kept
    ensures ev.kind == AddEvent && !FromBackbone(ev.options) && IdOf(ev.attributes).Some? ==>
              var id := IdOf(ev.attributes).value;
              id in r.after.byId && r.after.byId[id] == (if id in s.byId then s.byId[id] else ev.attributes)
    // an add of a record without id appends it to the records without id
    ensures ev.kind == AddEvent && !FromBackbone(ev.options) && IdOf(ev.attributes).None? ==>
              r.after.unkeyed == s.unkeyed + [ev.attributes]
    // a remove of a held id drops exactly that record
    ensures ev.kind == RemoveEvent && !FromBackbone(ev.options) && IdOf(ev.attributes).Some? ==>
              r.after.byId == s.byId - {IdOf(ev.attributes).value}
    // an update of a held id merges into that record
    ensures ev.kind == UpdateEvent && !FromBackbone(ev.options) && IdOf(ev.attributes).Some? &&
            IdOf(ev.attributes).value in s.byId ==>
              var id := IdOf(ev.attributes).value;
              id in r.after.byId && r.after.byId[id] == Merge(s.byId[id], ev.attributes)
  {
    match ev.kind
    case AddEvent => Reaction(RemoteAdd(s, ev.attributes, ev.options), [])
    case RemoveEvent => RemoteRemove(s, modelType, ev.attributes, ev.options)
    case UpdateEvent => Reaction(RemoteUpdate(s, ev.attributes, ev.options), [])
  }

  /**
   * The subscription `initialize` makes: none when the collection has no model
   * class or the class's `prototype.type` is falsy, else the store scoped to that type.
   */
  function Binding(model: Option<ModelClass>): (b: Option<Value>)
    ensures b.Some? <==> model.Some? && Truthy(model.value.protoType)
    ensures b.Some? ==> b.value == model.value.protoType
  {
    match model
    case None => None
    case Some(m) => if Truthy(m.protoType) then Some(m.protoType) else None
  }

  /** A store event reaching a collection: only a subscription for the event's type hears it. */
  function Receive(binding: Option<Value>, s: Records, ev: StoreEvent): Reaction {
    if binding == Some(ev.typeName) then Handle(s, ev.typeName, ev) else Reaction(s, [])
  }

  /** A stream of store events delivered one after the other. */
  function Replay(binding: Option<Value>, s: Records, evs: seq<StoreEvent>): Reaction
    decreases |evs|
  {
    if evs == [] then Reaction(s, [])
    else
      var first := Receive(binding, s, evs[0]);
      var rest := Replay(binding, first.after, evs[1..]);
      Reaction(rest.after, first.calls + rest.calls)
  }

  /** However many store events arrive, the bridge never issues a store call: no feedback loop. */
  lemma {:induction false} ReplayIssuesNoStoreCalls(binding: Option<Value>, s: Records, evs: seq<StoreEvent>)
    ensures Replay(binding, s, evs).calls == []
    decreases |evs|
  {
    if evs != [] {
      ReplayIssuesNoStoreCalls(binding, Receive(binding, s, evs[0]).after, evs[1..]);
    }
  }

  /** A stream of echoes of the adapter's own writes leaves the records as they were. */
  lemma {:induction false} ReplayOfEchoesChangesNothing(binding: Option<Value>, s: Records, evs: seq<StoreEvent>)
    requires forall i | 0 <= i < |evs| :: FromBackbone(evs[i].options)
    ensures Replay(binding, s, evs).after == s
    decreases |evs|
  {
    if evs != [] {
      assert FromBackbone(evs[0].options);
      ReplayOfEchoesChangesNothing(binding, s, evs[1..]);
    }
  }

  /** Events for other types never reach the collection. */
  lemma {:induction false} ReplayOfOtherTypesChangesNothing(binding: Option<Value>, s: Records, evs: seq<StoreEvent>)
    requires forall i | 0 <= i < |evs| :: binding != Some(evs[i].typeName)
    ensures Replay(binding, s, evs) == Reaction(s, [])
    decreases |evs|
  {
    if evs != [] {
      ReplayOfOtherTypesChangesNothing(binding, s, evs[1..]);
    }
  }

  /** A record no event of the stream names keeps its presence and its attributes. */
  lemma {:induction false} ReplayKeepsUnnamedRecords(binding: Option<Value>, s: Records, evs: seq<StoreEvent>, k: Value)
    requires forall i | 0 <= i < |evs| :: IdOf(evs[i].attributes) != Some(k)
    ensures var after := Replay(binding, s, evs).after;
            (k in after.byId <==> k in s.byId) && (k in s.byId ==> after.byId[k] == s.byId[k])
    decreases |evs|
  {
    if evs != [] {
      var first := Receive(binding, s, evs[0]);
      assert IdOf(evs[0].attributes) != Some(k);
      ReplayKeepsUnnamedRecords(binding, first.after, evs[1..], k);
    }
  }

  /**
   * A store event delivered twice does what it did once, for records with an
   * id: add keeps the first copy, remove finds nothing left, and merging the
   * same attributes again changes nothing.
   */
  lemma RedeliveryIsHarmless(binding: Option<Value>, s: Records, ev: StoreEvent)
    requires IdOf(ev.attributes).Some?
    ensures var once := Receive(binding, s, ev).after;
            Receive(binding, once, ev).after == once
  {
    var once := Receive(binding, s, ev).after;
    if binding == Some(ev.typeName) && !FromBackbone(ev.options) && ev.kind == UpdateEvent {
      var id := IdOf(ev.attributes).value;
      if id in s.byId {
        var m := Merge(s.byId[id], ev.attributes);
        assert Merge(m, ev.attributes) == m;
      }
    }
  }

  /**
   * The event the store emits for one of its own writes: it carries the
   * written record and the options the write was given.
   */
  function EchoOf(call: StoreCall, rec: Attrs): StoreEvent
    requires IsWrite(call)
  {
    var options := map["backbone" := Bool(call.opts.backbone)];
    match call
    case Add(ty, _, _) => StoreEvent(AddEvent, ty, rec, options)
    case UpdateOrAdd(ty, _, _, _) => StoreEvent(UpdateEvent, ty, rec, options)
    case Remove(ty, _, _) => StoreEvent(RemoveEvent, ty, rec, options)
  }

  /**
   * Loop prevention across the two halves: whatever write `sync` sends to the
   * store, the event the store echoes back leaves every subscribed
   * collection unchanged and issues nothing.
   */
  lemma LocalWriteEchoIsIgnored(op: string, target: Target, options: Option<SyncOptions>,
                                binding: Option<Value>, s: Records, rec: Attrs)
    requires IsWrite(Sync(op, target, options).call)
    ensures Receive(binding, s, EchoOf(Sync(op, target, options).call, rec)) == Reaction(s, [])
  {
  }

  /** A collection, with the records it holds and the store calls its handlers made. */
  class Collection {
    var byId: map<Value, Attrs>
    var unkeyed: seq<Attrs>
    var log: seq<StoreCall>
    /** The type the collection's model class declares (`model.prototype.type`). */
    const modelType: Value
    /** The store type whose events the collection listens to, if any. */
    const subscription: Option<Value>

    function State(): Records
      reads this
    {
      Records(byId, unkeyed)
    }

    /**
     * `initialize`: subscribe to the store events of the model class's type
     * when the collection has a model class and that class declares a type.
     * `initial` stands for the models Backbone puts in after `initialize`.
     */
    constructor (model: Option<ModelClass>, initial: Records)
      ensures State() == initial && log == []
      ensures subscription == Binding(model)
      ensures subscription.Some? ==> modelType == subscription.value
    {
      byId := initial.byId;
      unkeyed := initial.unkeyed;
      log := [];
      modelType := if model.Some? then model.value.protoType else Undefined;
      subscription := Binding(model);
    }

    /** The `add` listener. */
    method OnAdd(attributes: Attrs, options: Attrs)
      modifies this
      ensures State() == RemoteAdd(old(State()), attributes, options)
      ensures log == old(log)
    {
      if FromBackbone(options) {
        return;
      }
      var id := IdOf(attributes);
      if id.None? {
        unkeyed := unkeyed + [attributes];
      } else if id.value !in byId {
        byId := byId[id.value := attributes];
      }
    }

    /** The `remove` listener: destroys the record with `{hoodie: true}`. */
    method OnRemove(attributes: Attrs, options: Attrs)
      modifies this
      ensures State() == RemoteRemove(old(State()), modelType, attributes, options).after
      ensures log == old(log) + RemoteRemove(old(State()), modelType, attributes, options).calls
      ensures log == old(log)
    {
      if FromBackbone(options) {
        return;
      }
      var id := IdOf(attributes);
      if id.Some? && id.value in byId {
        var record := byId[id.value];
        var result := Sync("delete", RecordTarget(modelType, record), Some(DestroyOptions));
        log := log + Issued(result.call);
        byId := byId - {id.value};
      }
    }

    /** The `update` listener: `record.set(attributes)` on the record with that id. */
    method OnUpdate(attributes: Attrs, options: Attrs)
      modifies this
      ensures State() == RemoteUpdate(old(State()), attributes, options)
      ensures log == old(log)
    {
      if FromBackbone(options) {
        return;
      }
      var id := IdOf(attributes);
      if id.Some? && id.value in byId {
        byId := byId[id.value := Merge(byId[id.value], attributes)];
      }
    }

    /** The store emitting an event: the listener registered for it, if any, runs. */
    method Deliver(ev: StoreEvent)
      modifies this
      ensures State() == Receive(subscription, old(State()), ev).after
      ensures log == old(log)
    {
      if subscription != Some(ev.typeName) {
        return;
      }
      match ev.kind
      case AddEvent => OnAdd(ev.attributes, ev.options);
      case RemoveEvent => OnRemove(ev.attributes, ev.options);
      case UpdateEvent => OnUpdate(ev.attributes, ev.options);
    }
  }
}
