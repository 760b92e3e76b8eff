/**
 * The JavaScript values the adapter passes between Backbone and the Hoodie
 * store, and the two JavaScript rules it relies on: truthiness (every `if (x)`
 * and `a || b` of the adapter) and reading a property that may be missing.
 */
module Values {

  datatype Option<+T> = None | Some(value: T)

  /** A JavaScript value. Functions (callbacks) are kept by name only. */
  datatype Value =
    | Undefined
    | Null
    | Bool(b: bool)
    | Num(n: int)
    | Str(s: string)
    | Arr(items: seq<Value>)
    | Obj(fields: map<string, Value>)
    | Fn(name: string)

  /** A plain object: a record's attributes, an options object. */
  type Attrs = map<string, Value>

  /** JavaScript's ToBoolean: `undefined`, `null`, `false`, `0` and `''` are falsy. */
  predicate Truthy(v: Value) {
    match v
    case Undefined => false
    case Null => false
    case Bool(b) => b
    case Num(n) => n != 0
    case Str(s) => s != ""
    case Arr(_) => true
    case Obj(_) => true
    case Fn(_) => true
  }

  /** The property read `o.k`: a missing property reads as `undefined`. */
  function Prop(o: Attrs, k: string): Value {
    if k in o then o[k] else Undefined
  }
}
