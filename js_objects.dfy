/** JavaScript values and ordinary objects, as far as the connection facade
    reads and writes them. */
module JsObjects {

  /** A JavaScript value. Numbers are integers here; objects and functions
      are known only by an opaque identity. */
  datatype Value =
    | Undefined
    | Null
    | Bool(b: bool)
    | Num(n: int)
    | Str(s: string)
    | Ref(id: nat)   // an object that cannot be called, a transaction for one
    | Fun(id: nat)   // a callable object

  /** JavaScript truthiness: `undefined`, `null`, `false`, `0` and `""` are
      falsy, everything else is truthy. */
  predicate Truthy(v: Value) {
    match v
    case Undefined => false
    case Null => false
    case Bool(b) => b
    case Num(n) => n != 0
    case Str(s) => s != ""
    case Ref(_) => true
    case Fun(_) => true
  }

  /** An ordinary object: its own data properties and the properties it
      inherits from its prototype chain. */
  datatype ObjectState = ObjectState(own: map<string, Value>, proto: map<string, Value>)

  /** `o.hasOwnProperty(key)`. */
  predicate HasOwn(o: ObjectState, key: string) {
    key in o.own
  }

  /** `o[key]`: an own property shadows an inherited one; a missing one is
      `undefined`. */
  function Lookup(o: ObjectState, key: string): Value {
    if key in o.own then o.own[key]
    else if key in o.proto then o.proto[key]
    else Undefined
  }

  /** `o[key] = value`: creates or overwrites an own property. */
  function Assign(o: ObjectState, key: string, value: Value): (r: ObjectState)
    ensures HasOwn(r, key) && Lookup(r, key) == value
    ensures r.proto == o.proto
    ensures forall k :: k != key ==> (HasOwn(r, k) <==> HasOwn(o, k))
    ensures forall k :: k != key ==> Lookup(r, k) == Lookup(o, k)
  {
    ObjectState(o.own[key := value], o.proto)
  }

  /** `delete o[key]`: removes an own property, uncovering the inherited one
      of that name, and does nothing when `key` is not an own property. */
  function DeleteOwn(o: ObjectState, key: string): (r: ObjectState)
    ensures !HasOwn(r, key) && r.proto == o.proto
    ensures Lookup(r, key) == if key in o.proto then o.proto[key] else Undefined
    ensures forall k :: k != key ==> (HasOwn(r, k) <==> HasOwn(o, k))
    ensures forall k :: k != key ==> Lookup(r, k) == Lookup(o, k)
    ensures !HasOwn(o, key) ==> r == o
  {
    ObjectState(o.own - {key}, o.proto)
  }
}
