/** The three traps of the connection facade, as pure functions of what
    they see: the facade's private `currentTransaction` slot and the shared
    pool object behind it. */
module Traps {
  import opened JsObjects

  /** The one property name the facade keeps to itself. */
  const CurrentTransaction: string := "currentTransaction"

  /** The property whose reads are routed. */
  const Query: string := "query"

  /** Where the calls of a `query` read through the facade go. */
  datatype Target =
    | ToPool(query: Value)      // the pool's own `query`, bound to the pool
    | ToTransaction(tx: Value)  // `query` of a new `Request` over the slot's value

  /** The result of the `get` trap. */
  datatype Read =
    | Plain(value: Value)
    | BoundQuery(target: Target)
    | TypeErrorThrown  // `.bind` of a pool `query` that is not a function

  /** What one facade's traps act on. */
  datatype State = State(slot: Value, pool: ObjectState)

  /** The new state after a `set` or `deleteProperty` trap, and what the
      trap returns (a missing return value is `false`). */
  datatype Outcome = Outcome(state: State, ret: bool)

  /** A read of `query`: a truthy slot wins, whatever it holds; otherwise
      the pool's own `query`, which `.bind` requires to be a function. */
  function QueryRead(slot: Value, poolQuery: Value): Read {
    if Truthy(slot) then BoundQuery(ToTransaction(slot))
    else if poolQuery.Fun? then BoundQuery(ToPool(poolQuery))
    else TypeErrorThrown
  }

  /** Whether a read of `query` goes to a transaction rather than the pool. */
  predicate RoutesToTransaction(r: Read) {
    r.BoundQuery? && r.target.ToTransaction?
  }

  /** The `get` trap. */
  function Get(s: State, prop: string): Read {
    if prop == CurrentTransaction then Plain(s.slot)
    else if prop == Query then QueryRead(s.slot, Lookup(s.pool, Query))
    else Plain(Lookup(s.pool, prop))
  }

  /** The `set` trap. */
  function Set(s: State, prop: string, value: Value): (r: Outcome)
    ensures r.ret
    ensures prop == CurrentTransaction ==>
      r.state.pool == s.pool && Get(r.state, CurrentTransaction) == Plain(value)
    ensures prop == CurrentTransaction ==>
      (RoutesToTransaction(Get(r.state, Query)) <==> Truthy(value))
    ensures prop != CurrentTransaction ==> r.state.slot == s.slot
    ensures prop != CurrentTransaction ==>
      HasOwn(r.state.pool, prop) && Lookup(r.state.pool, prop) == value && r.state.pool.proto == s.pool.proto
    ensures prop != CurrentTransaction && prop != Query ==> Get(r.state, prop) == Plain(value)
    ensures forall k :: k != prop ==> Lookup(r.state.pool, k) == Lookup(s.pool, k)
  {
    if prop == CurrentTransaction then Outcome(State(value, s.pool), true)
    else Outcome(State(s.slot, Assign(s.pool, prop, value)), true)
  }

  /** The `deleteProperty` trap. */
  function DeleteProperty(s: State, prop: string): (r: Outcome)
    ensures r.ret <==> prop == CurrentTransaction
    ensures prop == CurrentTransaction ==>
      r.state.pool == s.pool && Get(r.state, CurrentTransaction) == Plain(Undefined)
    ensures prop == CurrentTransaction ==> !RoutesToTransaction(Get(r.state, Query))
    ensures prop != CurrentTransaction ==> r.state.slot == s.slot && !HasOwn(r.state.pool, prop)
    ensures prop != CurrentTransaction && !HasOwn(s.pool, prop) ==> r.state == s
    ensures forall k :: k != prop ==> Lookup(r.state.pool, k) == Lookup(s.pool, k)
    ensures forall k :: k != prop ==> (HasOwn(r.state.pool, k) <==> HasOwn(s.pool, k))
  {
    if prop == CurrentTransaction then Outcome(State(Undefined, s.pool), true)
    else if HasOwn(s.pool, prop) then Outcome(State(s.slot, DeleteOwn(s.pool, prop)), false)
    else Outcome(s, false)
  }

  /** Deleting the same property twice is the same as deleting it once. */
  lemma DeleteIdempotent(s: State, prop: string)
    ensures DeleteProperty(DeleteProperty(s, prop).state, prop) == DeleteProperty(s, prop)
  {
  }
}
