# getConnection of machinepack-mssql, modelled in Dafny

`getConnection` (lib/get-connection.js) takes a connection manager and returns a
connection handle. It does two things.

1. **Lazy reconnect.** When the manager's pool reads as not `connected`, it builds one
   new pool from the old pool's `config` and `connect()`s it. It then stores that pool
   back into `manager.pool`. At most one connect attempt is made. A connected pool is
   left alone.
2. **Transaction-routing facade.** It returns a `Proxy` over the shared pool. The proxy
   keeps one private slot, `currentTransaction`, and has three traps:
   - `get` returns the slot for `currentTransaction`. For `query` it gives a `Request`
     over the slot's value when that value is truthy, and otherwise the pool's own
     `query` bound to the pool. Any other property comes from the pool.
   - `set` writes the slot for `currentTransaction`. Any other property is written into
     the pool, which every facade over that pool then sees.
   - `deleteProperty` clears the slot for `currentTransaction` and returns `true`. For
     any other property it deletes the pool's own property of that name, if there is
     one, and returns nothing (here: `false`).

The project has four modules:

- `JsObjects` (js_objects.dfy): JavaScript values, truthiness, and ordinary objects as
  an own-property map over a prototype map. Covers `o[k]`, `o[k] = v`, `delete o[k]`
  and `hasOwnProperty`.
- `Traps` (traps.dfy): the three traps as pure functions of a facade's `State`. A
  `State` is the slot plus the pool object.
- `Traces` (traces.dfy): any history of writes and deletes on one facade, compared with
  two reference definitions. `LastSlot` gives the last slot operation. `PoolWrites`
  gives the pool after only the other operations. Then a `World` of many facades over
  one pool: each facade's slot depends only on its own operations, and the pool
  collects everyone's writes.
- `Connection` (connection.dfy): the imperative form. `Pool`, `Facade` and `Manager`
  are classes whose trap methods change exactly the slot or exactly the pool, as the
  `Traps` functions say. `Acquire` is `getConnection` itself.

The connect call is an abstract step, `ConnectStep`. It either opens (a fresh `Pool`
built from the old pool's `config`, reading as `connected`) or rejects with an error.
A reject is not turned into the `failed` exit. The `failed` return at line 85 is
commented out, so the `await` throws and `getConnection` rejects with that error. The
model returns `Threw(error)`. The design description of this system says a failed
connect yields the `failed` exit; the model follows the code.

The same description says that the facade must reject a transaction from a foreign
connection, and must only route to active transactions. The code checks neither: any
truthy value in the slot routes `query` to `new Request(value)`. The model follows the
code.

Reading `query` with an empty slot calls `.bind` on the pool's `query`. When that
value is not a function this throws a `TypeError`. The model gives `TypeErrorThrown`.

## Model

| member | source | states |
|---|---|---|
| `JsObjects.Assign` | lib/get-connection.js:107 | `obj[prop] = value` makes `prop` an own property that reads back as `value`; every other key reads and owns as before; the prototype is untouched |
| `JsObjects.DeleteOwn` | lib/get-connection.js:115-117 | `delete obj[prop]` leaves `prop` not own, so the inherited value or `undefined` shows through; all other keys are unchanged; deleting a key that is not own changes nothing |
| `Traps.Set` | lib/get-connection.js:102-109 | the `set` trap always returns true. Writing `currentTransaction` leaves the pool as it was, and the slot then reads back as exactly the written value; `query` routes to a transaction iff that value is truthy. Any other write keeps the slot, stores the value as an own pool property that reads back, and changes no other key |
| `Traps.DeleteProperty` | lib/get-connection.js:110-118 | returns true iff the property is `currentTransaction`. That delete leaves the pool unchanged, reads the slot back as `undefined`, and stops `query` routing to a transaction. Any other delete keeps the slot and leaves the key not own, changing no other key; if the key was not own, nothing changes at all |
| `Traps.DeleteIdempotent` | lib/get-connection.js:110-118 | a second delete of the same property changes nothing further and returns the same value |
| `Traces.ApplyPool` | lib/get-connection.js:102-118 | a trap changes the pool exactly as the plain object write or delete would, and a `currentTransaction` operation leaves it alone |
| `Traces.RunSlot` | lib/get-connection.js:87-113 | after any history of writes and deletes on one facade, the slot holds the value of the last `currentTransaction` write, `undefined` if it was a delete, or its initial value if there was neither |
| `Traces.RunPool` | lib/get-connection.js:102-118 | after any history on one facade, the pool equals the result of the non-slot operations alone as plain object operations: the slot never reaches the pool |
| `Traces.RunRoutesQuery` | lib/get-connection.js:93-99 | `query` is routed afresh after every history: to a request over the current slot value iff that value is truthy, otherwise to the current pool's `query` bound to the pool (or a `TypeError` if that is not a function) |
| `Traces.AttachDetachReattach` | lib/get-connection.js:93-114 | attach `t1`, then any operations not on the slot: `query` goes to `t1`; then delete `currentTransaction`: `query` no longer goes to a transaction; then attach `t2`: `query` goes to `t2` |
| `Traces.WorldSlotIsolated` | lib/get-connection.js:87-113 | with many facades over one pool and any interleaving of their operations, each facade's slot is determined by the operations made through that facade alone |
| `Traces.WorldPoolShared` | lib/get-connection.js:107-117 | with many facades over one pool, the pool after any interleaving equals the result of all non-slot operations in order, whichever facade made them |
| `Traces.WriteSeenByAll` | lib/get-connection.js:100-108 | a write of a property other than `currentTransaction` and `query` through one facade reads back as that value through every facade over the same pool |
| `Traces.SlotOpInvisibleToOthers` | lib/get-connection.js:87-113 | writing or deleting `currentTransaction` on one facade changes no read, of any property, on another facade over the same pool |
| `Connection.Pool.Open` | lib/get-connection.js:83 | the connect step's success: a new pool built from the given config; it reads as `connected`, its `config` reads as that config, and it keeps the driver's pool prototype |
| `Connection.Facade.constructor` | lib/get-connection.js:87-92 | a new facade wraps the given pool with an empty slot: `currentTransaction` reads `undefined`, and `query` does not go to a transaction but to the pool's bound `query` (or a `TypeError`) |
| `Connection.Facade.Set` | lib/get-connection.js:102-109 | the `set` trap on the heap: only the facade is modified when the property is `currentTransaction`, otherwise only the pool; the new slot and pool and the return value are those of `Traps.Set` |
| `Connection.Facade.DeleteProperty` | lib/get-connection.js:110-118 | the `deleteProperty` trap on the heap, with the same frames; new state and return value are those of `Traps.DeleteProperty` |
| `Connection.Acquire` | lib/get-connection.js:82-124 | a connected pool means no connect attempt, and `manager.pool` is the same object afterwards. Otherwise there is exactly one attempt. On success `manager.pool` is a fresh connected pool with the old pool's `config`. On failure the call throws that error and the manager keeps its pool. A success returns a fresh facade over the manager's current pool, with an empty slot and `meta` exactly as given. The old pool object is never modified |
| `Connection.TwoFacadesIsolated` | lib/get-connection.js:87-106 | two facades over one pool: after a truthy transaction is written to the first, the first routes `query` to it and the second does not; each reads back only its own slot |
| `Connection.SharedWriteSeen` | lib/get-connection.js:100-108 | two facades over one pool: a write of another property through the first reads back through the second |

## Left out

- The `mssql` driver is not modelled: `ConnectionPool`, `connect()`, `Request`, and query
  execution over the network (lib/get-connection.js:3, 83, 95) are foreign code doing
  I/O. Connect is the `ConnectStep` parameter. A request, and the rows a query returns,
  appear only as the target `ToTransaction(value)`.
- `Connection.Pool.Open`: the new pool's own properties are only `config` and
  `connected`. It takes `config` as given, while the driver copies it. It inherits the
  old pool's prototype, which assumes both are `ConnectionPool` instances.
- `Connection.Manager.connectAttempts` is a ghost counter that exists only to state the
  one-attempt property. The real manager has no such field.
- The `async`/`await` suspension is not modelled, and neither is the race between two
  acquisitions that both see a disconnected pool and both reconnect. That is
  concurrency, and `Acquire` is one sequential call.
- The machine description (`friendlyName`, `description`, `inputs`, `exits`,
  lib/get-connection.js:8-71) is declarative metadata with no behaviour.
- No `failed` exit, no check that a transaction belongs to this pool, and no check of a
  transaction's committed or rolled-back state are modelled. The code implements none
  of these (line 85 is commented out).
- JavaScript `Proxy` invariants and the strict-mode `TypeError` for a falsy
  `deleteProperty` result are left out. That result (`undefined`) is `false` here.
- The traps the proxy does not define are left out: `has`, `ownKeys`,
  `getOwnPropertyDescriptor`, `defineProperty` and others. They forward to the pool by
  default.
- `JsObjects` models only string keys and plain data properties. Left out:
  - symbol keys;
  - accessors and setters on the prototype;
  - non-writable and non-configurable properties;
  - an overridden `hasOwnProperty`.
  The prototype chain is one fixed map.
- Numbers are integers, so `NaN`, `-0` and BigInt truthiness are left out.
- Each read of `query` makes a new bound function, and a new `Request` when a
  transaction is attached. The model keeps only where the calls go, not the identity of
  those objects.
