/** `getConnection`: the manager's pool, its lazy reconnect, and the facade
    returned over it. */
module Connection {
  import opened JsObjects
  import opened Traps

  const Connected: string := "connected"
  const Config: string := "config"

  /** The driver's pool object, seen as an ordinary object. */
  class Pool {
    var props: ObjectState

    /** The abstract connect step when it succeeds: a pool built from
        `config` whose `connect()` has resolved; it inherits the driver's
        pool prototype `proto`. */
    constructor Open(config: Value, proto: map<string, Value>)
      ensures IsConnected() && ConfigValue() == config && props.proto == proto
    {
      props := ObjectState(map[Config := config, Connected := Bool(true)], proto);
    }

    /** The test `pool.connected`. */
    predicate IsConnected()
      reads this
    {
      Truthy(Lookup(props, Connected))
    }

    /** The read `pool.config`. */
    function ConfigValue(): Value
      reads this
    {
      Lookup(props, Config)
    }
  }

  /** The object returned as `connection`: a proxy over the shared pool with
      its own `currentTransaction` slot. */
  class Facade {
    const pool: Pool
    var slot: Value

    constructor (pool: Pool)
      ensures this.pool == pool && slot == Undefined
      ensures Get(CurrentTransaction) == Plain(Undefined)
      ensures !RoutesToTransaction(Get(Query))
      ensures Get(Query) ==
        if Lookup(pool.props, Query).Fun? then BoundQuery(ToPool(Lookup(pool.props, Query))) else TypeErrorThrown
    {
      this.pool := pool;
      slot := Undefined;
    }

    /** What this facade's traps act on. */
    function View(): State
      reads this, pool
    {
      State(slot, pool.props)
    }

    /** The `get` trap on this facade. */
    function Get(prop: string): Read
      reads this, pool
    {
      Traps.Get(View(), prop)
    }

    /** The `set` trap: it changes the slot or the pool, never both. */
    method Set(prop: string, value: Value) returns (ok: bool)
      modifies if prop == CurrentTransaction then {this} else {pool}
      ensures View() == Traps.Set(old(View()), prop, value).state
      ensures ok == Traps.Set(old(View()), prop, value).ret
    {
      if prop == CurrentTransaction {
        slot := value;
        return true;
      }
      pool.props := Assign(pool.props, prop, value);
      return true;
    }

    /** The `deleteProperty` trap: it changes the slot or the pool, never both. */
    method DeleteProperty(prop: string) returns (ok: bool)
      modifies if prop == CurrentTransaction then {this} else {pool}
      ensures View() == Traps.DeleteProperty(old(View()), prop).state
      ensures ok == Traps.DeleteProperty(old(View()), prop).ret
    {
      if prop == CurrentTransaction {
        slot := Undefined;
        return true;
      }
      if HasOwn(pool.props, prop) {
        pool.props := DeleteOwn(pool.props, prop);
      }
      return false;
    }
  }

  /** The connection manager; only its `pool` is used here. Connect
      attempts are counted for the specification's sake. */
  class Manager {
    var pool: Pool
    ghost var connectAttempts: nat

    constructor (pool: Pool)
      ensures this.pool == pool && connectAttempts == 0
    {
      this.pool := pool;
      connectAttempts := 0;
    }
  }

  /** How the one connect attempt ends, when it is made. */
  datatype ConnectStep = Opens | Rejects(error: Value)

  /** How `getConnection` ends: through the `success` exit, or by throwing
      the connect error out of the `await`. */
  datatype Exit = Success(connection: Facade, meta: Value) | Threw(error: Value)

  /** `getConnection(inputs, exits)` with `inputs.manager`, `inputs.meta`,
      and `connect` deciding the outcome of the connect call if one is made. */
  method Acquire(manager: Manager, meta: Value, connect: ConnectStep) returns (r: Exit)
    modifies manager
    ensures old(manager.pool.IsConnected()) ==>
      manager.pool == old(manager.pool) && manager.connectAttempts == old(manager.connectAttempts)
    ensures !old(manager.pool.IsConnected()) ==>
      manager.connectAttempts == old(manager.connectAttempts) + 1
    ensures !old(manager.pool.IsConnected()) && connect.Opens? ==>
      && fresh(manager.pool)
      && manager.pool.ConfigValue() == old(manager.pool.ConfigValue())
      && manager.pool.props.proto == old(manager.pool.props.proto)
    ensures !old(manager.pool.IsConnected()) && connect.Rejects? ==>
      r == Threw(connect.error) && manager.pool == old(manager.pool)
    ensures r.Success? <==> old(manager.pool.IsConnected()) || connect.Opens?
    ensures r.Success? ==>
      && fresh(r.connection)
      && r.connection.pool == manager.pool
      && manager.pool.IsConnected()
      && r.connection.slot == Undefined
      && r.meta == meta
    ensures unchanged(old(manager.pool))
  {
    if !manager.pool.IsConnected() {
      manager.connectAttempts := manager.connectAttempts + 1;
      if connect.Rejects? {
        return Threw(connect.error);
      }
      manager.pool := new Pool.Open(manager.pool.ConfigValue(), manager.pool.props.proto);
    }
    var connection := new Facade(manager.pool);
    r := Success(connection, meta);
  }

  /** Two facades over one pool: attaching a transaction to the first
      leaves the second routing `query` to the pool, and reading the slot
      through either gives back only its own value. */
  method TwoFacadesIsolated(pool: Pool, tx: Value) returns (first: Read, second: Read, firstSlot: Read, secondSlot: Read)
    requires Truthy(tx)
    ensures first == BoundQuery(ToTransaction(tx))
    ensures !RoutesToTransaction(second)
    ensures firstSlot == Plain(tx) && secondSlot == Plain(Undefined)
  {
    var f1 := new Facade(pool);
    var f2 := new Facade(pool);
    var ok := f1.Set(CurrentTransaction, tx);
    first := f1.Get(Query);
    second := f2.Get(Query);
    firstSlot := f1.Get(CurrentTransaction);
    secondSlot := f2.Get(CurrentTransaction);
  }

  /** Two facades over one pool: a write of another property through the
      first is read back through the second. */
  method SharedWriteSeen(pool: Pool, prop: string, value: Value) returns (seen: Read)
    requires prop != CurrentTransaction && prop != Query
    modifies pool
    ensures seen == Plain(value)
  {
    var f1 := new Facade(pool);
    var f2 := new Facade(pool);
    var ok := f1.Set(prop, value);
    seen := f2.Get(prop);
  }
}
