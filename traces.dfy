/** Sequences of writes and deletes through the facade traps: what one facade
    sees after any history of calls, and what many facades over one shared
    pool see of each other. */
module Traces {
  import opened JsObjects
  import opened Traps

  /** A `set` or a `deleteProperty` on a facade. */
  datatype Op = Write(prop: string, value: Value) | Delete(prop: string)

  /** The effect of one operation on a facade's state. */
  function Apply(s: State, op: Op): State {
    match op
    case Write(p, v) => Set(s, p, v).state
    case Delete(p) => DeleteProperty(s, p).state
  }

  /** The state after `ops`, applied first to last. */
  function Run(s: State, ops: seq<Op>): State
    decreases |ops|
  {
    if ops == [] then s else Apply(Run(s, ops[..|ops| - 1]), ops[|ops| - 1])
  }

  /** Reference for the slot: the most recent write of `currentTransaction`
      gives its value, the most recent delete gives `undefined`, and with
      neither the slot keeps its initial value. */
  function LastSlot(initial: Value, ops: seq<Op>): Value
    decreases |ops|
  {
    if ops == [] then initial
    else
      var op := ops[|ops| - 1];
      if op.prop != CurrentTransaction then LastSlot(initial, ops[..|ops| - 1])
      else if op.Write? then op.value
      else Undefined
  }

  /** Whether no operation of `ops` touches the slot. */
  predicate NoSlotOps(ops: seq<Op>) {
    forall k :: 0 <= k < |ops| ==> ops[k].prop != CurrentTransaction
  }

  /** Reference for the pool: only the operations on properties other than
      `currentTransaction`, as plain object writes and deletes. */
  function PoolStep(o: ObjectState, op: Op): ObjectState {
    if op.prop == CurrentTransaction then o
    else if op.Write? then Assign(o, op.prop, op.value)
    else DeleteOwn(o, op.prop)
  }

  function PoolWrites(o: ObjectState, ops: seq<Op>): ObjectState
    decreases |ops|
  {
    if ops == [] then o else PoolStep(PoolWrites(o, ops[..|ops| - 1]), ops[|ops| - 1])
  }

  /** A trap changes the pool exactly as the plain object operation would. */
  lemma ApplyPool(s: State, op: Op)
    ensures Apply(s, op).pool == PoolStep(s.pool, op)
  {
  }

  /** After any history, the slot holds what the last slot operation left. */
  lemma {:induction false} RunSlot(s: State, ops: seq<Op>)
    ensures Run(s, ops).slot == LastSlot(s.slot, ops)
    decreases |ops|
  {
    if ops != [] {
      RunSlot(s, ops[..|ops| - 1]);
    }
  }

  /** After any history, the pool holds what the other operations did to
      it: the slot never reaches the pool. */
  lemma {:induction false} RunPool(s: State, ops: seq<Op>)
    ensures Run(s, ops).pool == PoolWrites(s.pool, ops)
    decreases |ops|
  {
    if ops != [] {
      RunPool(s, ops[..|ops| - 1]);
      ApplyPool(Run(s, ops[..|ops| - 1]), ops[|ops| - 1]);
    }
  }

  /** Operations that leave the slot alone leave `LastSlot` alone. */
  lemma {:induction false} LastSlotWithoutSlotOps(initial: Value, pre: seq<Op>, rest: seq<Op>)
    requires NoSlotOps(rest)
    ensures LastSlot(initial, pre + rest) == LastSlot(initial, pre)
    decreases |rest|
  {
    if rest != [] {
      var all := pre + rest;
      assert all[..|all| - 1] == pre + rest[..|rest| - 1];
      assert all[|all| - 1] == rest[|rest| - 1];
      assert rest[|rest| - 1].prop != CurrentTransaction;
      assert NoSlotOps(rest[..|rest| - 1]);
      LastSlotWithoutSlotOps(initial, pre, rest[..|rest| - 1]);
      assert LastSlot(initial, all) == LastSlot(initial, all[..|all| - 1]);
    } else {
      assert pre + rest == pre;
    }
  }

  /** The routing of `query` is decided afresh after every history: to a
      request over the slot's value exactly when that value is truthy, and
      otherwise to the current pool's `query`. */
  lemma RunRoutesQuery(s: State, ops: seq<Op>)
    ensures RoutesToTransaction(Get(Run(s, ops), Query)) <==> Truthy(LastSlot(s.slot, ops))
    ensures Truthy(LastSlot(s.slot, ops)) ==>
      Get(Run(s, ops), Query) == BoundQuery(ToTransaction(LastSlot(s.slot, ops)))
    ensures !Truthy(LastSlot(s.slot, ops)) ==>
      Get(Run(s, ops), Query) == QueryRead(Undefined, Lookup(PoolWrites(s.pool, ops), Query))
  {
    RunSlot(s, ops);
    RunPool(s, ops);
  }

  /** Attach, detach and re-attach: after writing a truthy `t1`, `query`
      routes to `t1` whatever else is written in between; after deleting
      `currentTransaction` it routes to the pool; after writing `t2` it
      routes to `t2`. */
  lemma AttachDetachReattach(s: State, t1: Value, between: seq<Op>, t2: Value)
    requires Truthy(t1) && Truthy(t2) && NoSlotOps(between)
    ensures Get(Run(s, [Write(CurrentTransaction, t1)] + between), Query)
      == BoundQuery(ToTransaction(t1))
    ensures !RoutesToTransaction(Get(Run(s, [Write(CurrentTransaction, t1)] + between + [Delete(CurrentTransaction)]), Query))
    ensures Get(Run(s, [Write(CurrentTransaction, t1)] + between + [Delete(CurrentTransaction), Write(CurrentTransaction, t2)]), Query)
      == BoundQuery(ToTransaction(t2))
  {
    var attached := [Write(CurrentTransaction, t1)] + between;
    assert [Write(CurrentTransaction, t1)][..0] == [];
    LastSlotWithoutSlotOps(s.slot, [Write(CurrentTransaction, t1)], between);
    RunRoutesQuery(s, attached);
    var detached := attached + [Delete(CurrentTransaction)];
    assert detached[..|detached| - 1] == attached;
    RunRoutesQuery(s, detached);
    var reattached := attached + [Delete(CurrentTransaction), Write(CurrentTransaction, t2)];
    assert reattached[..|reattached| - 1] == detached;
    RunRoutesQuery(s, reattached);
  }

  /** Many facades over one pool: the shared pool and one slot per facade. */
  datatype World = World(pool: ObjectState, slots: seq<Value>)

  /** An operation through the facade numbered `facade`. */
  datatype Action = Action(facade: nat, op: Op)

  /** What facade `i`'s traps act on. */
  function ViewOf(w: World, i: nat): State
    requires i < |w.slots|
  {
    State(w.slots[i], w.pool)
  }

  predicate Addressed(acts: seq<Action>, n: nat) {
    forall k :: 0 <= k < |acts| ==> acts[k].facade < n
  }

  /** One action: the facade's traps change the shared pool and that
      facade's slot. */
  function Perform(w: World, a: Action): (r: World)
    requires a.facade < |w.slots|
    ensures |r.slots| == |w.slots|
  {
    var s := Apply(ViewOf(w, a.facade), a.op);
    World(s.pool, w.slots[a.facade := s.slot])
  }

  function WorldRun(w: World, acts: seq<Action>): (r: World)
    requires Addressed(acts, |w.slots|)
    ensures |r.slots| == |w.slots|
    decreases |acts|
  {
    if acts == [] then w
    else Perform(WorldRun(w, acts[..|acts| - 1]), acts[|acts| - 1])
  }

  /** The operations made through facade `i`, in order. */
  function Through(acts: seq<Action>, i: nat): seq<Op>
    decreases |acts|
  {
    if acts == [] then []
    else
      var last := acts[|acts| - 1];
      Through(acts[..|acts| - 1], i) + if last.facade == i then [last.op] else []
  }

  /** All operations, whichever facade made them, in order. */
  function AllOps(acts: seq<Action>): seq<Op>
    decreases |acts|
  {
    if acts == [] then [] else AllOps(acts[..|acts| - 1]) + [acts[|acts| - 1].op]
  }

  /** A facade's slot depends only on the operations made through it:
      what other facades write to `currentTransaction` never reaches it. */
  lemma {:induction false} WorldSlotIsolated(w: World, acts: seq<Action>, i: nat)
    requires Addressed(acts, |w.slots|) && i < |w.slots|
    ensures WorldRun(w, acts).slots[i] == LastSlot(w.slots[i], Through(acts, i))
    decreases |acts|
  {
    if acts != [] {
      var prefix := acts[..|acts| - 1];
      var last := acts[|acts| - 1];
      assert Addressed(prefix, |w.slots|);
      WorldSlotIsolated(w, prefix, i);
      var ops := Through(prefix, i);
      if last.facade == i {
        var all := ops + [last.op];
        assert all[..|all| - 1] == ops;
      } else {
        assert Through(acts, i) == ops;
      }
    }
  }

  /** The pool is shared: after any interleaving of actions on any facades
      it holds what all non-slot operations did to it, in order, exactly as
      if a single facade had made them all. */
  lemma {:induction false} WorldPoolShared(w: World, acts: seq<Action>)
    requires Addressed(acts, |w.slots|)
    ensures WorldRun(w, acts).pool == PoolWrites(w.pool, AllOps(acts))
    decreases |acts|
  {
    if acts != [] {
      var prefix := acts[..|acts| - 1];
      var last := acts[|acts| - 1];
      assert Addressed(prefix, |w.slots|);
      WorldPoolShared(w, prefix);
      var before := WorldRun(w, prefix);
      ApplyPool(ViewOf(before, last.facade), last.op);
      var all := AllOps(prefix) + [last.op];
      assert all[..|all| - 1] == AllOps(prefix);
    }
  }

  /** A write of any other property through one facade is seen by every
      facade over the same pool. */
  lemma WriteSeenByAll(w: World, i: nat, prop: string, value: Value, j: nat)
    requires i < |w.slots| && j < |w.slots|
    requires prop != CurrentTransaction && prop != Query
    ensures Get(ViewOf(Perform(w, Action(i, Write(prop, value))), j), prop) == Plain(value)
  {
  }

  /** Attaching or detaching a transaction on one facade changes nothing
      that another facade over the same pool can read. */
  lemma SlotOpInvisibleToOthers(w: World, i: nat, op: Op, j: nat, prop: string)
    requires i < |w.slots| && j < |w.slots| && i != j
    requires op.prop == CurrentTransaction
    ensures Get(ViewOf(Perform(w, Action(i, op)), j), prop) == Get(ViewOf(w, j), prop)
  {
  }
}
