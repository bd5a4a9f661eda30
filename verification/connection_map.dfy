/** Connection-id routing. `Table` is the ideal: every accepted connection has a serial number
    that is never used again. `ConnectionMap` is the real thing: a hash map from connection
    ids to slots of a slab, and slots are reused. */
module Routing {
  import opened Common
  import opened Queues

  type Cid = Bytes
  type Serial = nat

  datatype Table = Table(routes: map<Cid, Serial>, live: set<Serial>, next: Serial)

  const EMPTY := Table(map[], {}, 0)

  datatype Op =
    | Accept(scid: Cid)
    | Register(serial: Serial, cid: Cid)
    | Unregister(cid: Cid)
    | Remove(serial: Serial)

  function Apply(t: Table, op: Op): Table {
    match op
    case Accept(scid) => Table(t.routes[scid := t.next], t.live + {t.next}, t.next + 1)
    case Register(s, cid) => if s in t.live then t.(routes := t.routes[cid := s]) else t
    case Unregister(cid) => t.(routes := t.routes - {cid})
    case Remove(s) => t.(routes := map c | c in t.routes && t.routes[c] != s :: t.routes[c], live := t.live - {s})
  }

  function Run(t: Table, ops: seq<Op>): Table {
    if ops == [] then t else Apply(Run(t, ops[..|ops| - 1]), ops[|ops| - 1])
  }

  /** Every route leads to a live connection, and serials are below the counter. */
  ghost predicate TableOk(t: Table) {
    && (forall c :: c in t.routes ==> t.routes[c] in t.live)
    && (forall s :: s in t.live ==> s < t.next)
  }

  lemma {:induction false} RunKeepsTable(t: Table, ops: seq<Op>)
    requires TableOk(t)
    ensures TableOk(Run(t, ops)) && t.next <= Run(t, ops).next
  {
    if ops != [] {
      RunKeepsTable(t, ops[..|ops| - 1]);
    }
  }

  /** A connection that is gone stays gone: whatever happens afterwards, no connection id ever
      routes to it again, and ids that routed to it route nowhere or to a connection that
      was registered for them since. */
  lemma {:induction false} RemovedIsNeverRouted(t: Table, s: Serial, ops: seq<Op>)
    requires TableOk(t) && s < t.next && s !in t.live
    ensures s !in Run(t, ops).live
    ensures forall c :: c in Run(t, ops).routes ==> Run(t, ops).routes[c] != s
  {
    RunKeepsTable(t, ops);
    if ops != [] {
      RunKeepsTable(t, ops[..|ops| - 1]);
      RemovedIsNeverRouted(t, s, ops[..|ops| - 1]);
    }
  }

  /** Did `op` register `cid`? */
  predicate Claims(op: Op, cid: Cid) {
    (op.Accept? && op.scid == cid) || (op.Register? && op.cid == cid)
  }

  /** An id that no operation claims keeps its route for as long as its connection lives. */
  lemma {:induction false} UnclaimedKeepsRoute(t: Table, cid: Cid, ops: seq<Op>)
    requires TableOk(t) && forall i :: 0 <= i < |ops| ==> !Claims(ops[i], cid)
    ensures cid in Run(t, ops).routes ==> cid in t.routes && Run(t, ops).routes[cid] == t.routes[cid]
    ensures cid in t.routes && (forall i :: 0 <= i < |ops| ==> ops[i] != Unregister(cid) && ops[i] != Remove(t.routes[cid]))
            ==> cid in Run(t, ops).routes
  {
    if ops != [] {
      var front := ops[..|ops| - 1];
      assert forall i :: 0 <= i < |front| ==> front[i] == ops[i];
      UnclaimedKeepsRoute(t, cid, front);
      assert ops[|ops| - 1] == ops[|front|];
    }
  }

  /** An id that was unregistered routes nowhere until an operation claims it again; every other
      id keeps its route. */
  lemma UnregisteredIsNotRouted(t: Table, cid: Cid, ops: seq<Op>)
    requires TableOk(t) && forall i :: 0 <= i < |ops| ==> !Claims(ops[i], cid)
    ensures cid !in Run(Apply(t, Unregister(cid)), ops).routes
    ensures forall c :: c != cid ==>
      && (c in Apply(t, Unregister(cid)).routes <==> c in t.routes)
      && (c in t.routes ==> Apply(t, Unregister(cid)).routes[c] == t.routes[c])
  {
    UnclaimedKeepsRoute(Apply(t, Unregister(cid)), cid, ops);
  }

  /** A claimed id routes to the connection that claimed it, for as long as that connection lives
      and the id is neither claimed again nor unregistered. */
  lemma ClaimedIsRouted(t: Table, op: Op, cid: Cid, ops: seq<Op>)
    requires TableOk(t) && Claims(op, cid) && (op.Register? ==> op.serial in t.live)
    requires forall i :: 0 <= i < |ops| ==>
      !Claims(ops[i], cid) && ops[i] != Unregister(cid) && ops[i] != Remove(if op.Accept? then t.next else op.serial)
    ensures var end := Run(Apply(t, op), ops);
      cid in end.routes && end.routes[cid] == if op.Accept? then t.next else op.serial
  {
    UnclaimedKeepsRoute(Apply(t, op), cid, ops);
  }

  datatype Connection = Connection(serial: Serial, closed: bool)

  type Slab = seq<Option<Connection>>

  function Count(slots: Slab): (n: nat)
    ensures n <= |slots|
  {
    if slots == [] then 0
    else Count(slots[..|slots| - 1]) + (if slots[|slots| - 1].Some? then 1 else 0)
  }

  lemma {:induction false} CountUpdate(slots: Slab, h: nat, entry: Option<Connection>)
    requires h < |slots|
    ensures Count(slots[h := entry]) + (if slots[h].Some? then 1 else 0) == Count(slots) + (if entry.Some? then 1 else 0)
  {
    var n := |slots| - 1;
    if h == n {
      assert slots[h := entry][..n] == slots[..n];
    } else {
      CountUpdate(slots[..n], h, entry);
      assert slots[h := entry][..n] == slots[..n][h := entry];
    }
  }

  predicate Holds(slots: Slab, h: nat) {
    h < |slots| && slots[h].Some?
  }

  /** A slot is free when the slab may hand it out. */
  predicate Free(slots: Slab, h: nat) {
    h <= |slots| && (h < |slots| ==> slots[h].None?)
  }

  function Put(slots: Slab, h: nat, conn: Connection): Slab
    requires Free(slots, h)
  {
    if h == |slots| then slots + [Some(conn)] else slots[h := Some(conn)]
  }

  lemma CountPut(slots: Slab, h: nat, conn: Connection)
    requires Free(slots, h)
    ensures Count(Put(slots, h, conn)) == Count(slots) + 1
  {
    if h == |slots| {
      assert (slots + [Some(conn)])[..|slots|] == slots;
    } else {
      CountUpdate(slots, h, Some(conn));
    }
  }

  /** The real map refines the ideal table. */
  ghost predicate Refines(routes: map<Cid, nat>, slots: Slab, t: Table) {
    && routes.Keys == t.routes.Keys
    && (forall c :: c in routes ==> Holds(slots, routes[c]) && slots[routes[c]].value.serial == t.routes[c])
    && (forall h :: 0 <= h < |slots| && slots[h].Some? ==> slots[h].value.serial in t.live)
    && (forall s :: s in t.live ==> exists h :: 0 <= h < |slots| && slots[h].Some? && slots[h].value.serial == s)
    && (forall h, k :: 0 <= h < k < |slots| && slots[h].Some? && slots[k].Some? ==>
          slots[h].value.serial != slots[k].value.serial)
  }

  lemma AcceptRefines(routes: map<Cid, nat>, slots: Slab, t: Table, scid: Cid, h: nat)
    requires TableOk(t) && Refines(routes, slots, t) && Free(slots, h)
    ensures Refines(routes[scid := h], Put(slots, h, Connection(t.next, false)), Apply(t, Accept(scid)))
  {
    var after := Put(slots, h, Connection(t.next, false));
    assert forall k :: 0 <= k < |slots| && k != h ==> after[k] == slots[k];
    assert after[h] == Some(Connection(t.next, false));
    assert forall c :: c in routes ==> routes[c] != h;
  }

  lemma RegisterRefines(routes: map<Cid, nat>, slots: Slab, t: Table, h: nat, cid: Cid)
    requires TableOk(t) && Refines(routes, slots, t) && Holds(slots, h)
    ensures Refines(routes[cid := h], slots, Apply(t, Register(slots[h].value.serial, cid)))
    ensures TableOk(Apply(t, Register(slots[h].value.serial, cid)))
  {
    var s := slots[h].value.serial;
    assert s in t.live;
    assert routes[cid := h].Keys == t.routes[cid := s].Keys;
  }

  lemma MarkRefines(routes: map<Cid, nat>, slots: Slab, t: Table, h: nat)
    requires Refines(routes, slots, t) && Holds(slots, h)
    ensures Refines(routes, slots[h := Some(slots[h].value.(closed := true))], t)
  {
    var after := slots[h := Some(slots[h].value.(closed := true))];
    assert forall k :: 0 <= k < |slots| ==> after[k].Some? == slots[k].Some?;
    assert forall k :: 0 <= k < |slots| && slots[k].Some? ==> after[k].value.serial == slots[k].value.serial;
  }

  /** `retain`: the routes that do not lead to one of the handles. */
  function Without(routes: map<Cid, nat>, gone: set<nat>): map<Cid, nat> {
    map c | c in routes && routes[c] !in gone :: routes[c]
  }

  lemma WithoutMore(routes: map<Cid, nat>, gone: set<nat>, h: nat)
    ensures Without(Without(routes, gone), {h}) == Without(routes, gone + {h})
  {
  }

  lemma RemoveRefines(routes: map<Cid, nat>, slots: Slab, t: Table, h: nat)
    requires TableOk(t) && Refines(routes, slots, t) && Holds(slots, h)
    ensures Refines(Without(routes, {h}), slots[h := None], Apply(t, Remove(slots[h].value.serial)))
    ensures TableOk(Apply(t, Remove(slots[h].value.serial)))
  {
    var s := slots[h].value.serial;
    forall c | c in routes ensures routes[c] == h <==> t.routes[c] == s {
      assert Holds(slots, routes[c]);
    }
    var after := slots[h := None];
    assert forall k :: 0 <= k < |slots| && k != h ==> after[k] == slots[k];
    forall x | x in t.live - {s} ensures exists k :: 0 <= k < |after| && after[k].Some? && after[k].value.serial == x {
      var k :| 0 <= k < |slots| && slots[k].Some? && slots[k].value.serial == x;
      assert after[k] == slots[k];
    }
  }

  /** Handles of the closed connections, in slot order. */
  function ClosedOf(slots: Slab): seq<nat> {
    if slots == [] then []
    else
      var n := |slots| - 1;
      if slots[n].Some? && slots[n].value.closed then ClosedOf(slots[..n]) + [n] else ClosedOf(slots[..n])
  }

  ghost function Closed(slots: Slab): set<nat> {
    set h | 0 <= h < |slots| && slots[h].Some? && slots[h].value.closed
  }

  /** The slab after its listed slots were emptied, and what they held. */
  function Vacate(slots: Slab, handles: seq<nat>): (r: Slab)
    ensures |r| == |slots|
  {
    if handles == [] then slots
    else
      var h := handles[|handles| - 1];
      var rest := Vacate(slots, handles[..|handles| - 1]);
      if h < |slots| then rest[h := None] else rest
  }

  function Entries(slots: Slab, handles: seq<nat>): seq<(nat, Connection)> {
    if handles == [] then []
    else
      var h := handles[|handles| - 1];
      var rest := Entries(slots, handles[..|handles| - 1]);
      if Holds(slots, h) then rest + [(h, slots[h].value)] else rest
  }

  lemma {:induction false} VacateAt(slots: Slab, handles: seq<nat>, h: nat)
    requires h < |slots|
    ensures Vacate(slots, handles)[h] == if h in handles then None else slots[h]
    ensures h in Members(handles) <==> h in handles
  {
    if handles != [] {
      VacateAt(slots, handles[..|handles| - 1], h);
      assert handles == handles[..|handles| - 1] + [handles[|handles| - 1]];
    }
  }

  ghost predicate Ascending(handles: seq<nat>) {
    forall i, j :: 0 <= i < j < |handles| ==> handles[i] < handles[j]
  }

  lemma {:induction false} ClosedOfIsExact(slots: Slab)
    ensures Ascending(ClosedOf(slots))
    ensures forall j :: 0 <= j < |ClosedOf(slots)| ==> ClosedOf(slots)[j] in Closed(slots)
    ensures forall h :: h in Closed(slots) ==> h in ClosedOf(slots)
  {
    if slots != [] {
      var n := |slots| - 1;
      ClosedOfIsExact(slots[..n]);
      ClosedPush(slots, n);
    }
  }

  lemma ClosedPush(slots: Slab, n: nat)
    requires |slots| == n + 1
    ensures Closed(slots) == Closed(slots[..n]) + (if slots[n].Some? && slots[n].value.closed then {n} else {})
  {
  }

  function Swept(slots: Slab): Slab {
    seq(|slots|, h requires 0 <= h < |slots| =>
      if slots[h].Some? && slots[h].value.closed then None else slots[h])
  }

  function Removals(slots: Slab, handles: seq<nat>): seq<Op> {
    if handles == [] then []
    else
      var h := handles[|handles| - 1];
      Removals(slots, handles[..|handles| - 1]) + [Remove(if Holds(slots, h) then slots[h].value.serial else 0)]
  }

  lemma RunRemovals(t: Table, slots: Slab, handles: seq<nat>, h: nat)
    requires Holds(slots, h)
    ensures Run(t, Removals(slots, handles + [h])) == Apply(Run(t, Removals(slots, handles)), Remove(slots[h].value.serial))
  {
    assert (handles + [h])[..|handles|] == handles;
    var ops := Removals(slots, handles);
    assert (ops + [Remove(slots[h].value.serial)])[..|ops|] == ops;
  }

  /** Emptying the listed slots empties exactly the slots of closed connections. */
  lemma SweepIsVacate(slots: Slab)
    ensures Vacate(slots, ClosedOf(slots)) == Swept(slots)
    ensures Members(ClosedOf(slots)) == Closed(slots)
  {
    ClosedOfIsExact(slots);
    forall h | 0 <= h < |slots|
      ensures Vacate(slots, ClosedOf(slots))[h] == Swept(slots)[h]
    {
      VacateAt(slots, ClosedOf(slots), h);
    }
    forall h ensures h in Members(ClosedOf(slots)) <==> h in Closed(slots) {
      MembersMeans(ClosedOf(slots), h);
    }
  }

  class ConnectionMap {
    var byDcid: map<Cid, nat>
    var slots: Slab
    const maxConnections: nat
    ghost var table: Table

    ghost predicate Valid()
      reads this
    {
      && TableOk(table)
      && Refines(byDcid, slots, table)
      && Count(slots) <= maxConnections
    }

    constructor (max: nat)
      ensures Valid() && table == EMPTY && maxConnections == max
    {
      byDcid := map[];
      slots := [];
      maxConnections := max;
      table := EMPTY;
    }

    /** A packet reaches the connection that the ideal table names, or none. */
    method RoutePacket(dcid: Cid) returns (handle: Option<nat>)
      requires Valid()
      ensures handle.Some? <==> dcid in table.routes
      ensures handle.Some? ==> Holds(slots, handle.value) && slots[handle.value].value.serial == table.routes[dcid]
    {
      handle := if dcid in byDcid then Some(byDcid[dcid]) else None;
    }

    method AddDcid(handle: nat, dcid: Cid)
      requires Valid()
      modifies this
      ensures Valid() && slots == old(slots)
      ensures table == if Holds(slots, handle) then Apply(old(table), Register(slots[handle].value.serial, dcid)) else old(table)
    {
      if handle < |slots| && slots[handle].Some? {
        RegisterRefines(byDcid, slots, table, handle, dcid);
        byDcid := byDcid[dcid := handle];
        table := Apply(table, Register(slots[handle].value.serial, dcid));
      }
    }

    method RemoveDcid(dcid: Cid)
      requires Valid()
      modifies this
      ensures Valid() && slots == old(slots) && table == Apply(old(table), Unregister(dcid))
      ensures dcid !in table.routes && dcid !in byDcid
      ensures forall c :: c != dcid ==> (c in byDcid <==> c in old(byDcid)) && (c in byDcid ==> byDcid[c] == old(byDcid)[c])
    {
      byDcid := byDcid - {dcid};
      table := Apply(table, Unregister(dcid));
    }

    /** `connectable` says whether quiche accepts, `slot` which free slot the slab hands out,
        and `identity` names the new connection object. */
    method AcceptNew(scid: Cid, connectable: bool, slot: nat, identity: Serial) returns (handle: Option<nat>)
      requires Valid() && Free(slots, slot) && identity == table.next
      modifies this
      ensures Valid()
      ensures handle.Some? <==> old(Count(slots)) < maxConnections && connectable
      ensures handle.None? ==> table == old(table) && slots == old(slots) && byDcid == old(byDcid)
      ensures handle.Some? ==>
        && table == Apply(old(table), Accept(scid))
        && slots == Put(old(slots), slot, Connection(identity, false))
        && handle == Some(slot)
    {
      if Count(slots) >= maxConnections || !connectable {
        return None;
      }
      AcceptRefines(byDcid, slots, table, scid, slot);
      CountPut(slots, slot, Connection(identity, false));
      slots := Put(slots, slot, Connection(identity, false));
      byDcid := byDcid[scid := slot];
      table := Apply(table, Accept(scid));
      return Some(slot);
    }

    /** `get_mut`: the owner of a handle may close its connection. */
    method MarkClosed(handle: nat)
      requires Valid() && Holds(slots, handle)
      modifies `slots
      ensures Valid() && slots == old(slots)[handle := Some(old(slots)[handle].value.(closed := true))]
    {
      CountUpdate(slots, handle, Some(slots[handle].value.(closed := true)));
      MarkRefines(byDcid, slots, table, handle);
      slots := slots[handle := Some(slots[handle].value.(closed := true))];
    }

    method Remove(handle: nat) returns (conn: Option<Connection>)
      requires Valid()
      modifies this
      ensures Valid()
      ensures conn == if Holds(old(slots), handle) then old(slots)[handle] else None
      ensures conn.None? ==> slots == old(slots) && byDcid == old(byDcid) && table == old(table)
      ensures conn.Some? ==>
        && slots == old(slots)[handle := None]
        && byDcid == Without(old(byDcid), {handle})
        && table == Apply(old(table), Op.Remove(conn.value.serial))
    {
      if handle >= |slots| || slots[handle].None? {
        return None;
      }
      conn := slots[handle];
      CountUpdate(slots, handle, None);
      RemoveRefines(byDcid, slots, table, handle);
      slots := slots[handle := None];
      byDcid := Without(byDcid, {handle});
      table := Apply(table, Op.Remove(conn.value.serial));
    }

    /** Removes exactly the closed connections, in slot order, and leaves every route of the
        others as it was. */
    method DrainClosed() returns (drained: seq<(nat, Connection)>)
      requires Valid()
      modifies this
      ensures Valid()
      ensures drained == Entries(old(slots), ClosedOf(old(slots)))
      ensures slots == Swept(old(slots))
      ensures byDcid == Without(old(byDcid), Closed(old(slots)))
      ensures table == Run(old(table), Removals(old(slots), ClosedOf(old(slots))))
    {
      var closed := [];
      for i := 0 to |slots|
        invariant closed == ClosedOf(slots[..i])
      {
        assert slots[..i + 1][..i] == slots[..i];
        if slots[i].Some? && slots[i].value.closed {
          closed := closed + [i];
        }
      }
      assert slots[..|slots|] == slots;
      ClosedOfIsExact(slots);
      drained := RemoveAll(closed);
      SweepIsVacate(old(slots));
    }

    method RemoveAll(closed: seq<nat>) returns (drained: seq<(nat, Connection)>)
      requires Valid() && Ascending(closed) && forall j :: 0 <= j < |closed| ==> Holds(slots, closed[j])
      modifies this
      ensures Valid()
      ensures drained == Entries(old(slots), closed)
      ensures slots == Vacate(old(slots), closed)
      ensures byDcid == Without(old(byDcid), Members(closed))
      ensures table == Run(old(table), Removals(old(slots), closed))
    {
      drained := [];
      for j := 0 to |closed|
        invariant Valid()
        invariant drained == Entries(old(slots), closed[..j])
        invariant slots == Vacate(old(slots), closed[..j])
        invariant byDcid == Without(old(byDcid), Members(closed[..j]))
        invariant table == Run(old(table), Removals(old(slots), closed[..j]))
      {
        ghost var was, rest := old(slots), closed[..j];
        assert Holds(was, closed[j]) && closed[j] !in rest;
        VacateAt(was, rest, closed[j]);
        assert closed[..j + 1][..j] == rest;
        RunRemovals(old(table), was, rest, closed[j]);
        WithoutMore(old(byDcid), Members(rest), closed[j]);
        var conn := Remove(closed[j]);
        drained := drained + [(closed[j], conn.value)];
      }
      assert closed[..|closed|] == closed;
    }
  }
}
