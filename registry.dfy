/** The process-wide connection registry: the `globalConnectionId` counter and
    the `connections` table from session id to front transport, which `stop`
    walks to force every live front transport closed. */
module Registry {
  import opened Relay

  const MAX_CONNECTIONS: nat := 50000

  /** An accepted front transport (client socket or tunnel connection), named by the environment. */
  type Conn = nat

  /** What `stop` does to one live front transport. */
  datatype Shutdown = Destroy(conn: Conn) | Terminate(conn: Conn)

  /** Local relays destroy their client sockets; server relays terminate their tunnels. */
  function ShutdownOf(isLocal: bool, c: Conn): (s: Shutdown)
    ensures s.conn == c
    ensures s.Destroy? <==> isLocal
  {
    if isLocal then Destroy(c) else Terminate(c)
  }

  /** The shutdowns for the non-null slots with ids below `n`, in ascending id order. */
  function ShutdownsBelow(slots: map<int, Option<Conn>>, isLocal: bool, n: nat): seq<Shutdown>
  {
    if n == 0 then []
    else
      var k := n - 1;
      ShutdownsBelow(slots, isLocal, k) +
        (if k in slots && slots[k].Some? then [ShutdownOf(isLocal, slots[k].value)] else [])
  }

  /** `ShutdownsBelow` names exactly the front transports held by non-null slots below `n`. */
  lemma {:induction false} ShutdownsBelowExact(slots: map<int, Option<Conn>>, isLocal: bool, n: nat, s: Shutdown)
    ensures s in ShutdownsBelow(slots, isLocal, n) <==>
            s == ShutdownOf(isLocal, s.conn) && exists k :: 0 <= k < n && k in slots && slots[k] == Some(s.conn)
  {
    if n > 0 {
      ShutdownsBelowExact(slots, isLocal, n - 1, s);
      if n - 1 in slots && slots[n - 1] == Some(s.conn) && s == ShutdownOf(isLocal, s.conn) {
        assert s in ShutdownsBelow(slots, isLocal, n);
      }
    }
  }

  /** The id a session accepted when the counter reads `counter`. */
  function SlotOf(counter: int): (id: int)
    ensures 0 <= id < MAX_CONNECTIONS
  {
    counter % MAX_CONNECTIONS
  }

  /** Ids are distinct across any MAX_CONNECTIONS consecutive accepts, and the
      next accept after that reuses the first one's id: the registry then aliases
      two sessions in one slot. */
  lemma SlotsWithinWindow(a: int, b: int)
    requires a < b
    ensures b < a + MAX_CONNECTIONS ==> SlotOf(a) != SlotOf(b)
    ensures b == a + MAX_CONNECTIONS ==> SlotOf(a) == SlotOf(b)
  {
    var qa, qb := a / MAX_CONNECTIONS, b / MAX_CONNECTIONS;
    assert a == qa * MAX_CONNECTIONS + SlotOf(a);
    assert b == qb * MAX_CONNECTIONS + SlotOf(b);
    if b < a + MAX_CONNECTIONS && SlotOf(a) == SlotOf(b) {
      assert false;
    }
  }

  class ConnectionRegistry {
    /** `globalConnectionId`: the counter the next accepted session draws from. */
    var nextId: int
    /** `connections`: a slot is set on accept and nulled, never removed, on close. */
    var slots: map<int, Option<Conn>>

    ghost predicate Valid()
      reads this
    {
      nextId >= 1 && forall k :: k in slots ==> 0 <= k < MAX_CONNECTIONS
    }

    constructor ()
      ensures Valid() && nextId == 1 && slots == map[]
    {
      nextId := 1;
      slots := map[];
    }

    /** A new front transport takes the slot the counter names, modulo the table
        size, overwriting whatever that slot held; the counter moves on by one. */
    method Accept(conn: Conn) returns (id: int)
      requires Valid()
      modifies this
      ensures Valid()
      ensures id == SlotOf(old(nextId)) && nextId == old(nextId) + 1
      ensures slots == old(slots)[id := Some(conn)]
    {
      id := nextId % MAX_CONNECTIONS;
      nextId := nextId + 1;
      slots := slots[id := Some(conn)];
    }

    /** A closing session empties the slot of its own id; the key stays in the
        table, and the slot is emptied even if a newer session now holds it. */
    method Release(id: int)
      requires Valid() && 0 <= id < MAX_CONNECTIONS
      modifies this
      ensures Valid()
      ensures nextId == old(nextId) && slots == old(slots)[id := None]
    {
      slots := slots[id := None];
    }

    /** The loop of `stop`: when a listener exists, every non-null slot's front
        transport is destroyed (local) or terminated (server), once, in ascending
        id order; null slots are skipped. The table itself is left as it is. */
    method Stop(hasServer: bool, isLocal: bool) returns (acts: seq<Shutdown>)
      requires Valid()
      ensures !hasServer ==> acts == []
      ensures hasServer ==> acts == ShutdownsBelow(slots, isLocal, MAX_CONNECTIONS)
      ensures hasServer ==> forall k :: k in slots && slots[k].Some? ==> ShutdownOf(isLocal, slots[k].value) in acts
      ensures forall s :: s in acts ==> s == ShutdownOf(isLocal, s.conn) && Some(s.conn) in slots.Values
    {
      acts := [];
      if hasServer {
        var k := 0;
        while k < MAX_CONNECTIONS
          invariant 0 <= k <= MAX_CONNECTIONS
          invariant acts == ShutdownsBelow(slots, isLocal, k)
        {
          if k in slots && slots[k].Some? {
            acts := acts + [ShutdownOf(isLocal, slots[k].value)];
          }
          k := k + 1;
        }
        forall k | k in slots && slots[k].Some?
          ensures ShutdownOf(isLocal, slots[k].value) in acts
        {
          ShutdownsBelowExact(slots, isLocal, MAX_CONNECTIONS, ShutdownOf(isLocal, slots[k].value));
        }
        forall s | s in acts
          ensures s == ShutdownOf(isLocal, s.conn) && Some(s.conn) in slots.Values
        {
          ShutdownsBelowExact(slots, isLocal, MAX_CONNECTIONS, s);
          var k :| 0 <= k < MAX_CONNECTIONS && k in slots && slots[k] == Some(s.conn);
          assert slots[k] in slots.Values;
        }
      }
    }
  }
}
