/**
 * The per-room server of party/server.ts: the single stored hand-raise slot,
 * the three transactions that change it (raise, lower, alarm), and the
 * broadcasts that push the member list and the slot to every connection.
 *
 * `Date.now()` is the parameter `now`; the host's connection list is the field
 * `connections`; `conn.send` appends to the field `outbox`.
 */
module PartyServer {
  import opened Wrappers
  import opened Messages

  /** Added to the timeout when the expiry alarm is armed (server.ts:42). */
  const AlarmGraceMilliseconds: int := 250

  /**
   * A connection as the host presents it: an identity and the decoded query
   * parameters of its URI, in order.
   */
  datatype Connection = Connection(id: nat, query: seq<(string, string)>)

  /** One `conn.send`: the message and the connection it went to. */
  datatype Delivery = Delivery(to: Connection, message: ServerMessage)

  /** A client message after `JSON.parse`. */
  datatype Inbound =
    | Malformed                      // JSON.parse throws, or the value is null
    | Parsed(typeTag: Option<string>) // the string `type` field, if any

  // ---------------------------------------------------------------------------
  // Connection identity (server.ts:141-144)

  /** `URLSearchParams.get(key)`: the value of the first parameter named `key`. */
  function QueryGet(query: seq<(string, string)>, key: string): (r: Option<string>)
    ensures r.None? <==> forall i :: 0 <= i < |query| ==> query[i].0 != key
    ensures r.Some? ==> exists i :: 0 <= i < |query| && query[i] == (key, r.value) &&
                                    forall j :: 0 <= j < i ==> query[j].0 != key
    decreases |query|
  {
    if |query| == 0 then None
    else if query[0].0 == key then Some(query[0].1)
    else
      var r := QueryGet(query[1..], key);
      assert forall i :: 1 <= i < |query| ==> query[i] == query[1..][i - 1];
      r
  }

  /** `getConnectionUsername`: the first `username` query value, or "" when there is none. */
  function Username(conn: Connection): (name: string)
    ensures (forall i :: 0 <= i < |conn.query| ==> conn.query[i].0 != "username") ==> name == ""
    ensures (exists i :: 0 <= i < |conn.query| && conn.query[i].0 == "username") ==>
              exists i :: 0 <= i < |conn.query| && conn.query[i] == ("username", name) &&
                          forall j :: 0 <= j < i ==> conn.query[j].0 != "username"
  {
    QueryGet(conn.query, "username").GetOr("")
  }

  // ---------------------------------------------------------------------------
  // The three slot transitions, as predicates and new values

  /** The comparison shared by raise-hand and the alarm: `ts < now - timeout` (server.ts:35-36, 95-96). */
  predicate Stale(h: HandState, now: int)
  {
    h.timestampMilliseconds < now - RaiseHandTimeoutMilliseconds
  }

  /** Raise-hand is granted: the slot was never written, or its timestamp is stale (server.ts:33-37). */
  predicate CanRaise(slot: Option<HandState>, now: int)
    // free: never written, or more than the timeout has passed since its stamp
    ensures CanRaise(slot, now) <==>
              slot.None? || now - slot.value.timestampMilliseconds > RaiseHandTimeoutMilliseconds
  {
    slot.None? || Stale(slot.value, now)
  }

  /** Lower-hand succeeds: the requester holds the slot and `ts > now - timeout` (server.ts:52-57). */
  predicate CanLower(slot: Option<HandState>, who: string, now: int)
    // a hand its holder may still lower can be neither claimed nor expired at that instant
    ensures CanLower(slot, who, now) ==> !CanRaise(slot, now) && !CanExpire(slot, now)
  {
    && slot.Some?
    && slot.value.username == who
    && slot.value.timestampMilliseconds > now - RaiseHandTimeoutMilliseconds
  }

  /** The alarm lowers the hand: the slot exists and is stale (server.ts:93-97). */
  predicate CanExpire(slot: Option<HandState>, now: int)
    // a written slot is due for the alarm exactly when it is free for raise-hand
    ensures CanExpire(slot, now) <==> slot.Some? && CanRaise(slot, now)
  {
    slot.Some? && Stale(slot.value, now)
  }

  /** The slot after a raise-hand by `who` at `now` (server.ts:38-41). */
  function Raised(slot: Option<HandState>, who: string, now: int): (r: Option<HandState>)
    ensures r.Some?
    ensures r == slot || r == Some(HandState(who, now))
  {
    if CanRaise(slot, now) then Some(HandState(who, now)) else slot
  }

  /** The slot after a lower-hand by `who` at `now` (server.ts:58-61). */
  function Lowered(slot: Option<HandState>, who: string, now: int): (r: Option<HandState>)
    ensures r.None? <==> slot.None?
    ensures r.Some? ==> r.value.username == slot.value.username
    ensures r == slot || r == Some(HandState(who, 0))
  {
    if CanLower(slot, who, now) then Some(HandState(who, 0)) else slot
  }

  /** The slot after the alarm fires at `now`: the holder's name is kept (server.ts:98-101). */
  function Expired(slot: Option<HandState>, now: int): (r: Option<HandState>)
    ensures r.None? <==> slot.None?
    ensures r.Some? ==> r.value.username == slot.value.username
    ensures r == slot || r.value.timestampMilliseconds == 0
  {
    if CanExpire(slot, now) then Some(HandState(slot.value.username, 0)) else slot
  }

  /** The time a granted raise-hand at `now` arms the alarm for (server.ts:42). */
  function AlarmTime(now: int): (t: int)
    // strictly past the timeout, so the grant it was armed for is stale when it fires
    ensures forall who :: Stale(HandState(who, now), t)
  {
    now + RaiseHandTimeoutMilliseconds + AlarmGraceMilliseconds
  }

  /** What `msg.type` selects (server.ts:30, 49, 68): one of the two intents, or nothing. */
  function Intent(typeTag: Option<string>): (r: Option<ClientMessage>)
    ensures r.Some? ==> typeTag == Some(ClientMessageType(r.value))
    ensures forall m :: typeTag == Some(ClientMessageType(m)) ==> r == Some(m)
  {
    if typeTag == Some("raise-hand") then Some(RaiseHand)
    else if typeTag == Some("lower-hand") then Some(LowerHand)
    else None
  }

  // ---------------------------------------------------------------------------
  // Traces of slot transitions

  /** One slot transaction: a raise or lower request by a name, or the alarm, at a time. */
  datatype Event =
    | RaiseBy(who: string, now: int)
    | LowerBy(who: string, now: int)
    | AlarmAt(now: int)

  function Step(slot: Option<HandState>, e: Event): Option<HandState>
  {
    match e
    case RaiseBy(who, now) => Raised(slot, who, now)
    case LowerBy(who, now) => Lowered(slot, who, now)
    case AlarmAt(now) => Expired(slot, now)
  }

  /** The slot after the transactions `es`, applied one at a time in order. */
  function Run(slot: Option<HandState>, es: seq<Event>): Option<HandState>
    decreases |es|
  {
    if es == [] then slot else Run(Step(slot, es[0]), es[1..])
  }

  // ---------------------------------------------------------------------------
  // Broadcast payloads

  /** The user list built by the `push` loop: one entry per connection, in order (server.ts:109-112). */
  function UserListOf(conns: seq<Connection>): (users: seq<User>)
    ensures |users| == |conns|
    ensures forall i :: 0 <= i < |conns| ==> users[i] == User(Username(conns[i]))
    decreases |conns|
  {
    if conns == [] then []
    else UserListOf(conns[..|conns| - 1]) + [User(Username(conns[|conns| - 1]))]
  }

  /** One send of `m` to each connection, in connection order (server.ts:119-121, 133-135). */
  function FanOut(conns: seq<Connection>, m: ServerMessage): (ds: seq<Delivery>)
    ensures |ds| == |conns|
    ensures forall i :: 0 <= i < |conns| ==> ds[i] == Delivery(conns[i], m)
    decreases |conns|
  {
    if conns == [] then []
    else FanOut(conns[..|conns| - 1], m) + [Delivery(conns[|conns| - 1], m)]
  }

  /** A fan-out reaches every listed connection. */
  lemma FanOutReaches(conns: seq<Connection>, m: ServerMessage, c: Connection)
    requires c in conns
    ensures Delivery(c, m) in FanOut(conns, m)
  {
    var k :| 0 <= k < |conns| && conns[k] == c;
    assert FanOut(conns, m)[k] == Delivery(c, m);
  }

  /** What `broadcastHandState` sends: nothing when the slot was never written (server.ts:127-136). */
  function HandStateDeliveries(conns: seq<Connection>, slot: Option<HandState>): (ds: seq<Delivery>)
    ensures slot.None? ==> ds == []
    ensures slot.Some? ==> (|ds| == |conns| && forall i :: 0 <= i < |conns| ==>
                              ds[i] == Delivery(conns[i], BroadcastRaiseHand(slot.value)))
  {
    if slot.Some? then FanOut(conns, BroadcastRaiseHand(slot.value)) else []
  }

  /** The `push` loop of `brodcastUserList` (server.ts:109-112). */
  method CollectUsers(conns: seq<Connection>) returns (users: seq<User>)
    ensures |users| == |conns|
    ensures forall i :: 0 <= i < |conns| ==> users[i].username == Username(conns[i])
  {
    users := [];
    var i := 0;
    while i < |conns|
      invariant 0 <= i <= |conns|
      invariant users == UserListOf(conns[..i])
    {
      assert conns[..i + 1][..i] == conns[..i];
      users := users + [User(Username(conns[i]))];
      i := i + 1;
    }
    assert conns[..i] == conns;
  }

  // ---------------------------------------------------------------------------
  // The room server

  class Server {
    /** The `HAND_STATE` storage key: absent until the first granted raise-hand. */
    var handState: Option<HandState>
    /** The time of the most recently armed wake-up; `setAlarm` replaces it. */
    var alarm: Option<int>
    /** `room.getConnections()`, in the host's order; the host maintains it. */
    var connections: seq<Connection>
    /** Every message sent so far, in sending order. */
    var outbox: seq<Delivery>

    /**
     * Whenever a hand is raised, the alarm is armed for its expiry. Every
     * transaction keeps this, and it is what makes the alarm lower the hand.
     */
    ghost predicate Armed()
      reads this
    {
      handState.Some? && handState.value.timestampMilliseconds != 0 ==>
        alarm == Some(AlarmTime(handState.value.timestampMilliseconds))
    }

    constructor ()
      ensures handState == None && alarm == None
      ensures connections == [] && outbox == []
      ensures Armed()
    {
      handState := None;
      alarm := None;
      connections := [];
      outbox := [];
    }

    /** The raise-hand transaction (server.ts:31-48). */
    method RaiseHandTransaction(who: string, now: int) returns (granted: bool)
      modifies this`handState, this`alarm
      ensures granted == CanRaise(old(handState), now)
      ensures handState == Raised(old(handState), who, now)
      ensures granted ==> handState == Some(HandState(who, now)) && alarm == Some(AlarmTime(now))
      ensures !granted ==> handState == old(handState) && alarm == old(alarm)
      ensures old(Armed()) ==> Armed()
    {
      if handState == None || handState.value.timestampMilliseconds < now - RaiseHandTimeoutMilliseconds {
        handState := Some(HandState(who, now));
        alarm := Some(now + RaiseHandTimeoutMilliseconds + AlarmGraceMilliseconds);
        return true;
      }
      return false;
    }

    /** The lower-hand transaction (server.ts:50-67). */
    method LowerHandTransaction(who: string, now: int) returns (released: bool)
      modifies this`handState
      ensures released == CanLower(old(handState), who, now)
      ensures handState == Lowered(old(handState), who, now)
      ensures released ==> handState == Some(HandState(who, 0))
      ensures !released ==> handState == old(handState)
      ensures old(Armed()) ==> Armed()
    {
      if handState != None && handState.value.username == who &&
         handState.value.timestampMilliseconds > now - RaiseHandTimeoutMilliseconds {
        handState := Some(HandState(who, 0));
        return true;
      }
      return false;
    }

    /** `conn.send(m)` for every connection, in order. */
    method SendToAll(m: ServerMessage)
      modifies this`outbox
      ensures outbox == old(outbox) + FanOut(connections, m)
    {
      var i := 0;
      while i < |connections|
        invariant 0 <= i <= |connections|
        invariant outbox == old(outbox) + FanOut(connections[..i], m)
      {
        assert connections[..i + 1][..i] == connections[..i];
        outbox := outbox + [Delivery(connections[i], m)];
        i := i + 1;
      }
      assert connections[..i] == connections;
    }

    /** `brodcastUserList` (server.ts:107-123). */
    method BroadcastUserList()
      modifies this`outbox
      ensures outbox == old(outbox) + FanOut(connections, UserList(UserListOf(connections)))
    {
      var users := CollectUsers(connections);
      assert users == UserListOf(connections);
      SendToAll(UserList(users));
    }

    /** `broadcastHandState` (server.ts:125-138). */
    method BroadcastHandState()
      modifies this`outbox
      ensures outbox == old(outbox) + HandStateDeliveries(connections, handState)
    {
      if handState.Some? {
        SendToAll(BroadcastRaiseHand(handState.value));
      }
    }

    /**
     * `onConnect` (server.ts:20-24): the member list, then the slot, to
     * everyone. The host lists the new connection before it calls this, so the
     * newcomer receives both, and with them a slot written before it joined.
     */
    method OnConnect(conn: Connection)
      requires conn in connections
      modifies this`outbox
      ensures outbox == old(outbox) + FanOut(connections, UserList(UserListOf(connections)))
                                    + HandStateDeliveries(connections, handState)
      ensures Delivery(conn, UserList(UserListOf(connections))) in outbox
      ensures handState.Some? ==> Delivery(conn, BroadcastRaiseHand(handState.value)) in outbox
    {
      ghost var before := outbox;
      BroadcastUserList();
      ghost var lists := outbox[|before|..];
      FanOutReaches(connections, UserList(UserListOf(connections)), conn);
      assert outbox == before + lists;
      BroadcastHandState();
      if handState.Some? {
        FanOutReaches(connections, BroadcastRaiseHand(handState.value), conn);
      }
    }

    /** `onClose` (server.ts:79-82): the member list to every connection the host lists. */
    method OnClose(conn: Connection)
      modifies this`outbox
      ensures outbox == old(outbox) + FanOut(connections, UserList(UserListOf(connections)))
    {
      BroadcastUserList();
    }

    /** `onError` (server.ts:84-87): as `onClose`. */
    method OnError(conn: Connection)
      modifies this`outbox
      ensures outbox == old(outbox) + FanOut(connections, UserList(UserListOf(connections)))
    {
      BroadcastUserList();
    }

    /**
     * `onMessage` (server.ts:26-72). A message that does not parse throws before
     * anything happens; any parsed message, recognised or not, ends with a
     * broadcast of the slot.
     */
    method OnMessage(raw: Inbound, sender: Connection, now: int)
      modifies this`handState, this`alarm, this`outbox
      ensures raw.Malformed? ==>
                handState == old(handState) && alarm == old(alarm) && outbox == old(outbox)
      ensures raw.Parsed? && Intent(raw.typeTag) == Some(RaiseHand) ==>
                handState == Raised(old(handState), Username(sender), now) &&
                alarm == (if CanRaise(old(handState), now) then Some(AlarmTime(now)) else old(alarm))
      ensures raw.Parsed? && Intent(raw.typeTag) == Some(LowerHand) ==>
                handState == Lowered(old(handState), Username(sender), now) && alarm == old(alarm)
      ensures raw.Parsed? && Intent(raw.typeTag) == None ==>
                handState == old(handState) && alarm == old(alarm)
      ensures raw.Parsed? ==> outbox == old(outbox) + HandStateDeliveries(connections, handState)
      ensures old(Armed()) ==> Armed()
    {
      if raw.Malformed? {
        return;
      }
      var intent := Intent(raw.typeTag);
      if intent == Some(RaiseHand) {
        var _ := RaiseHandTransaction(Username(sender), now);
      } else if intent == Some(LowerHand) {
        var _ := LowerHandTransaction(Username(sender), now);
      }
      BroadcastHandState();
    }

    /**
     * `onAlarm` (server.ts:89-105). When the host fires the armed alarm no
     * earlier than its time, the hand is lowered.
     */
    method OnAlarm(now: int)
      modifies this`handState, this`outbox
      ensures handState == Expired(old(handState), now)
      ensures outbox == old(outbox) + HandStateDeliveries(connections, handState)
      ensures old(Armed()) ==> Armed()
      ensures old(Armed()) && old(alarm).Some? && now >= old(alarm).value ==>
                handState.None? || handState.value.timestampMilliseconds == 0
    {
      if handState != None && handState.value.timestampMilliseconds < now - RaiseHandTimeoutMilliseconds {
        handState := Some(HandState(handState.value.username, 0));
      }
      BroadcastHandState();
    }
  }
}
