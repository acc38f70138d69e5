/** The WebSocket hub (backend/websocket/hub.go): which clients listen to which room, and
    what registering, unregistering and broadcasting do to them. The hub's channels and its
    goroutine are abstracted away; each case of the Run loop is one method. A client's send
    channel is its buffer of queued messages, with the capacity the connection handler gives
    it, plus a flag for a closed channel. */
module RoomHub {
  type RoomId = nat
  type UserId = nat
  type Message = seq<bv8>

  /** The capacity of a client's send channel. */
  const SendCapacity: nat := 256

  class Client {
    const user: UserId
    const room: RoomId
    /** Messages queued on the send channel and not yet written to the socket. */
    var buffer: seq<Message>
    var closed: bool

    /** A new connection with an empty, open send channel. */
    constructor (user: UserId, room: RoomId)
      ensures this.user == user && this.room == room
      ensures buffer == [] && !closed
    {
      this.user := user;
      this.room := room;
      buffer := [];
      closed := false;
    }

    /** close(client.send). Closing a closed channel panics in Go, so it is refused here. */
    method Close()
      requires !closed
      modifies this`closed
      ensures closed
    {
      closed := true;
    }
  }

  class Hub {
    /** Room id to the set of clients registered under it. */
    var rooms: map<RoomId, set<Client>>

    /** Every client registered under some room. */
    ghost function Registered(): set<Client>
      reads this
    {
      set r, c | r in rooms && c in rooms[r] :: c
    }

    /** A registered client sits under its own room, its channel is open and holds no more
        than the channel's capacity. */
    ghost predicate Valid()
      reads this, Registered()
    {
      forall r, c :: r in rooms && c in rooms[r] ==>
        c.room == r && !c.closed && |c.buffer| <= SendCapacity
    }

    /** The clients registered under one room. */
    ghost function ClientsOf(room: RoomId): set<Client>
      reads this
    {
      set c | c in Registered() && c.room == room
    }

    constructor ()
      ensures rooms == map[] && Valid()
    {
      rooms := map[];
    }

    /** The register case: the client is added under exactly its own room, and the room's set
        is created when there is none. */
    method Register(c: Client)
      requires Valid() && !c.closed && |c.buffer| <= SendCapacity
      modifies this`rooms
      ensures c.room in rooms && c in rooms[c.room]
      ensures rooms == old(rooms)[c.room := (if c.room in old(rooms) then old(rooms)[c.room] else {}) + {c}]
      ensures Valid()
    {
      var clients: set<Client> := if c.room in rooms then rooms[c.room] else {};
      rooms := rooms[c.room := clients + {c}];
    }

    /** The unregister case: a registered client is removed and its channel closed, and its
        room's entry goes when the set is left empty. A client that is not registered (one a
        broadcast already dropped) is left alone, so no channel is closed twice. */
    method Unregister(c: Client)
      requires Valid()
      modifies this`rooms, c`closed
      ensures c.room in old(rooms) && c in old(rooms)[c.room] ==>
                && old(!c.closed) && c.closed
                && var rest := old(rooms[c.room]) - {c};
                   rooms == if rest == {} then old(rooms) - {c.room} else old(rooms)[c.room := rest]
      ensures !(c.room in old(rooms) && c in old(rooms)[c.room]) ==> rooms == old(rooms) && c.closed == old(c.closed)
      ensures Valid()
    {
      if c.room in rooms && c in rooms[c.room] {
        var rest := rooms[c.room] - {c};
        c.Close();
        if rest == {} {
          rooms := rooms - {c.room};
        } else {
          rooms := rooms[c.room := rest];
        }
      }
    }

    /** The broadcast case: every client of the room whose channel has room takes the message;
        each full one is closed and removed. Other rooms are untouched, an unknown room is a
        no-op, and the room's entry stays even when every client is dropped. */
    method Broadcast(room: RoomId, msg: Message)
      requires Valid()
      modifies this`rooms, if room in rooms then rooms[room] else {}
      ensures room !in old(rooms) ==> rooms == old(rooms)
      ensures room in old(rooms) ==>
                && room in rooms && rooms == old(rooms)[room := rooms[room]]
                && rooms[room] <= old(rooms)[room]
                && forall c :: c in old(rooms)[room] ==>
                     if |old(c.buffer)| < SendCapacity then
                       c in rooms[room] && c.buffer == old(c.buffer) + [msg] && !c.closed
                     else
                       c !in rooms[room] && c.buffer == old(c.buffer) && c.closed
      ensures Valid()
    {
      if room !in rooms {
        return;
      }
      ghost var clients := rooms[room];
      var todo := rooms[room];
      while todo != {}
        invariant room in rooms && rooms == old(rooms)[room := rooms[room]]
        invariant todo <= clients && rooms[room] <= clients
        invariant forall c :: c in todo ==> c in rooms[room] && c.buffer == old(c.buffer) && c.closed == old(c.closed)
        invariant forall c :: c in clients && c !in todo ==>
                    if |old(c.buffer)| < SendCapacity then
                      c in rooms[room] && c.buffer == old(c.buffer) + [msg] && !c.closed
                    else
                      c !in rooms[room] && c.buffer == old(c.buffer) && c.closed
        decreases |todo|
      {
        var c :| c in todo;
        todo := todo - {c};
        if |c.buffer| < SendCapacity {
          c.buffer := c.buffer + [msg];
        } else {
          c.Close();
          rooms := rooms[room := rooms[room] - {c}];
        }
      }
    }

    /** GetRoomClientCount: the size of the room's set, 0 for a room with no entry. */
    function ClientCount(room: RoomId): (n: nat)
      reads this
      ensures n == 0 <==> room !in rooms || rooms[room] == {}
    {
      if room in rooms then |rooms[room]| else 0
    }
  }

  /** The count is the number of registered clients whose room it is, so a room emptied by a
      broadcast reports 0 although its entry remains. */
  lemma ClientCountIsRegistered(h: Hub, room: RoomId)
    requires h.Valid()
    ensures h.ClientCount(room) == |h.ClientsOf(room)|
  {
    if room in h.rooms {
      assert h.ClientsOf(room) == h.rooms[room];
    } else {
      assert h.ClientsOf(room) == {};
    }
  }
}
