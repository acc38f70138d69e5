/** The room service across rooms (backend/services/room_service.go): creating a room with
    a fresh code, finding and returning to a user's last room, and the periodic sweep that
    dissolves inactive rooms. The set of rooms is a sequence of distinct Room objects. */
module Rooms {
  import opened Common
  import opened Models
  import opened Ledger
  import opened RoomCode

  /** CreateRoom draws at most this many codes. */
  const CodeAttempts: nat := 10

  /** Well-formed random draws for the code loop, one per attempt. */
  predicate Draws(draws: seq<nat>) {
    |draws| == CodeAttempts && forall k :: 0 <= k < |draws| ==> draws[k] < DrawRange
  }

  /** The code loop of CreateRoom: the first drawn code that no active room uses; when all
      ten are in use the last one is kept anyway. */
  method PickRoomCode(draws: seq<nat>, inUse: set<string>) returns (code: string, attempt: nat)
    requires Draws(draws)
    ensures attempt < CodeAttempts && code == GenerateRoomCode(draws[attempt])
    ensures forall k :: 0 <= k < attempt ==> GenerateRoomCode(draws[k]) in inUse
    ensures code in inUse ==> attempt == CodeAttempts - 1
    ensures code !in inUse <==> exists k :: 0 <= k < |draws| && GenerateRoomCode(draws[k]) !in inUse
  {
    var i := 0;
    code, attempt := GenerateRoomCode(draws[0]), 0;
    while i < CodeAttempts
      invariant 0 <= i <= CodeAttempts
      invariant forall k :: 0 <= k < i ==> GenerateRoomCode(draws[k]) in inUse
      invariant attempt < CodeAttempts && code == GenerateRoomCode(draws[attempt])
      invariant i > 0 ==> attempt == i - 1
    {
      code, attempt := GenerateRoomCode(draws[i]), i;
      if code !in inUse {
        break;
      }
      i := i + 1;
    }
  }

  /** CreateRoom: a new active room under the picked code, holding the creation operation,
      after which the creator joins it. */
  method CreateRoom(id: RoomId, creator: UserId, roomType: string, chipRate: string,
                    draws: seq<nat>, inUse: set<string>, now: Time) returns (room: Room)
    requires Draws(draws)
    ensures fresh(room) && room.Valid()
    ensures exists k :: 0 <= k < |draws| && room.code == GenerateRoomCode(draws[k])
    ensures (exists k :: 0 <= k < |draws| && GenerateRoomCode(draws[k]) !in inUse) ==> room.code !in inUse
    ensures room.id == id && room.roomType == roomType && room.chipRate == chipRate
    ensures room.createdBy == creator && room.createdAt == now && room.status == Active
    ensures room.members == [Membership(creator, now, None, Online)]
    ensures room.balances == [BalanceRow(creator, 0)]
    ensures room.ops == [Operation(creator, CreateOp, None, None, [], now),
                         Operation(creator, JoinOp, None, None, [], now)]
    ensures room.events == [MemberJoined(creator, now)]
    ensures room.Holdings() == 0 && Pot(room.ops) == 0
  {
    var code, attempt := PickRoomCode(draws, inUse);
    room := new Room(id, code, roomType, chipRate, creator, now);
    var joined := room.Join(creator, now);
  }

  // ---------------------------------------------------------------------------
  // The last room of a user
  // ---------------------------------------------------------------------------

  /** Membership row i of room k is an open membership of u. */
  predicate OpenAt(tables: seq<seq<Membership>>, u: UserId, k: int, i: int) {
    0 <= k < |tables| && 0 <= i < |tables[k]| && tables[k][i].user == u && tables[k][i].leftAt.None?
  }

  /** The membership table of every room. */
  function Tables(rooms: seq<Room>): (t: seq<seq<Membership>>)
    reads rooms
    ensures |t| == |rooms| && forall k :: 0 <= k < |rooms| ==> t[k] == rooms[k].members
  {
    seq(|rooms|, k requires 0 <= k < |rooms| reads rooms => rooms[k].members)
  }

  /** The open membership of u that joined last in one room's table; among equal join
      times the earliest row. */
  function LatestOpenIn(members: seq<Membership>, u: UserId): (r: Option<nat>)
    ensures r.None? <==> OpenMembership(members, u).None?
    ensures r.Some? ==> r.value < |members| && members[r.value].user == u && members[r.value].leftAt.None?
    ensures r.Some? ==> forall i :: 0 <= i < |members| && members[i].user == u && members[i].leftAt.None?
                          ==> members[i].joinedAt <= members[r.value].joinedAt
  {
    if |members| == 0 then None
    else
      var init := members[..|members| - 1];
      var last := |members| - 1;
      var t := LatestOpenIn(init, u);
      assert forall i :: 0 <= i < |init| ==> init[i] == members[i];
      if members[last].user != u || members[last].leftAt.Some? then t
      else if t.None? || members[t.value].joinedAt < members[last].joinedAt then Some(last)
      else t
  }

  /** The membership GetLastRoom finds: the open membership of u with the latest join time
      over all rooms, as a room index and a row index. */
  function LatestOpen(tables: seq<seq<Membership>>, u: UserId): (r: Option<(nat, nat)>)
    ensures r.None? <==> forall k, i :: !OpenAt(tables, u, k, i)
    ensures r.Some? ==> OpenAt(tables, u, r.value.0, r.value.1)
    ensures r.Some? ==> forall k, i :: OpenAt(tables, u, k, i) ==>
                          tables[k][i].joinedAt <= tables[r.value.0][r.value.1].joinedAt
  {
    if |tables| == 0 then None
    else
      var init := tables[..|tables| - 1];
      var last := |tables| - 1;
      var t := LatestOpen(init, u);
      var here := LatestOpenIn(tables[last], u);
      assert forall k :: 0 <= k < |init| ==> init[k] == tables[k];
      assert forall k, i :: OpenAt(init, u, k, i) <==> k < last && OpenAt(tables, u, k, i);
      if here.None? then
        assert forall i :: !OpenAt(tables, u, last, i);
        t
      else
        var best := tables[last][here.value].joinedAt;
        assert OpenAt(tables, u, last, here.value);
        assert forall i :: OpenAt(tables, u, last, i) ==> tables[last][i].joinedAt <= best;
        if t.None? then
          assert forall k, i :: OpenAt(tables, u, k, i) ==> k == last;
          Some((last, here.value))
        else if tables[t.value.0][t.value.1].joinedAt < best then
          assert forall k, i :: OpenAt(tables, u, k, i) && k < last ==> tables[k][i].joinedAt <= best;
          Some((last, here.value))
        else t
  }

  /** Pairwise distinct rooms. */
  predicate Distinct(rooms: seq<Room>) {
    forall j, k :: 0 <= j < k < |rooms| ==> rooms[j] != rooms[k]
  }

  ghost predicate AllValid(rooms: seq<Room>)
    reads rooms
  {
    forall k :: 0 <= k < |rooms| ==> rooms[k].Valid()
  }

  /** GetLastRoom: the room of u's latest open membership, refused when there is none or the
      room is no longer active; otherwise that membership goes online and a return operation
      is recorded in its room, and no other room changes. */
  method GetLastRoom(rooms: seq<Room>, u: UserId, now: Time) returns (r: Result<Room, LedgerError>)
    requires Distinct(rooms) && AllValid(rooms)
    modifies rooms
    ensures AllValid(rooms)
    ensures old(LatestOpen(Tables(rooms), u)).None? ==>
              r == Err(NoLastRoom) && forall k :: 0 <= k < |rooms| ==> unchanged(rooms[k])
    ensures old(LatestOpen(Tables(rooms), u)).Some? ==>
              var (k, i) := old(LatestOpen(Tables(rooms), u)).value;
              && (forall j :: 0 <= j < |rooms| && j != k ==> unchanged(rooms[j]))
              && (old(rooms[k].status) != Active ==> r == Err(RoomDissolved) && unchanged(rooms[k]))
              && (old(rooms[k].status) == Active ==>
                    && r == Ok(rooms[k])
                    && rooms[k].members == old(rooms[k].members)[i := old(rooms[k].members)[i].(status := Online)]
                    && rooms[k].ops == old(rooms[k].ops) + [Operation(u, ReturnOp, None, None, [], now)]
                    && rooms[k].events == old(rooms[k].events) + [MemberReturned(u, now)]
                    && rooms[k].balances == old(rooms[k].balances))
  {
    var found := LatestOpen(Tables(rooms), u);
    if found.None? {
      return Err(NoLastRoom);
    }
    var (k, i) := found.value;
    var room := rooms[k];
    if room.status != Active {
      return Err(RoomDissolved);
    }
    room.MarkReturned(i, now);
    r := Ok(room);
  }

  // ---------------------------------------------------------------------------
  // The inactivity sweep
  // ---------------------------------------------------------------------------

  /** What the inactivity sweep does to one room: an inactive room is dissolved now and
      settled automatically under its own batch id, exactly as CheckAndDissolve promises,
      with its members, balances' users, operations and bet records kept; any other room is
      left entirely as it was. */
  twostate predicate Swept(r: Room, now: Time, batchId: string)
    reads r
  {
    if old(r.Inactive(now)) then
      && r.status == Dissolved && r.dissolvedAt == Some(now)
      && r.balances == Zeroed(old(r.balances))
      && r.settlements == old(r.settlements)
           + BatchRows(AutoSettleRows(old(r.balances), Pot(old(r.ops))), r.chipRate,
                       AutoSettleTime(old(r.ops), r.createdAt, now), "auto-" + batchId)
      && r.events == old(r.events) + [RoomDissolvedEvent(now)]
      && r.members == old(r.members) && r.ops == old(r.ops) && r.betRecords == old(r.betRecords)
    else
      unchanged(r)
  }

  /** cleanupInactiveRooms: runs the inactivity check on every active room, each with its
      own settlement batch id; inactive rooms are dissolved and settled, the rest stay as
      they are. */
  method CleanupInactiveRooms(rooms: seq<Room>, now: Time, batchIds: seq<string>)
    requires Distinct(rooms) && AllValid(rooms) && |batchIds| == |rooms|
    modifies rooms
    ensures forall k :: 0 <= k < |rooms| ==> Swept(rooms[k], now, batchIds[k])
    ensures forall k :: 0 <= k < |rooms| ==>
              if old(rooms[k].Inactive(now)) then
                rooms[k].status == Dissolved && rooms[k].balances == Zeroed(old(rooms[k].balances))
              else
                rooms[k].status == old(rooms[k].status) && rooms[k].balances == old(rooms[k].balances)
                && rooms[k].settlements == old(rooms[k].settlements)
    ensures AllValid(rooms)
  {
    var i := 0;
    while i < |rooms|
      invariant 0 <= i <= |rooms|
      invariant AllValid(rooms)
      invariant forall k :: i <= k < |rooms| ==> unchanged(rooms[k])
      invariant forall k :: 0 <= k < i ==> Swept(rooms[k], now, batchIds[k])
      invariant forall k :: 0 <= k < i ==>
                  if old(rooms[k].Inactive(now)) then
                    rooms[k].status == Dissolved && rooms[k].balances == Zeroed(old(rooms[k].balances))
                  else
                    rooms[k].status == old(rooms[k].status) && rooms[k].balances == old(rooms[k].balances)
                    && rooms[k].settlements == old(rooms[k].settlements)
    {
      if rooms[i].status == Active {
        rooms[i].CheckAndDissolve(now, batchIds[i]);
      }
      i := i + 1;
    }
  }
}
