/** Tonight's records (backend/services/record_service.go): the default 07:00-to-07:00
    window, the search for everyone who played with the user in that window, and the
    per-friend totals split into manually settled, automatically settled and still on the
    tables. The database queries are filters over in-memory tables; the clock is a
    parameter. */
module Records {
  import opened Common
  import opened Models
  import opened Rates

  // ---------------------------------------------------------------------------
  // The default window
  // ---------------------------------------------------------------------------

  /** Seven in the morning, as an offset from midnight. */
  const SevenAm: int := 7 * Hour

  /** calculateDefaultTimeRange: before 07:00 the window is yesterday 07:00 to today 07:00,
      from 07:00 on it is today 07:00 to tomorrow 07:00. `midnight` is the start of the day
      that holds `now`. */
  function DefaultTimeRange(now: Time, midnight: Time): (w: (Time, Time))
    requires midnight <= now < midnight + Day
    ensures w.1 - w.0 == Day
    ensures w.0 <= now < w.1
    ensures w.0 == midnight + SevenAm || w.1 == midnight + SevenAm
  {
    var today7am := midnight + SevenAm;
    if now < today7am then (today7am - Day, today7am) else (today7am, today7am + Day)
  }

  /** A night that crosses midnight is one window: an instant after 07:00 on one day and an
      instant before 07:00 the next day get the same range. */
  lemma NightSpansMidnight(evening: Time, morning: Time, midnight: Time)
    requires midnight - Day + SevenAm <= evening < midnight
    requires midnight <= morning < midnight + SevenAm
    ensures DefaultTimeRange(evening, midnight - Day) == DefaultTimeRange(morning, midnight)
    ensures DefaultTimeRange(morning, midnight) == (midnight - Day + SevenAm, midnight + SevenAm)
  {
  }

  /** Two instants of the same day fall in different windows exactly when 07:00 lies
      between them. */
  lemma SevenAmSplitsTheDay(a: Time, b: Time, midnight: Time)
    requires midnight <= a <= b < midnight + Day
    ensures DefaultTimeRange(a, midnight) != DefaultTimeRange(b, midnight) <==>
              a < midnight + SevenAm <= b
  {
  }

  /** The window GetTonightRecords uses: the given one when both ends are supplied. */
  function TimeRange(startTime: Option<Time>, endTime: Option<Time>, now: Time, midnight: Time): (w: (Time, Time))
    requires startTime.None? || endTime.None? ==> midnight <= now < midnight + Day
    ensures startTime.Some? && endTime.Some? ==> w == (startTime.value, endTime.value)
    ensures startTime.None? || endTime.None? ==> w.1 - w.0 == Day && w.0 <= now < w.1
  {
    if startTime.None? || endTime.None? then DefaultTimeRange(now, midnight)
    else (startTime.value, endTime.value)
  }

  // ---------------------------------------------------------------------------
  // Who played together
  // ---------------------------------------------------------------------------

  /** A room_members row as the record service reads it. */
  datatype JoinRow = JoinRow(room: RoomId, user: UserId, joinedAt: Time)

  /** BETWEEN, which includes both ends. */
  predicate Within(t: Time, start: Time, end: Time) {
    start <= t <= end
  }

  /** Some row records u joining r inside the window. */
  predicate Joined(rows: seq<JoinRow>, u: UserId, r: RoomId, start: Time, end: Time) {
    |rows| > 0 &&
    ((rows[0].user == u && rows[0].room == r && Within(rows[0].joinedAt, start, end))
     || Joined(rows[1..], u, r, start, end))
  }

  /** The members of a room who joined inside the window, one entry per row. */
  function RoomMembers(rows: seq<JoinRow>, room: RoomId, start: Time, end: Time): (us: seq<UserId>)
    ensures forall u :: u in us <==> Joined(rows, u, room, start, end)
  {
    if |rows| == 0 then []
    else
      var rest := RoomMembers(rows[1..], room, start, end);
      if rows[0].room == room && Within(rows[0].joinedAt, start, end) then [rows[0].user] + rest else rest
  }

  /** The distinct rooms a user joined inside the window. */
  function UserRooms(rows: seq<JoinRow>, u: UserId, start: Time, end: Time): (rs: seq<RoomId>)
    ensures forall r :: r in rs <==> Joined(rows, u, r, start, end)
    ensures forall i, j :: 0 <= i < j < |rs| ==> rs[i] != rs[j]
  {
    if |rows| == 0 then []
    else
      var rest := UserRooms(rows[1..], u, start, end);
      if rows[0].user == u && Within(rows[0].joinedAt, start, end) && rows[0].room !in rest then
        [rows[0].room] + rest
      else rest
  }

  /** Every room named in the table. */
  function RowRooms(rows: seq<JoinRow>): set<RoomId> {
    set i | 0 <= i < |rows| :: rows[i].room
  }

  lemma {:induction false} JoinedRoomIsNamed(rows: seq<JoinRow>, u: UserId, r: RoomId, start: Time, end: Time)
    requires Joined(rows, u, r, start, end)
    ensures r in RowRooms(rows)
  {
    if !(rows[0].user == u && rows[0].room == r && Within(rows[0].joinedAt, start, end)) {
      JoinedRoomIsNamed(rows[1..], u, r, start, end);
      var i :| 0 <= i < |rows[1..]| && rows[1..][i].room == r;
      assert rows[i + 1].room == r;
    }
  }

  /** A pair of user and room sets that holds the initial rooms, every in-window member of
      each of its rooms, and every in-window room of each of its users. */
  ghost predicate Closed(rows: seq<JoinRow>, initial: seq<RoomId>, start: Time, end: Time,
                   users: set<UserId>, rooms: set<RoomId>) {
    && (forall k :: 0 <= k < |initial| ==> initial[k] in rooms)
    && (forall u, r :: Joined(rows, u, r, start, end) && r in rooms ==> u in users)
    && (forall u, r :: Joined(rows, u, r, start, end) && u in users ==> r in rooms)
  }

  /** The pair lies inside every closed pair. */
  ghost predicate Least(rows: seq<JoinRow>, initial: seq<RoomId>, start: Time, end: Time,
                        users: set<UserId>, rooms: set<RoomId>) {
    forall us: set<UserId>, rs: set<RoomId> ::
      Closed(rows, initial, start, end, us, rs) ==> users <= us && rooms <= rs
  }

  /** Every in-window member of a visited room is visited, except for the rooms still
      waiting in the queue and the ones being scanned. */
  ghost predicate RoomsDone(rows: seq<JoinRow>, start: Time, end: Time, users: set<UserId>,
                      rooms: set<RoomId>, queue: seq<RoomId>, scanning: set<RoomId>) {
    forall u, r :: Joined(rows, u, r, start, end) && r in rooms && r !in queue && r !in scanning ==> u in users
  }

  /** Every in-window room of a visited user is visited. */
  ghost predicate UsersDone(rows: seq<JoinRow>, start: Time, end: Time, users: set<UserId>, rooms: set<RoomId>) {
    forall u, r :: Joined(rows, u, r, start, end) && u in users ==> r in rooms
  }

  /** What the search keeps true between steps. */
  ghost predicate Searching(rows: seq<JoinRow>, initial: seq<RoomId>, start: Time, end: Time,
                            users: set<UserId>, rooms: set<RoomId>, queue: seq<RoomId>) {
    && Least(rows, initial, start, end, users, rooms)
    && (forall k :: 0 <= k < |initial| ==> initial[k] in rooms)
    && (forall k :: 0 <= k < |queue| ==> queue[k] in rooms)
    && rooms <= RowRooms(rows) + (set r | r in initial)
    && UsersDone(rows, start, end, users, rooms)
  }

  lemma LeastStart(rows: seq<JoinRow>, initial: seq<RoomId>, start: Time, end: Time)
    ensures Least(rows, initial, start, end, {}, set r | r in initial)
  {
  }

  /** Visiting an in-window member of a room that every closed pair holds keeps the pair
      least. */
  lemma LeastAddUser(rows: seq<JoinRow>, initial: seq<RoomId>, start: Time, end: Time,
                     users: set<UserId>, rooms: set<RoomId>, u: UserId, r: RoomId)
    requires Least(rows, initial, start, end, users, rooms)
    requires r in rooms && Joined(rows, u, r, start, end)
    ensures Least(rows, initial, start, end, users + {u}, rooms)
  {
    forall us: set<UserId>, rs: set<RoomId> | Closed(rows, initial, start, end, us, rs)
      ensures users + {u} <= us
    {
      assert r in rs;
    }
  }

  /** Visiting in-window rooms of a visited user keeps the pair least. */
  lemma LeastAddRooms(rows: seq<JoinRow>, initial: seq<RoomId>, start: Time, end: Time,
                      users: set<UserId>, rooms: set<RoomId>, u: UserId, more: seq<RoomId>)
    requires Least(rows, initial, start, end, users, rooms)
    requires u in users && forall r :: r in more ==> Joined(rows, u, r, start, end)
    ensures Least(rows, initial, start, end, users, rooms + set r | r in more)
  {
    forall us: set<UserId>, rs: set<RoomId> | Closed(rows, initial, start, end, us, rs)
      ensures rooms + (set r | r in more) <= rs
    {
      assert u in us;
    }
  }

  /** Removing more of a finite universe leaves less of it. */
  lemma {:induction false} FewerLeft(all: set<RoomId>, before: set<RoomId>, after: set<RoomId>)
    requires before <= after <= all && before != after
    ensures |all - after| < |all - before|
  {
    var x :| x in after && x !in before;
    assert all - before == (all - after) + (after - before);
    assert x in after - before;
  }

  /** The inner loop over a new friend's other rooms: each one not yet visited is marked and
      queued, so a room is queued at most once. */
  method EnqueueRooms(others: seq<RoomId>, visitedRooms: set<RoomId>, queue: seq<RoomId>)
    returns (rooms: set<RoomId>, q: seq<RoomId>)
    ensures rooms == visitedRooms + set r | r in others
    ensures |queue| <= |q| && q[..|queue|] == queue
    ensures forall k :: |queue| <= k < |q| ==> q[k] in rooms && q[k] !in visitedRooms
    ensures forall k, l :: |queue| <= k < l < |q| ==> q[k] != q[l]
    ensures forall r :: r in others && r !in visitedRooms ==> r in q[|queue|..]
    ensures rooms == visitedRooms ==> q == queue
  {
    rooms, q := visitedRooms, queue;
    var i := 0;
    while i < |others|
      invariant 0 <= i <= |others|
      invariant rooms == visitedRooms + set r | r in others[..i]
      invariant |queue| <= |q| && q[..|queue|] == queue
      invariant forall k :: |queue| <= k < |q| ==> q[k] in rooms && q[k] !in visitedRooms
      invariant forall k, l :: |queue| <= k < l < |q| ==> q[k] != q[l]
      invariant forall r :: r in rooms && r !in visitedRooms ==> r in q[|queue|..]
      invariant rooms == visitedRooms ==> q == queue
    {
      var r := others[i];
      assert others[..i + 1] == others[..i] + [r];
      if r !in rooms {
        assert (q + [r])[|queue|..] == q[|queue|..] + [r];
        rooms := rooms + {r};
        q := q + [r];
      }
      i := i + 1;
    }
    assert others[..i] == others;
  }

  /** The scan of one dequeued room: each of its in-window members not yet visited is
      visited, and that member's in-window rooms are queued. */
  method VisitMembers(rows: seq<JoinRow>, initial: seq<RoomId>, start: Time, end: Time, room: RoomId,
                      users: set<UserId>, rooms: set<RoomId>, queue: seq<RoomId>)
    returns (users': set<UserId>, rooms': set<RoomId>, queue': seq<RoomId>)
    requires Searching(rows, initial, start, end, users, rooms, queue) && room in rooms
    requires RoomsDone(rows, start, end, users, rooms, queue, {room})
    ensures Searching(rows, initial, start, end, users', rooms', queue')
    ensures RoomsDone(rows, start, end, users', rooms', queue', {})
    ensures rooms <= rooms' && (rooms' == rooms ==> queue' == queue)
  {
    var members := RoomMembers(rows, room, start, end);
    users', rooms', queue' := users, rooms, queue;
    var j := 0;
    while j < |members|
      invariant 0 <= j <= |members|
      invariant Searching(rows, initial, start, end, users', rooms', queue')
      invariant RoomsDone(rows, start, end, users', rooms', queue', {room})
      invariant forall k :: 0 <= k < j ==> members[k] in users'
      invariant rooms <= rooms' && (rooms' == rooms ==> queue' == queue)
    {
      var u := members[j];
      if u !in users' {
        LeastAddUser(rows, initial, start, end, users', rooms', u, room);
        users' := users' + {u};
        var others := UserRooms(rows, u, start, end);
        LeastAddRooms(rows, initial, start, end, users', rooms', u, others);
        forall r | r in others ensures r in RowRooms(rows) {
          JoinedRoomIsNamed(rows, u, r, start, end);
        }
        rooms', queue' := EnqueueRooms(others, rooms', queue');
      }
      j := j + 1;
    }
  }

  /** findFriendsWithBFS: the users reached from the initial rooms through shared in-window
      memberships. The result, together with the rooms the search visits, is the least
      closed pair: closed, and inside every other closed pair. */
  method FindFriendsWithBfs(rows: seq<JoinRow>, initial: seq<RoomId>, start: Time, end: Time)
    returns (friends: set<UserId>, visitedRooms: set<RoomId>)
    ensures Closed(rows, initial, start, end, friends, visitedRooms)
    ensures Least(rows, initial, start, end, friends, visitedRooms)
  {
    var users: set<UserId> := {};
    var rooms: set<RoomId> := set r | r in initial;
    var queue := initial;
    ghost var all := RowRooms(rows) + set r | r in initial;
    LeastStart(rows, initial, start, end);
    while |queue| > 0
      invariant Searching(rows, initial, start, end, users, rooms, queue)
      invariant RoomsDone(rows, start, end, users, rooms, queue, {})
      decreases |all - rooms|, |queue|
    {
      var room := queue[0];
      assert queue == [room] + queue[1..];
      queue := queue[1..];
      ghost var before := rooms;
      users, rooms, queue := VisitMembers(rows, initial, start, end, room, users, rooms, queue);
      if rooms != before {
        FewerLeft(all, before, rooms);
      }
    }
    friends, visitedRooms := users, rooms;
  }
  // ---------------------------------------------------------------------------
  // The per-friend totals
  // ---------------------------------------------------------------------------

  /** What the record service reads of a room: its status and its chip rate. */
  datatype RoomInfo = RoomInfo(status: RoomStatus, chipRate: string)

  /** tonightRecordSummary without the user id, which is its key. */
  datatype Summary = Summary(manualChip: int, manualRmb: real, autoChip: int, autoRmb: real,
                             activeChip: int, activeRmb: real, nickname: string, isMe: bool)

  /** The summary ensureRecordSummary creates. */
  const NoRecord: Summary := Summary(0, 0.0, 0, 0.0, 0, 0.0, "", false)

  /** The user's summary, or the one ensureRecordSummary would create. */
  function Get(m: map<UserId, Summary>, u: UserId): Summary {
    if u in m then m[u] else NoRecord
  }

  /** A batch written by the automatic settlement. */
  predicate IsAuto(batch: string) {
    HasPrefix(batch, "auto-")
  }

  /** The row counts for u in the window. */
  predicate Counts(x: SettlementRow, u: UserId, start: Time, end: Time) {
    x.user == u && Within(x.settledAt, start, end)
  }

  /** The chips of u's settlements in the window whose batch is automatic (or not). */
  function SettledChip(rows: seq<SettlementRow>, u: UserId, start: Time, end: Time, auto: bool): int {
    if |rows| == 0 then 0
    else
      var x := rows[|rows| - 1];
      SettledChip(rows[..|rows| - 1], u, start, end, auto)
      + (if Counts(x, u, start, end) && IsAuto(x.batch) == auto then x.chips else 0)
  }

  /** The money of u's settlements in the window whose batch is automatic (or not). */
  function SettledRmb(rows: seq<SettlementRow>, u: UserId, start: Time, end: Time, auto: bool): real {
    if |rows| == 0 then 0.0
    else
      var x := rows[|rows| - 1];
      SettledRmb(rows[..|rows| - 1], u, start, end, auto)
      + (if Counts(x, u, start, end) && IsAuto(x.batch) == auto then x.rmb else 0.0)
  }

  /** All chips settled to u in the window, whatever the batch. */
  function WindowChip(rows: seq<SettlementRow>, u: UserId, start: Time, end: Time): int {
    if |rows| == 0 then 0
    else
      var x := rows[|rows| - 1];
      WindowChip(rows[..|rows| - 1], u, start, end) + (if Counts(x, u, start, end) then x.chips else 0)
  }

  /** All money settled to u in the window, whatever the batch. */
  function WindowRmb(rows: seq<SettlementRow>, u: UserId, start: Time, end: Time): real {
    if |rows| == 0 then 0.0
    else
      var x := rows[|rows| - 1];
      WindowRmb(rows[..|rows| - 1], u, start, end) + (if Counts(x, u, start, end) then x.rmb else 0.0)
  }

  /** Every settlement is either automatic or manual, so the two parts add up to all of it. */
  lemma {:induction false} SettledSplit(rows: seq<SettlementRow>, u: UserId, start: Time, end: Time)
    ensures SettledChip(rows, u, start, end, true) + SettledChip(rows, u, start, end, false)
            == WindowChip(rows, u, start, end)
    ensures SettledRmb(rows, u, start, end, true) + SettledRmb(rows, u, start, end, false)
            == WindowRmb(rows, u, start, end)
  {
    if |rows| > 0 {
      SettledSplit(rows[..|rows| - 1], u, start, end);
    }
  }

  /** A summary after the settlement loop: both settled parts, nothing else. */
  function SettledPart(rows: seq<SettlementRow>, u: UserId, start: Time, end: Time): Summary {
    NoRecord.(manualChip := SettledChip(rows, u, start, end, false),
              manualRmb := SettledRmb(rows, u, start, end, false),
              autoChip := SettledChip(rows, u, start, end, true),
              autoRmb := SettledRmb(rows, u, start, end, true))
  }

  /** One settlement row added to its user's summary. */
  function AddSettled(s: Summary, x: SettlementRow): Summary {
    if IsAuto(x.batch) then s.(autoChip := s.autoChip + x.chips, autoRmb := s.autoRmb + x.rmb)
    else s.(manualChip := s.manualChip + x.chips, manualRmb := s.manualRmb + x.rmb)
  }

  /** The settlement loop: each settlement of a queried user in the window goes to the
      automatic part when its batch starts with "auto-" and to the manual part otherwise. */
  method CollectSettlements(settlements: seq<SettlementRow>, ids: set<UserId>, start: Time, end: Time)
    returns (summaries: map<UserId, Summary>)
    ensures summaries.Keys <= ids
    ensures forall u :: u in ids ==> Get(summaries, u) == SettledPart(settlements, u, start, end)
  {
    summaries := map[];
    var i := 0;
    while i < |settlements|
      invariant 0 <= i <= |settlements|
      invariant summaries.Keys <= ids
      invariant forall u :: u in ids ==> Get(summaries, u) == SettledPart(settlements[..i], u, start, end)
    {
      var x := settlements[i];
      assert settlements[..i + 1][..i] == settlements[..i];
      if x.user in ids && Within(x.settledAt, start, end) {
        summaries := summaries[x.user := AddSettled(Get(summaries, x.user), x)];
      }
      i := i + 1;
    }
    assert settlements[..i] == settlements;
  }

  /** The balance row of u in a room; a missing row reads as 0. */
  function BalanceAt(balances: map<(RoomId, UserId), int>, room: RoomId, u: UserId): int {
    if (room, u) in balances then balances[(room, u)] else 0
  }

  /** The membership row is in a room that is still active. */
  predicate InActiveRoom(x: JoinRow, rooms: map<RoomId, RoomInfo>) {
    x.room in rooms && rooms[x.room].status == Active
  }

  /** The chips u still holds: the balance for each membership row of u in an active room. */
  function ActiveChip(members: seq<JoinRow>, rooms: map<RoomId, RoomInfo>,
                      balances: map<(RoomId, UserId), int>, u: UserId): int {
    if |members| == 0 then 0
    else
      var x := members[|members| - 1];
      ActiveChip(members[..|members| - 1], rooms, balances, u)
      + (if x.user == u && InActiveRoom(x, rooms) then BalanceAt(balances, x.room, u) else 0)
  }

  /** The money value of those balances, each at its room's rate. */
  function ActiveRmb(members: seq<JoinRow>, rooms: map<RoomId, RoomInfo>,
                     balances: map<(RoomId, UserId), int>, u: UserId): real {
    if |members| == 0 then 0.0
    else
      var x := members[|members| - 1];
      ActiveRmb(members[..|members| - 1], rooms, balances, u)
      + (if x.user == u && InActiveRoom(x, rooms)
         then CalculateRmb(BalanceAt(balances, x.room, u), rooms[x.room].chipRate) else 0.0)
  }

  /** A summary with the active part added. */
  function WithActive(s: Summary, members: seq<JoinRow>, rooms: map<RoomId, RoomInfo>,
                      balances: map<(RoomId, UserId), int>, u: UserId): Summary {
    s.(activeChip := s.activeChip + ActiveChip(members, rooms, balances, u),
       activeRmb := s.activeRmb + ActiveRmb(members, rooms, balances, u))
  }

  /** Nothing is worth nothing at any rate. */
  lemma RmbOfZero(rate: string)
    ensures CalculateRmb(0, rate) == 0.0
  {
    RmbLinear(0, 0, rate);
  }

  /** The active-balance loop written as a fold: a row of a queried user in an active room
      with a non-zero balance adds that balance to the user's active part. */
  function ActiveFold(summaries: map<UserId, Summary>, members: seq<JoinRow>, rooms: map<RoomId, RoomInfo>,
                      balances: map<(RoomId, UserId), int>, ids: set<UserId>): map<UserId, Summary> {
    if |members| == 0 then summaries
    else
      var m := ActiveFold(summaries, members[..|members| - 1], rooms, balances, ids);
      var x := members[|members| - 1];
      if x.user in ids && InActiveRoom(x, rooms) && BalanceAt(balances, x.room, x.user) != 0 then
        var s := Get(m, x.user);
        var b := BalanceAt(balances, x.room, x.user);
        m[x.user := s.(activeChip := s.activeChip + b, activeRmb := s.activeRmb + CalculateRmb(b, rooms[x.room].chipRate))]
      else m
  }

  /** Skipping zero balances loses nothing: the fold gives each queried user the sum over
      all of the user's rows in active rooms. */
  lemma {:induction false} ActiveFoldSums(summaries: map<UserId, Summary>, members: seq<JoinRow>,
                                          rooms: map<RoomId, RoomInfo>, balances: map<(RoomId, UserId), int>,
                                          ids: set<UserId>, u: UserId)
    requires u in ids
    ensures Get(ActiveFold(summaries, members, rooms, balances, ids), u)
            == WithActive(Get(summaries, u), members, rooms, balances, u)
  {
    if |members| > 0 {
      var x := members[|members| - 1];
      ActiveFoldSums(summaries, members[..|members| - 1], rooms, balances, ids, u);
      if InActiveRoom(x, rooms) {
        RmbOfZero(rooms[x.room].chipRate);
      }
    }
  }

  /** The fold leaves the users outside the query as they were and adds no one else. */
  lemma {:induction false} ActiveFoldOthers(summaries: map<UserId, Summary>, members: seq<JoinRow>,
                                            rooms: map<RoomId, RoomInfo>, balances: map<(RoomId, UserId), int>,
                                            ids: set<UserId>, u: UserId)
    requires u !in ids
    ensures Get(ActiveFold(summaries, members, rooms, balances, ids), u) == Get(summaries, u)
    ensures u in ActiveFold(summaries, members, rooms, balances, ids) <==> u in summaries
  {
    if |members| > 0 {
      ActiveFoldOthers(summaries, members[..|members| - 1], rooms, balances, ids, u);
    }
  }

  /** The fold, user by user. */
  lemma ActiveFoldSpec(summaries: map<UserId, Summary>, members: seq<JoinRow>, rooms: map<RoomId, RoomInfo>,
                       balances: map<(RoomId, UserId), int>, ids: set<UserId>)
    ensures var m := ActiveFold(summaries, members, rooms, balances, ids);
            && (forall u :: u in m ==> u in summaries || u in ids)
            && (forall u :: u !in ids ==> Get(m, u) == Get(summaries, u))
            && (forall u :: u in ids ==> Get(m, u) == WithActive(Get(summaries, u), members, rooms, balances, u))
  {
    forall u | u in ids {
      ActiveFoldSums(summaries, members, rooms, balances, ids, u);
    }
    forall u | u !in ids {
      ActiveFoldOthers(summaries, members, rooms, balances, ids, u);
    }
  }

  /** The active-balance loop over the membership rows of the queried users. */
  method CollectActive(summaries: map<UserId, Summary>, members: seq<JoinRow>, rooms: map<RoomId, RoomInfo>,
                       balances: map<(RoomId, UserId), int>, ids: set<UserId>)
    returns (out: map<UserId, Summary>)
    ensures forall u :: u in out ==> u in summaries || u in ids
    ensures forall u :: u !in ids ==> Get(out, u) == Get(summaries, u)
    ensures forall u :: u in ids ==> Get(out, u) == WithActive(Get(summaries, u), members, rooms, balances, u)
  {
    out := summaries;
    var i := 0;
    while i < |members|
      invariant 0 <= i <= |members|
      invariant out == ActiveFold(summaries, members[..i], rooms, balances, ids)
    {
      var x := members[i];
      assert members[..i + 1][..i] == members[..i];
      if x.user in ids && InActiveRoom(x, rooms) {
        var balance := BalanceAt(balances, x.room, x.user);
        if balance != 0 {
          var s := Get(out, x.user);
          out := out[x.user := s.(activeChip := s.activeChip + balance,
                                  activeRmb := s.activeRmb + CalculateRmb(balance, rooms[x.room].chipRate))];
        }
      }
      i := i + 1;
    }
    assert members[..i] == members;
    ActiveFoldSpec(summaries, members, rooms, balances, ids);
  }

  /** The loop over the friend set: every queried user gets a summary. */
  method EnsureSummaries(summaries: map<UserId, Summary>, ids: set<UserId>) returns (out: map<UserId, Summary>)
    ensures forall u :: u in out <==> u in summaries || u in ids
    ensures forall u :: u in out ==> out[u] == Get(summaries, u)
  {
    out := summaries;
    var todo := ids;
    while todo != {}
      invariant todo <= ids
      invariant forall u :: u in out <==> u in summaries || (u in ids && u !in todo)
      invariant forall u :: u in out ==> out[u] == Get(summaries, u)
      decreases |todo|
    {
      var u :| u in todo;
      out := out[u := Get(out, u)];
      todo := todo - {u};
    }
  }

  /** The loop over the users table: each summarised user found there takes its nickname,
      and the requesting user is marked again. */
  method SetNicknames(summaries: map<UserId, Summary>, users: map<UserId, string>, me: UserId)
    returns (out: map<UserId, Summary>)
    ensures out.Keys == summaries.Keys
    ensures forall u :: u in out ==>
              out[u] == if u in users then summaries[u].(nickname := users[u], isMe := summaries[u].isMe || u == me)
                        else summaries[u]
  {
    out := summaries;
    var todo := summaries.Keys;
    while todo != {}
      invariant todo <= summaries.Keys && out.Keys == summaries.Keys
      invariant forall u :: u in out && u !in todo ==>
                  out[u] == if u in users then summaries[u].(nickname := users[u], isMe := summaries[u].isMe || u == me)
                            else summaries[u]
      invariant forall u :: u in todo ==> out[u] == summaries[u]
      decreases |todo|
    {
      var u :| u in todo;
      if u in users {
        out := out[u := out[u].(nickname := users[u], isMe := out[u].isMe || u == me)];
      }
      todo := todo - {u};
    }
  }

  /** The nickname of a user, empty when the user is not found. */
  function Nickname(users: map<UserId, string>, u: UserId): string {
    if u in users then users[u] else ""
  }

  /** The finished summary of one user. */
  function Expected(me: UserId, u: UserId, start: Time, end: Time, settlements: seq<SettlementRow>,
                    members: seq<JoinRow>, rooms: map<RoomId, RoomInfo>,
                    balances: map<(RoomId, UserId), int>, users: map<UserId, string>): Summary {
    Summary(SettledChip(settlements, u, start, end, false), SettledRmb(settlements, u, start, end, false),
            SettledChip(settlements, u, start, end, true), SettledRmb(settlements, u, start, end, true),
            ActiveChip(members, rooms, balances, u), ActiveRmb(members, rooms, balances, u),
            Nickname(users, u), u == me)
  }

  /** The part of GetTonightRecords after the search: a summary for every queried user,
      the requesting user's marked as theirs. */
  method BuildSummaries(me: UserId, ids: set<UserId>, start: Time, end: Time, members: seq<JoinRow>,
                        settlements: seq<SettlementRow>, rooms: map<RoomId, RoomInfo>,
                        balances: map<(RoomId, UserId), int>, users: map<UserId, string>)
    returns (records: map<UserId, Summary>)
    requires me in ids
    ensures records.Keys == ids
    ensures forall u :: u in records ==>
              records[u] == Expected(me, u, start, end, settlements, members, rooms, balances, users)
  {
    var settled := CollectSettlements(settlements, ids, start, end);
    var active := CollectActive(settled, members, rooms, balances, ids);
    var all: map<UserId, Summary> := EnsureSummaries(active, ids);
    ghost var base := all;
    all := all[me := Get(all, me).(isMe := true)];
    records := SetNicknames(all, users, me);
    forall u | u in records
      ensures records[u] == Expected(me, u, start, end, settlements, members, rooms, balances, users)
    {
      assert Get(base, u) == WithActive(SettledPart(settlements, u, start, end), members, rooms, balances, u);
    }
  }

  /** GetTonightRecords without the current-room list: the window, the friends found by the
      search from the user's own rooms in it, and a summary for the user and every friend. */
  method GetTonightRecords(me: UserId, startTime: Option<Time>, endTime: Option<Time>, now: Time, midnight: Time,
                           members: seq<JoinRow>, settlements: seq<SettlementRow>, rooms: map<RoomId, RoomInfo>,
                           balances: map<(RoomId, UserId), int>, users: map<UserId, string>)
    returns (window: (Time, Time), friends: set<UserId>, friendRooms: set<RoomId>,
             records: map<UserId, Summary>, totalCheck: real)
    requires startTime.None? || endTime.None? ==> midnight <= now < midnight + Day
    ensures window == TimeRange(startTime, endTime, now, midnight)
    ensures Closed(members, UserRooms(members, me, window.0, window.1), window.0, window.1, friends, friendRooms)
    ensures Least(members, UserRooms(members, me, window.0, window.1), window.0, window.1, friends, friendRooms)
    ensures records.Keys == friends + {me}
    ensures forall u :: u in records ==>
              records[u] == Expected(me, u, window.0, window.1, settlements, members, rooms, balances, users)
    ensures totalCheck == Sum(MoneyOf(friends + {me}, window.0, window.1, settlements, members, rooms, balances))
  {
    window := TimeRange(startTime, endTime, now, midnight);
    var initial := UserRooms(members, me, window.0, window.1);
    friends, friendRooms := FindFriendsWithBfs(members, initial, window.0, window.1);
    records := BuildSummaries(me, friends + {me}, window.0, window.1, members, settlements, rooms, balances, users);
    totalCheck := TotalCheck(records);
    TotalsAreMoney(me, records, friends + {me}, window.0, window.1, settlements, members, rooms, balances, users);
  }

  /** The figures of one line of the report. */
  datatype FriendRecord = FriendRecord(settledChip: int, settledRmb: real, totalChip: int, totalRmb: real)

  function Report(s: Summary): FriendRecord {
    var settledChip := s.manualChip + s.autoChip;
    var settledRmb := s.manualRmb + s.autoRmb;
    FriendRecord(settledChip, settledRmb, settledChip + s.activeChip, settledRmb + s.activeRmb)
  }

  /** A finished line settles exactly the user's settlements in the window, automatic and
      manual alike, and its total adds what the user still holds at active tables. */
  lemma ReportTotals(me: UserId, u: UserId, start: Time, end: Time, settlements: seq<SettlementRow>,
                     members: seq<JoinRow>, rooms: map<RoomId, RoomInfo>,
                     balances: map<(RoomId, UserId), int>, users: map<UserId, string>)
    ensures var r := Report(Expected(me, u, start, end, settlements, members, rooms, balances, users));
            && r.settledChip == WindowChip(settlements, u, start, end)
            && r.settledRmb == WindowRmb(settlements, u, start, end)
            && r.totalChip == WindowChip(settlements, u, start, end) + ActiveChip(members, rooms, balances, u)
            && r.totalRmb == WindowRmb(settlements, u, start, end) + ActiveRmb(members, rooms, balances, u)
  {
    SettledSplit(settlements, u, start, end);
  }

  // ---------------------------------------------------------------------------
  // total_check
  // ---------------------------------------------------------------------------

  /** The sum of the values of a map at some of its keys, in whatever order they are taken. */
  ghost function SumOver(m: map<UserId, real>, keys: set<UserId>): real
    requires keys <= m.Keys
    decreases keys
  {
    if keys == {} then 0.0
    else
      var u :| u in keys;
      m[u] + SumOver(m, keys - {u})
  }

  /** The sum of all values of a map. */
  ghost function Sum(m: map<UserId, real>): real {
    SumOver(m, m.Keys)
  }

  /** Any key can be taken first: the sum does not depend on the order of the keys. */
  lemma {:induction false} SumPick(m: map<UserId, real>, keys: set<UserId>, u: UserId)
    requires keys <= m.Keys && u in keys
    ensures SumOver(m, keys) == m[u] + SumOver(m, keys - {u})
    decreases keys
  {
    var v :| v in keys && SumOver(m, keys) == m[v] + SumOver(m, keys - {v});
    if v != u {
      SumPick(m, keys - {v}, u);
      SumPick(m, keys - {u}, v);
      assert keys - {v} - {u} == keys - {u} - {v};
    }
  }

  /** The total money of every line of the report. */
  function TotalsOf(records: map<UserId, Summary>): (t: map<UserId, real>)
    ensures t.Keys == records.Keys
  {
    map u | u in records :: Report(records[u]).totalRmb
  }

  /** Each user's money: the settlements in the window plus what is held at active tables. */
  function MoneyOf(users: set<UserId>, start: Time, end: Time, settlements: seq<SettlementRow>,
                   members: seq<JoinRow>, rooms: map<RoomId, RoomInfo>,
                   balances: map<(RoomId, UserId), int>): (m: map<UserId, real>)
    ensures m.Keys == users
  {
    map u | u in users :: WindowRmb(settlements, u, start, end) + ActiveRmb(members, rooms, balances, u)
  }

  /** The line totals of finished summaries are the users' money. */
  lemma TotalsAreMoney(me: UserId, records: map<UserId, Summary>, queried: set<UserId>, start: Time, end: Time,
                       settlements: seq<SettlementRow>, members: seq<JoinRow>, rooms: map<RoomId, RoomInfo>,
                       balances: map<(RoomId, UserId), int>, users: map<UserId, string>)
    requires records.Keys == queried
    requires forall u :: u in records ==>
               records[u] == Expected(me, u, start, end, settlements, members, rooms, balances, users)
    ensures TotalsOf(records) == MoneyOf(queried, start, end, settlements, members, rooms, balances)
  {
    forall u | u in records
      ensures TotalsOf(records)[u] == MoneyOf(queried, start, end, settlements, members, rooms, balances)[u]
    {
      ReportTotals(me, u, start, end, settlements, members, rooms, balances, users);
    }
  }

  /** total_check: the loop over the summaries adds up the total money of every line. */
  method TotalCheck(records: map<UserId, Summary>) returns (total: real)
    ensures total == Sum(TotalsOf(records))
  {
    total := 0.0;
    var rest := records.Keys;
    while rest != {}
      invariant rest <= records.Keys
      invariant total + SumOver(TotalsOf(records), rest) == Sum(TotalsOf(records))
      decreases rest
    {
      var u :| u in rest;
      var line := Report(records[u]);
      SumPick(TotalsOf(records), rest, u);
      total := total + line.totalRmb;
      rest := rest - {u};
    }
  }
}
