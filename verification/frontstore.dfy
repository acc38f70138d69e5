/** The web client's room store (poker_score_frontend/src/stores/room.ts): the room it shows,
    its member list, the operation feed, and the settlement context, and how the store's
    actions and two of its WebSocket handlers change them. JSON parsing of a niuniu
    description is a parameter; the socket itself is left out. */
module FrontRoomStore {
  import opened Common

  datatype Member = Member(userId: int, nickname: string, balance: int, status: string)

  /** A member update: the id, and the fields it sets (None for a field it leaves alone). */
  datatype MemberUpdate = MemberUpdate(userId: int, nickname: Option<string>, balance: Option<int>, status: Option<string>)

  datatype RoomInfo = RoomInfo(roomId: int, roomCode: string, roomType: string, chipRate: string, status: string,
                               tableBalance: int, myBalance: int, members: seq<Member>)

  datatype BetDetail = BetDetail(toUserId: int, toNickname: Option<string>, amount: int)

  datatype Operation = Operation(id: int, userId: int, nickname: Option<string>, operationType: string,
                                 amount: Option<int>, description: string, targetUserId: Option<int>,
                                 targetNickname: Option<string>, createdAt: string, bets: Option<seq<BetDetail>>)

  datatype PlanItem = PlanItem(fromUserId: int, fromNickname: string, toUserId: int, toNickname: string,
                               chipAmount: int, rmbAmount: real, description: string)

  datatype SettlementContext = SettlementContext(
    initiatedBy: int, initiatedByNickname: string, initiatedAt: string, plan: seq<PlanItem>,
    tableBalance: int, confirmed: bool,
    confirmedBy: Option<int>, confirmedByNickname: Option<string>, confirmedAt: Option<string>)

  /** JSON.parse of a niuniu description into bet details: None when it fails or the value
      is not an array. */
  type BetParser = string -> Option<seq<BetDetail>>

  // ---------------------------------------------------------------------------
  // Members
  // ---------------------------------------------------------------------------

  /** findIndex on the member id: the first entry with the id. */
  function FindMember(members: seq<Member>, userId: int): (r: Option<nat>)
    ensures r.Some? ==> r.value < |members| && members[r.value].userId == userId
    ensures r.Some? ==> forall k :: 0 <= k < r.value ==> members[k].userId != userId
    ensures r.None? ==> forall k :: 0 <= k < |members| ==> members[k].userId != userId
  {
    if |members| == 0 then None
    else if members[0].userId == userId then Some(0)
    else
      var t := FindMember(members[1..], userId);
      if t.None? then None else Some(t.value + 1)
  }

  /** The update applied to an existing entry: the fields it sets, the entry's own for the rest. */
  function Merge(existing: Member, u: MemberUpdate): Member {
    Member(existing.userId,
           if u.nickname.Some? then u.nickname.value else existing.nickname,
           if u.balance.Some? then u.balance.value else existing.balance,
           if u.status.Some? then u.status.value else existing.status)
  }

  /** The entry a new member starts with: '' nickname, 0 balance and 'online' unless set. */
  function Fresh(u: MemberUpdate): Member {
    Member(u.userId,
           if u.nickname.Some? then u.nickname.value else "",
           if u.balance.Some? then u.balance.value else 0,
           if u.status.Some? then u.status.value else "online")
  }

  /** The member list after updateMember. */
  function Upsert(members: seq<Member>, u: MemberUpdate): seq<Member> {
    var index := FindMember(members, u.userId);
    if index.Some? then members[index.value := Merge(members[index.value], u)]
    else members + [Fresh(u)]
  }

  /** An update for a listed id rewrites only the first entry with that id, keeping its own
      value for every field the update leaves out; the list keeps its length. */
  lemma UpsertExisting(members: seq<Member>, u: MemberUpdate, i: nat)
    requires i < |members| && members[i].userId == u.userId
    requires forall k :: 0 <= k < i ==> members[k].userId != u.userId
    ensures var after := Upsert(members, u);
            && |after| == |members|
            && (forall k :: 0 <= k < |members| && k != i ==> after[k] == members[k])
            && after[i].userId == u.userId
            && (u.nickname.None? ==> after[i].nickname == members[i].nickname)
            && (u.balance.None? ==> after[i].balance == members[i].balance)
            && (u.status.None? ==> after[i].status == members[i].status)
            && (u.nickname.Some? ==> after[i].nickname == u.nickname.value)
            && (u.balance.Some? ==> after[i].balance == u.balance.value)
            && (u.status.Some? ==> after[i].status == u.status.value)
  {
    var index := FindMember(members, u.userId);
    assert index == Some(i);
  }

  /** An update for an id not in the list appends exactly one entry, with the defaults for
      the fields it leaves out. */
  lemma UpsertNew(members: seq<Member>, u: MemberUpdate)
    requires forall k :: 0 <= k < |members| ==> members[k].userId != u.userId
    ensures var after := Upsert(members, u);
            && |after| == |members| + 1 && after[..|members|] == members
            && after[|members|] == Member(u.userId, if u.nickname.Some? then u.nickname.value else "",
                                          if u.balance.Some? then u.balance.value else 0,
                                          if u.status.Some? then u.status.value else "online")
  {
    var index := FindMember(members, u.userId);
    assert index.None?;
    assert (members + [Fresh(u)])[..|members|] == members;
  }

  /** The member list after removeMember: every entry with the id goes. */
  function Without(members: seq<Member>, userId: int): (r: seq<Member>)
    ensures |r| <= |members|
  {
    if |members| == 0 then []
    else (if members[0].userId == userId then [] else [members[0]]) + Without(members[1..], userId)
  }

  /** removeMember keeps exactly the entries with other ids, in their order. */
  lemma {:induction false} WithoutKeepsOthers(members: seq<Member>, userId: int)
    ensures forall m :: m in Without(members, userId) <==> m in members && m.userId != userId
    ensures (forall k :: 0 <= k < |members| ==> members[k].userId != userId) ==> Without(members, userId) == members
  {
    if |members| > 0 {
      WithoutKeepsOthers(members[1..], userId);
      assert members == [members[0]] + members[1..];
    }
  }

  /** removeMember keeps the relative order: removing from a concatenation removes from
      each part. */
  lemma {:induction false} WithoutConcat(a: seq<Member>, b: seq<Member>, userId: int)
    ensures Without(a + b, userId) == Without(a, userId) + Without(b, userId)
  {
    if |a| > 0 {
      WithoutConcat(a[1..], b, userId);
      assert (a + b)[1..] == a[1..] + b;
    } else {
      assert a + b == b;
    }
  }

  /** Every balance set to 0, everything else about the members kept. */
  function ZeroBalances(members: seq<Member>): (r: seq<Member>)
    ensures |r| == |members|
    ensures forall k :: 0 <= k < |members| ==> r[k] == members[k].(balance := 0)
  {
    seq(|members|, k requires 0 <= k < |members| => members[k].(balance := 0))
  }

  // ---------------------------------------------------------------------------
  // Operations
  // ---------------------------------------------------------------------------

  /** parseNiuniuBetDescription: an empty description has no bets; otherwise the parser decides. */
  function ParseBetDescription(description: string, parse: BetParser): Option<seq<BetDetail>> {
    if description == "" then None else parse(description)
  }

  /** normalizeOperation: a niuniu operation without bets gets the bets parsed from its
      description when they parse; any other operation is returned as it is. */
  function Normalize(op: Operation, parse: BetParser): (r: Operation)
    ensures r == op || (op.operationType == "niuniu_bet" && r == op.(bets := r.bets) && r.bets.Some?)
  {
    if op.operationType != "niuniu_bet" then op
    else if op.bets.Some? && |op.bets.value| > 0 then op
    else
      var bets := ParseBetDescription(op.description, parse);
      if bets.Some? then op.(bets := bets) else op
  }

  /** Normalising leaves non-niuniu operations and niuniu operations that carry bets alone,
      and a normalised operation is normalised again to itself as long as the parser is not
      asked to produce an empty list. */
  lemma NormalizeFixes(op: Operation, parse: BetParser)
    ensures op.operationType != "niuniu_bet" ==> Normalize(op, parse) == op
    ensures op.bets.Some? && |op.bets.value| > 0 ==> Normalize(op, parse) == op
    ensures (forall d :: parse(d).Some? ==> |parse(d).value| > 0) ==>
              Normalize(Normalize(op, parse), parse) == Normalize(op, parse)
  {
  }

  function NormalizeAll(ops: seq<Operation>, parse: BetParser): (r: seq<Operation>)
    ensures |r| == |ops| && forall k :: 0 <= k < |ops| ==> r[k] == Normalize(ops[k], parse)
  {
    seq(|ops|, k requires 0 <= k < |ops| => Normalize(ops[k], parse))
  }

  // ---------------------------------------------------------------------------
  // The store
  // ---------------------------------------------------------------------------

  class RoomStore {
    var roomInfo: Option<RoomInfo>
    /** The feed, newest first. */
    var operations: seq<Operation>
    var settlementContext: Option<SettlementContext>

    constructor ()
      ensures roomInfo.None? && operations == [] && settlementContext.None?
    {
      roomInfo := None;
      operations := [];
      settlementContext := None;
    }

    method SetRoomInfo(info: RoomInfo)
      modifies this`roomInfo
      ensures roomInfo == Some(info)
    {
      roomInfo := Some(info);
    }

    /** updateMember: nothing without a room; otherwise the member list is upserted. */
    method UpdateMember(u: MemberUpdate)
      modifies this`roomInfo
      ensures old(roomInfo).None? ==> roomInfo.None?
      ensures old(roomInfo).Some? ==> roomInfo == Some(old(roomInfo).value.(members := Upsert(old(roomInfo).value.members, u)))
    {
      if roomInfo.None? {
        return;
      }
      var info := roomInfo.value;
      var index := FindMember(info.members, u.userId);
      if index.Some? {
        var existing := info.members[index.value];
        info := info.(members := info.members[index.value := Merge(existing, u)]);
      } else {
        info := info.(members := info.members + [Fresh(u)]);
      }
      roomInfo := Some(info);
    }

    /** removeMember: nothing without a room; otherwise the id's entries are filtered out. */
    method RemoveMember(userId: int)
      modifies this`roomInfo
      ensures old(roomInfo).None? ==> roomInfo.None?
      ensures old(roomInfo).Some? ==> roomInfo == Some(old(roomInfo).value.(members := Without(old(roomInfo).value.members, userId)))
    {
      if roomInfo.None? {
        return;
      }
      roomInfo := Some(roomInfo.value.(members := Without(roomInfo.value.members, userId)));
    }

    /** addOperation: the normalised operation goes to the front of the feed. */
    method AddOperation(op: Operation, parse: BetParser)
      modifies this`operations
      ensures operations == [Normalize(op, parse)] + old(operations)
    {
      operations := [Normalize(op, parse)] + operations;
    }

    /** setOperations: the feed is replaced by the normalised list. */
    method SetOperations(ops: seq<Operation>, parse: BetParser)
      modifies this`operations
      ensures operations == NormalizeAll(ops, parse)
    {
      operations := NormalizeAll(ops, parse);
    }

    method UpdateMyBalance(balance: int)
      modifies this`roomInfo
      ensures old(roomInfo).None? ==> roomInfo.None?
      ensures old(roomInfo).Some? ==> roomInfo == Some(old(roomInfo).value.(myBalance := balance))
    {
      if roomInfo.Some? {
        roomInfo := Some(roomInfo.value.(myBalance := balance));
      }
    }

    method UpdateTableBalance(balance: int)
      modifies this`roomInfo
      ensures old(roomInfo).None? ==> roomInfo.None?
      ensures old(roomInfo).Some? ==> roomInfo == Some(old(roomInfo).value.(tableBalance := balance))
    {
      if roomInfo.Some? {
        roomInfo := Some(roomInfo.value.(tableBalance := balance));
      }
    }

    /** clearRoomInfo: no room, no feed, no settlement context (the socket is closed too). */
    method ClearRoomInfo()
      modifies this`roomInfo, this`operations, this`settlementContext
      ensures roomInfo.None? && operations == [] && settlementContext.None?
    {
      roomInfo := None;
      operations := [];
      settlementContext := None;
    }

    /** The settlement_confirmed message: the context is marked confirmed (a missing one is
        built from the message), a confirmation joins the feed, and my balance, the table and
        every member balance drop to 0. `now` is the client clock's ISO time and `opId` its
        millisecond reading, used where the message leaves them out. */
    method OnSettlementConfirmed(confirmedBy: int, confirmedByNickname: Option<string>, settledAt: Option<string>,
                                 now: string, opId: int, parse: BetParser)
      modifies this`roomInfo, this`operations, this`settlementContext
      ensures var at := if settledAt.Some? then settledAt.value else now;
              var ctx := old(settlementContext);
              && settlementContext.Some? && settlementContext.value.confirmed
              && settlementContext.value.confirmedBy == Some(confirmedBy)
              && settlementContext.value.confirmedByNickname == confirmedByNickname
              && settlementContext.value.confirmedAt == Some(at)
              && (ctx.Some? ==> settlementContext.value.(confirmed := false, confirmedBy := ctx.value.confirmedBy,
                                   confirmedByNickname := ctx.value.confirmedByNickname,
                                   confirmedAt := ctx.value.confirmedAt) == ctx.value.(confirmed := false))
              && (ctx.None? ==> settlementContext.value.initiatedBy == confirmedBy
                                && settlementContext.value.plan == []
                                && settlementContext.value.initiatedByNickname
                                     == (if confirmedByNickname.Some? then confirmedByNickname.value else "")
                                && settlementContext.value.initiatedAt == at
                                && settlementContext.value.tableBalance
                                     == (if old(roomInfo).Some? then old(roomInfo).value.tableBalance else 0))
      ensures operations == [Operation(opId, confirmedBy, confirmedByNickname, "settlement_confirmed", None,
                                       ConfirmedDescription, None, None,
                                       if settledAt.Some? then settledAt.value else now, None)] + old(operations)
      ensures old(roomInfo).None? ==> roomInfo.None?
      ensures old(roomInfo).Some? ==>
                roomInfo == Some(old(roomInfo).value.(myBalance := 0, tableBalance := 0,
                                                      members := ZeroBalances(old(roomInfo).value.members)))
    {
      var at := if settledAt.Some? then settledAt.value else now;
      var ctx := settlementContext;
      var tableBalance := if ctx.Some? then ctx.value.tableBalance
                          else if roomInfo.Some? then roomInfo.value.tableBalance else 0;
      settlementContext := Some(SettlementContext(
        if ctx.Some? then ctx.value.initiatedBy else confirmedBy,
        if ctx.Some? then ctx.value.initiatedByNickname
        else if confirmedByNickname.Some? then confirmedByNickname.value else "",
        if ctx.Some? then ctx.value.initiatedAt else at,
        if ctx.Some? then ctx.value.plan else [],
        tableBalance,
        true, Some(confirmedBy), confirmedByNickname, Some(at)));
      AddOperation(Operation(opId, confirmedBy, confirmedByNickname, "settlement_confirmed", None,
                             ConfirmedDescription, None, None, at, None), parse);
      if roomInfo.Some? {
        var info := roomInfo.value;
        roomInfo := Some(info.(myBalance := 0, tableBalance := 0, members := ZeroBalances(info.members)));
      }
    }

    /** The user_kicked message: the kicked member's status becomes the message's (or
        'offline'), the kick joins the feed under the kicker's name, and when the kicked user
        is me the whole room is cleared. */
    method OnUserKicked(userId: int, nickname: Option<string>, status: Option<string>, kickedBy: int,
                        kickedByNickname: Option<string>, kickedAt: Option<string>, me: Option<int>,
                        now: string, opId: int, parse: BetParser)
      modifies this`roomInfo, this`operations, this`settlementContext
      ensures me == Some(userId) ==> roomInfo.None? && operations == [] && settlementContext == None
      ensures me != Some(userId) ==>
                && settlementContext == old(settlementContext)
                && operations == [KickOperation(userId, nickname, kickedBy, kickedByNickname, kickedAt, now, opId)]
                                 + old(operations)
                && (old(roomInfo).None? ==> roomInfo.None?)
                && (old(roomInfo).Some? ==>
                      roomInfo == Some(old(roomInfo).value.(members := Upsert(old(roomInfo).value.members,
                                         MemberUpdate(userId, nickname, None, Some(if status.Some? then status.value else "offline"))))))
    {
      UpdateMember(MemberUpdate(userId, nickname, None, Some(if status.Some? then status.value else "offline")));
      AddOperation(KickOperation(userId, nickname, kickedBy, kickedByNickname, kickedAt, now, opId), parse);
      if me == Some(userId) {
        ClearRoomInfo();
      }
    }
  }

  /** The feed text of a confirmation. */
  const ConfirmedDescription: string := "确认了结算"

  /** The feed entry of a kick: "踢出了" followed by the nickname as JavaScript renders it. */
  function KickOperation(userId: int, nickname: Option<string>, kickedBy: int, kickedByNickname: Option<string>,
                         kickedAt: Option<string>, now: string, opId: int): (op: Operation)
    ensures op.operationType == "kick" && op.userId == kickedBy && op.targetUserId == Some(userId)
    ensures op.bets.None? && op.amount.None?
  {
    Operation(opId, kickedBy, kickedByNickname, "kick", None,
              "踢出了" + (if nickname.Some? then nickname.value else "undefined"),
              Some(userId), nickname, if kickedAt.Some? then kickedAt.value else now, None)
  }

  /** After a confirmation every member's balance is 0 and no member is added, lost or
      otherwise changed. */
  lemma ZeroBalancesSettles(members: seq<Member>)
    ensures forall k :: 0 <= k < |ZeroBalances(members)| ==> ZeroBalances(members)[k].balance == 0
    ensures forall k :: 0 <= k < |members| ==>
              var m := ZeroBalances(members)[k];
              m.userId == members[k].userId && m.nickname == members[k].nickname && m.status == members[k].status
  {
  }
}
