/** The request checks of the operation and room controllers (backend/controllers/operation.go,
    backend/controllers/room.go) in front of the ledger: what is refused before a service
    runs, and the order of the guarded service calls of a dissolution. */
module Controllers {
  import opened Common
  import opened Models
  import opened Ledger
  import opened SettlementPlan

  /** Why a request is answered 400 before any service runs. */
  datatype RequestProblem =
    | NoBetTargets        // a niuniu bet with an empty list
    | InvalidBetTarget    // a niuniu entry whose target id is 0
    | NonPositiveStake    // a niuniu entry whose amount is not positive
    | NonPositiveBet      // a bet amount that is not positive (binding gt=0)

  datatype ApiError = BadRequest(problem: RequestProblem) | ServiceFailed(error: LedgerError)

  /** One niuniu entry passes the controller's checks. */
  predicate ValidEntry(b: BetItem) {
    b.to != 0 && b.amount > 0
  }

  /** The loop over the entries: the first failing entry decides, its target checked before
      its amount. */
  function FirstBadEntry(bets: seq<BetItem>): Option<RequestProblem> {
    if |bets| == 0 then None
    else if bets[0].to == 0 then Some(InvalidBetTarget)
    else if bets[0].amount <= 0 then Some(NonPositiveStake)
    else FirstBadEntry(bets[1..])
  }

  /** The checks of a niuniu request, None when it may go to the service. */
  function CheckNiuniuBets(bets: seq<BetItem>): Option<RequestProblem> {
    if |bets| == 0 then Some(NoBetTargets) else FirstBadEntry(bets)
  }

  /** The entry loop passes exactly when every entry is valid. */
  lemma {:induction false} FirstBadEntryNone(bets: seq<BetItem>)
    ensures FirstBadEntry(bets).None? <==> forall k :: 0 <= k < |bets| ==> ValidEntry(bets[k])
  {
    if |bets| > 0 {
      FirstBadEntryNone(bets[1..]);
      assert forall k :: 1 <= k < |bets| ==> bets[k] == bets[1..][k - 1];
    }
  }

  /** The entry loop reports the problem of the first invalid entry: a zero target if that
      entry has one, otherwise its amount. */
  lemma {:induction false} FirstBadEntryIsFirst(bets: seq<BetItem>, k: nat)
    requires k < |bets| && !ValidEntry(bets[k])
    requires forall j :: 0 <= j < k ==> ValidEntry(bets[j])
    ensures FirstBadEntry(bets) == Some(if bets[k].to == 0 then InvalidBetTarget else NonPositiveStake)
  {
    if k > 0 {
      assert forall j :: 0 <= j < k - 1 ==> bets[1..][j] == bets[j + 1];
      FirstBadEntryIsFirst(bets[1..], k - 1);
    }
  }

  /** A niuniu request is accepted exactly when it names at least one entry and every entry
      has a target and a positive amount; accepted stakes are all positive, so the service's
      own amount check cannot fail on them. */
  lemma NiuniuRequestAccepted(bets: seq<BetItem>)
    ensures CheckNiuniuBets(bets).None? <==>
              |bets| > 0 && forall k :: 0 <= k < |bets| ==> ValidEntry(bets[k])
    ensures CheckNiuniuBets(bets).None? ==> PositiveStakes(bets) && SumStakes(bets) > 0
  {
    FirstBadEntryNone(bets);
    if CheckNiuniuBets(bets).None? {
      SumStakesPositive(bets);
    }
  }

  /** POST niuniu-bet: the request checks, then the service. A refused request changes nothing. */
  method NiuniuBetRequest(room: Room, u: UserId, bets: seq<BetItem>, now: Time)
    returns (r: Result<NiuniuStake, ApiError>)
    requires room.Valid()
    modifies room`balances, room`ops, room`events, room`betRecords
    ensures CheckNiuniuBets(bets).Some? ==>
              r == Err(BadRequest(CheckNiuniuBets(bets).value))
              && room.balances == old(room.balances) && room.ops == old(room.ops)
              && room.events == old(room.events) && room.betRecords == old(room.betRecords)
    ensures CheckNiuniuBets(bets).None? ==>
              && (r.Ok? <==> u in Users(old(room.balances)))
              && (r.Err? ==> r == Err(ServiceFailed(BalanceNotFound)))
              && (r.Ok? ==> r.value.total == SumStakes(bets) > 0
                            && room.balances == Credit(old(room.balances), u, -SumStakes(bets))
                            && room.betRecords == old(room.betRecords) + StakeRecords(u, bets, now))
    ensures room.Valid() && room.Holdings() == old(room.Holdings())
  {
    var problem := CheckNiuniuBets(bets);
    if problem.Some? {
      return Err(BadRequest(problem.value));
    }
    NiuniuRequestAccepted(bets);
    var s := room.NiuniuBet(u, bets, now);
    if s.Err? {
      return Err(ServiceFailed(s.error));
    }
    r := Ok(s.value);
  }

  /** POST bet: the binding refuses an amount that is not positive; then the service. */
  method BetRequest(room: Room, u: UserId, amount: int, now: Time) returns (r: Result<Stake, ApiError>)
    requires room.Valid()
    modifies room`balances, room`ops, room`events
    ensures amount <= 0 ==>
              r == Err(BadRequest(NonPositiveBet)) && room.balances == old(room.balances)
              && room.ops == old(room.ops) && room.events == old(room.events)
    ensures amount > 0 ==>
              && (r.Ok? <==> u in Users(old(room.balances)))
              && (r.Err? ==> r == Err(ServiceFailed(BalanceNotFound)))
              && (r.Ok? ==> room.balances == Credit(old(room.balances), u, -amount)
                            && r.value.pot == old(Pot(room.ops)) + amount)
    ensures room.Valid() && room.Holdings() == old(room.Holdings())
  {
    if amount <= 0 {
      return Err(BadRequest(NonPositiveBet));
    }
    var s := room.Bet(u, amount, now);
    if s.Err? {
      return Err(ServiceFailed(s.error));
    }
    r := Ok(s.value);
  }

  /** POST withdraw: any amount goes to the service, where 0 or less means the whole table. */
  method WithdrawRequest(room: Room, u: UserId, amount: int, now: Time) returns (r: Result<Withdrawal, ApiError>)
    requires room.Valid()
    modifies room`balances, room`ops, room`events
    ensures r.Ok? <==> old(Pot(room.ops)) > 0 && amount <= old(Pot(room.ops)) && u in Users(old(room.balances))
    ensures r.Ok? ==> r.value.taken == (if amount <= 0 then old(Pot(room.ops)) else amount)
                      && room.balances == Credit(old(room.balances), u, r.value.taken)
    ensures r.Ok? && amount <= 0 ==> Pot(room.ops) == 0
    ensures r.Err? ==> r.error.ServiceFailed? && room.balances == old(room.balances) && room.ops == old(room.ops)
    ensures room.Valid() && room.Holdings() == old(room.Holdings())
  {
    var s := room.Withdraw(u, amount, now);
    if s.Err? {
      return Err(ServiceFailed(s.error));
    }
    RawPotAppend(old(room.ops), room.ops[|room.ops| - 1]);
    assert old(room.ops) + [room.ops[|room.ops| - 1]] == room.ops;
    r := Ok(s.value);
  }

  /** DELETE room: the membership check, then the table check, and only then the settlement
      and the dissolution; each refusal stops the sequence before anything is written. */
  method DissolveRoom(room: Room, u: UserId, now: Time, batchId: string) returns (r: Result<Time, ApiError>)
    requires room.Valid()
    modifies room`status, room`dissolvedAt, room`balances, room`settlements, room`ops, room`events
    ensures !old(room.IsActiveMember(u)) ==>
              r == Err(ServiceFailed(NotInRoom)) && unchanged(room)
    ensures old(room.IsActiveMember(u)) && old(Pot(room.ops)) != 0 ==>
              r == Err(ServiceFailed(PotNotZero(old(Pot(room.ops))))) && unchanged(room)
    ensures old(room.IsActiveMember(u)) && old(Pot(room.ops)) == 0 ==>
              && r == Ok(now)
              && room.settlements == old(room.settlements)
                                     + BatchRows(old(room.balances), room.chipRate, now, batchId)
              && room.balances == Zeroed(old(room.balances))
              && room.ops == old(room.ops) + [Operation(u, SettlementConfirmedOp, None, None, [], now)]
              && room.status == Dissolved && room.dissolvedAt == Some(now)
              && room.events == old(room.events) + [SettlementConfirmed(u, batchId, now), RoomDissolvedEvent(now)]
    ensures room.Valid()
  {
    if !room.IsActiveMember(u) {
      return Err(ServiceFailed(NotInRoom));
    }
    var pot := Pot(room.ops);
    if pot != 0 {
      return Err(ServiceFailed(PotNotZero(pot)));
    }
    r := SettleAndDissolve(room, u, now, batchId);
  }

  /** The tail of DissolveRoom once both checks have passed: ConfirmSettlement first, then
      ManualDissolveRoom. Their error returns cannot be taken after those checks. */
  method SettleAndDissolve(room: Room, u: UserId, now: Time, batchId: string) returns (r: Result<Time, ApiError>)
    requires room.Valid() && room.status == Active && Pot(room.ops) == 0
    modifies room`status, room`dissolvedAt, room`balances, room`settlements, room`ops, room`events
    ensures r == Ok(now)
    ensures room.settlements == old(room.settlements) + BatchRows(old(room.balances), room.chipRate, now, batchId)
    ensures room.balances == Zeroed(old(room.balances))
    ensures room.ops == old(room.ops) + [Operation(u, SettlementConfirmedOp, None, None, [], now)]
    ensures room.status == Dissolved && room.dissolvedAt == Some(now)
    ensures room.events == old(room.events) + [SettlementConfirmed(u, batchId, now), RoomDissolvedEvent(now)]
    ensures room.Valid()
  {
    ghost var rows := BatchRows(room.balances, room.chipRate, now, batchId);
    ghost var balances := Zeroed(room.balances);
    ghost var settlements := room.settlements + rows;
    ghost var ops := room.ops + [Operation(u, SettlementConfirmedOp, None, None, [], now)];
    ghost var events0 := room.events;
    ghost var events := events0 + [SettlementConfirmed(u, batchId, now)];
    assert events + [RoomDissolvedEvent(now)] == events0 + [SettlementConfirmed(u, batchId, now), RoomDissolvedEvent(now)];
    var confirmed := room.ConfirmSettlement(u, now, batchId);
    // the pot was checked just before, so the confirmation cannot be refused
    assert confirmed.Ok?;
    assert room.balances == balances && room.settlements == settlements;
    assert room.ops == ops && room.events == events;
    var dissolved := room.ManualDissolve(now);
    // the room was active, so the dissolution cannot be refused either
    assert dissolved == Ok(now);
    assert room.balances == balances && room.settlements == settlements && room.ops == ops;
    assert room.events == events + [RoomDissolvedEvent(now)];
    r := Ok(dissolved.value);
  }
}
