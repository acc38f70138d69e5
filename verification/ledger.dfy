/** The chip ledger of one room: the derived table balance ("pot"), the four money
    operations (bet, withdraw, force transfer, niuniu bet), membership, the inactivity
    dissolution with its automatic settlement, and the manual settlement
    (backend/services/operation_service.go, room_service.go, settlement_service.go). */
module Ledger {
  import opened Common
  import opened Models
  import opened Rates
  import opened SettlementPlan

  /** A room whose latest activity is this old is dissolved by the watcher. */
  const InactivityPeriod: int := 12 * Hour

  datatype LedgerError =
    | InvalidAmount          // a stake that is not positive
    | BalanceNotFound        // the user has no balance row in the room
    | PotEmpty               // nothing on the table to take
    | ExceedsPot             // a withdrawal larger than the table
    | NotInRoom              // the acting user has no membership
    | TargetNotInRoom        // the target user has no membership
    | PotNotZero(pot: int)   // settlement while chips are still on the table
    | RoomDissolved          // the room is no longer active
    | NoLastRoom             // the user has no open membership anywhere

  /** What the services broadcast to the room, with the payload reduced to its facts. */
  datatype Event =
    | BetPlaced(user: UserId, amount: int, balance: int, pot: int, at: Time)
    | Withdrawn(user: UserId, amount: int, balance: int, pot: int, at: Time)
    | ForceTransferred(actor: UserId, target: UserId, amount: int, actorBalance: int,
                       targetBalance: int, pot: int, at: Time)
    | NiuniuBetPlaced(user: UserId, bets: seq<BetItem>, total: int, balance: int, pot: int, at: Time)
    | MemberJoined(user: UserId, at: Time)
    | MemberLeft(user: UserId, at: Time)
    | MemberKicked(target: UserId, kickedBy: UserId, at: Time)
    | MemberReturned(user: UserId, at: Time)
    | SettlementProposed(initiator: UserId, plan: seq<Transfer>, at: Time)
    | SettlementConfirmed(confirmer: UserId, batch: string, at: Time)
    | RoomDissolvedEvent(at: Time)

  // ---------------------------------------------------------------------------
  // The table balance, recomputed from the operation log
  // ---------------------------------------------------------------------------

  /** The amount column of an operation; a missing amount adds nothing to a SUM. */
  function AmountOf(op: Operation): int {
    if op.amount.Some? then op.amount.value else 0
  }

  /** SUM(amount) over the operations whose kind is in kinds. */
  function KindTotal(ops: seq<Operation>, kinds: set<OpKind>): int {
    if |ops| == 0 then 0
    else KindTotal(ops[..|ops| - 1], kinds)
         + (if ops[|ops| - 1].kind in kinds then AmountOf(ops[|ops| - 1]) else 0)
  }

  /** Chips put on the table. */
  const StakeKinds: set<OpKind> := {BetOp, NiuniuBetOp}

  /** Chips taken off the table, as the pot query counts them. */
  const WithdrawKinds: set<OpKind> := {WithdrawOp}

  /** Chips taken off the table, counting a force transfer as the withdrawal it is. */
  const TakeKinds: set<OpKind> := {WithdrawOp, ForceTransferOp}

  /** The pot query as written: stakes minus withdrawals, ignoring force transfers. */
  function RawPotAsWritten(ops: seq<Operation>): int {
    KindTotal(ops, StakeKinds) - KindTotal(ops, WithdrawKinds)
  }

  /** CalculateTableBalanceWithDB as written, floored at 0. */
  function PotAsWritten(ops: seq<Operation>): (r: nat)
    ensures r == Max(0, RawPotAsWritten(ops))
  {
    var raw := RawPotAsWritten(ops);
    if raw < 0 then 0 else raw
  }

  /** The pot with force transfers taken off the table. */
  function RawPot(ops: seq<Operation>): int {
    KindTotal(ops, StakeKinds) - KindTotal(ops, TakeKinds)
  }

  /** The table balance the rest of the model uses, floored at 0. */
  function Pot(ops: seq<Operation>): (r: nat)
    ensures r == Max(0, RawPot(ops))
  {
    var raw := RawPot(ops);
    if raw < 0 then 0 else raw
  }

  /** How one operation moves the chips on the table: stakes add their amount,
      withdrawals and force transfers remove theirs, everything else is neutral. */
  function Effect(op: Operation): int {
    match op.kind
    case BetOp => AmountOf(op)
    case NiuniuBetOp => AmountOf(op)
    case WithdrawOp => -AmountOf(op)
    case ForceTransferOp => -AmountOf(op)
    case _ => 0
  }

  /** The pot changes by exactly the effect of each appended operation. */
  lemma RawPotAppend(ops: seq<Operation>, op: Operation)
    ensures RawPot(ops + [op]) == RawPot(ops) + Effect(op)
  {
    assert (ops + [op])[..|ops|] == ops;
  }

  /** As written, the pot moves by the effect of each appended operation except a force
      transfer, which it does not see. */
  lemma PotsAppend(ops: seq<Operation>, op: Operation)
    ensures RawPot(ops + [op]) == RawPot(ops) + Effect(op)
    ensures RawPotAsWritten(ops + [op])
            == RawPotAsWritten(ops) + (if op.kind == ForceTransferOp then 0 else Effect(op))
  {
    assert (ops + [op])[..|ops|] == ops;
  }

  /** Operations that are not stakes, withdrawals or force transfers leave the pot alone. */
  lemma NeutralOpKeepsPot(ops: seq<Operation>, op: Operation)
    requires op.kind !in StakeKinds + TakeKinds
    ensures Pot(ops + [op]) == Pot(ops) && PotAsWritten(ops + [op]) == PotAsWritten(ops)
  {
    PotsAppend(ops, op);
  }

  /** Without force transfers in the log both formulas agree. */
  lemma {:induction false} PotsAgreeWithoutForceTransfer(ops: seq<Operation>)
    requires forall k :: 0 <= k < |ops| ==> ops[k].kind != ForceTransferOp
    ensures RawPotAsWritten(ops) == RawPot(ops) && PotAsWritten(ops) == Pot(ops)
  {
    if |ops| > 0 {
      var init := ops[..|ops| - 1];
      PotsAgreeWithoutForceTransfer(init);
      assert init + [ops[|ops| - 1]] == ops;
      PotsAppend(init, ops[|ops| - 1]);
    }
  }

  /** The operation log of the end-to-end room scenario: owner 1 bets 500, member 2 bets 300,
      owner 1 stakes 50 in a niuniu bet on 2, withdraws 250, then moves the remaining 600
      to member 2 by force transfer. */
  function ScenarioOps(): seq<Operation> {
    [ Operation(1, BetOp, Some(500), None, [], 1),
      Operation(2, BetOp, Some(300), None, [], 2),
      Operation(1, NiuniuBetOp, Some(50), None, [BetItem(2, 50)], 3),
      Operation(1, WithdrawOp, Some(250), None, [], 4),
      Operation(1, ForceTransferOp, Some(600), Some(2), [], 5) ]
  }

  /** As written, the pot still shows the 600 chips that the force transfer handed to
      member 2, where the room's own expectation is an empty table; with force transfers
      counted the table is empty. */
  lemma ForceTransferLeavesPhantomPot()
    ensures PotAsWritten(ScenarioOps()) == 600
    ensures Pot(ScenarioOps()) == 0
  {
    var s := ScenarioOps();
    assert RawPot([]) == 0 && RawPotAsWritten([]) == 0;
    PotsAppend([], s[0]);
    assert [] + [s[0]] == s[..1];
    PotsAppend(s[..1], s[1]);
    assert s[..1] + [s[1]] == s[..2];
    PotsAppend(s[..2], s[2]);
    assert s[..2] + [s[2]] == s[..3];
    PotsAppend(s[..3], s[3]);
    assert s[..3] + [s[3]] == s[..4];
    PotsAppend(s[..4], s[4]);
    assert s[..4] + [s[4]] == s;
  }

  // ---------------------------------------------------------------------------
  // Niuniu stakes
  // ---------------------------------------------------------------------------

  /** The total of a niuniu bet. */
  function SumStakes(bets: seq<BetItem>): int {
    if |bets| == 0 then 0 else SumStakes(bets[..|bets| - 1]) + bets[|bets| - 1].amount
  }

  /** The bet_records rows of a niuniu bet, one per item. */
  function StakeRecords(from: UserId, bets: seq<BetItem>, at: Time): (r: seq<BetRecord>)
    ensures |r| == |bets|
    ensures forall k :: 0 <= k < |bets| ==> r[k] == BetRecord(from, bets[k].to, bets[k].amount, at)
  {
    seq(|bets|, k requires 0 <= k < |bets| => BetRecord(from, bets[k].to, bets[k].amount, at))
  }

  /** Every stake of a niuniu bet is positive. */
  predicate PositiveStakes(bets: seq<BetItem>) {
    forall k :: 0 <= k < |bets| ==> bets[k].amount > 0
  }

  /** With every stake positive the total is at least each stake and positive when
      there is any stake at all. */
  lemma {:induction false} SumStakesPositive(bets: seq<BetItem>)
    requires PositiveStakes(bets)
    ensures |bets| > 0 ==> SumStakes(bets) >= |bets|
    ensures |bets| == 0 ==> SumStakes(bets) == 0
  {
    if |bets| > 0 {
      SumStakesPositive(bets[..|bets| - 1]);
    }
  }

  /** The loop of NiuniuBet over the stakes: accumulates the total and the bet rows, and
      stops at the first stake that is not positive. */
  method CollectStakes(u: UserId, bets: seq<BetItem>, now: Time)
    returns (ok: bool, total: int, pending: seq<BetRecord>)
    ensures ok <==> PositiveStakes(bets)
    ensures ok ==> total == SumStakes(bets) && total >= 0 && pending == StakeRecords(u, bets, now)
  {
    total := 0;
    pending := [];
    var i := 0;
    while i < |bets|
      invariant 0 <= i <= |bets|
      invariant forall k :: 0 <= k < i ==> bets[k].amount > 0
      invariant total == SumStakes(bets[..i])
      invariant pending == StakeRecords(u, bets[..i], now)
    {
      if bets[i].amount <= 0 {
        return false, total, pending;
      }
      assert bets[..i + 1][..i] == bets[..i];
      total := total + bets[i].amount;
      pending := pending + [BetRecord(u, bets[i].to, bets[i].amount, now)];
      i := i + 1;
    }
    assert bets[..i] == bets;
    SumStakesPositive(bets);
    ok := true;
  }

  // ---------------------------------------------------------------------------
  // Membership queries
  // ---------------------------------------------------------------------------

  /** Some membership row of u, open or closed. */
  predicate HasMembership(members: seq<Membership>, u: UserId) {
    exists k :: 0 <= k < |members| && members[k].user == u
  }

  /** The first open membership of u (left_at IS NULL). */
  function OpenMembership(members: seq<Membership>, u: UserId): (r: Option<nat>)
    ensures r.Some? ==> r.value < |members| && members[r.value].user == u
                        && members[r.value].leftAt.None?
    ensures r.None? <==> forall k :: 0 <= k < |members| ==>
                           members[k].user != u || members[k].leftAt.Some?
  {
    if |members| == 0 then None
    else if members[0].user == u && members[0].leftAt.None? then Some(0)
    else
      var t := OpenMembership(members[1..], u);
      if t.None? then
        assert forall k :: 1 <= k < |members| ==> members[k] == members[1..][k - 1];
        None
      else Some(t.value + 1)
  }

  /** The time of the latest operation, if any. */
  function LatestAt(ops: seq<Operation>, kinds: set<OpKind>): (r: Option<Time>)
    ensures r.None? <==> forall k :: 0 <= k < |ops| ==> ops[k].kind !in kinds
    ensures r.Some? ==> (exists k :: 0 <= k < |ops| && ops[k].kind in kinds && ops[k].at == r.value)
                        && forall k :: 0 <= k < |ops| && ops[k].kind in kinds ==> ops[k].at <= r.value
  {
    if |ops| == 0 then None
    else
      var init := ops[..|ops| - 1];
      var last := ops[|ops| - 1];
      var t := LatestAt(init, kinds);
      assert forall k :: 0 <= k < |init| ==> init[k] == ops[k];
      if last.kind !in kinds then t
      else if t.None? || t.value <= last.at then Some(last.at)
      else t
  }

  const AllKinds: set<OpKind> :=
    {CreateOp, JoinOp, LeaveOp, ReturnOp, BetOp, WithdrawOp, KickOp, ForceTransferOp,
     NiuniuBetOp, SettlementInitiatedOp, SettlementConfirmedOp}

  const FinancialKinds: set<OpKind> := {BetOp, WithdrawOp, NiuniuBetOp}

  lemma EveryKind(k: OpKind)
    ensures k in AllKinds
  {
  }

  /** An operation stamped now makes the room's last activity no earlier than now. */
  lemma ActiveAfterAppend(ops: seq<Operation>, op: Operation, createdAt: Time)
    ensures LastActivity(ops + [op], createdAt) >= op.at
  {
    EveryKind(op.kind);
    assert (ops + [op])[|ops|] == op;
  }

  // ---------------------------------------------------------------------------
  // Inactivity and automatic settlement
  // ---------------------------------------------------------------------------

  /** The moment the inactivity check measures from: the latest operation of any kind,
      or the creation time of a room without operations. */
  function LastActivity(ops: seq<Operation>, createdAt: Time): Time {
    var latest := LatestAt(ops, AllKinds);
    if latest.None? then createdAt else latest.value
  }

  /** The settlement time of an automatic settlement: the latest financial operation if
      there is one, else the last activity; a zero or future time becomes now. */
  function AutoSettleTime(ops: seq<Operation>, createdAt: Time, now: Time): (r: Time)
    ensures r != 0 || now == 0
    ensures r <= now
    ensures r == now || r == LastActivity(ops, createdAt)
            || exists k :: 0 <= k < |ops| && ops[k].kind in FinancialKinds && ops[k].at == r
  {
    var fin := LatestAt(ops, FinancialKinds);
    var t := if fin.Some? then fin.value else LastActivity(ops, createdAt);
    if t == 0 || t > now then now else t
  }

  /** Row b holds the highest balance, ties going to the lowest user id. */
  predicate IsBest(rows: seq<BalanceRow>, b: nat) {
    b < |rows| &&
    forall k :: 0 <= k < |rows| ==>
      rows[k].balance < rows[b].balance
      || (rows[k].balance == rows[b].balance && rows[b].user <= rows[k].user)
  }

  /** With unique users at most one row is best. */
  lemma BestUnique(rows: seq<BalanceRow>, b: nat, c: nat)
    requires UniqueUsers(rows) && IsBest(rows, b) && IsBest(rows, c)
    ensures b == c
  {
    assert rows[b].balance == rows[c].balance;
    assert rows[b].user == rows[c].user;
    UniqueIndex(rows, b, c);
  }

  /** The row the automatic settlement hands the pot to: scanning in table order, a row
      replaces the current choice when its balance is higher, or equal with a lower user id. */
  function BestRow(rows: seq<BalanceRow>): (b: nat)
    requires |rows| > 0
    ensures IsBest(rows, b)
  {
    if |rows| == 1 then 0
    else
      var p := BestRow(rows[..|rows| - 1]);
      var last := |rows| - 1;
      assert forall k :: 0 <= k < last ==> rows[..last][k] == rows[k];
      if rows[last].balance > rows[p].balance
         || (rows[last].balance == rows[p].balance && rows[last].user < rows[p].user)
      then last else p
  }

  /** The bestIdx scan of autoSettleRoomWithDB. */
  method FindBest(rows: seq<BalanceRow>) returns (best: nat)
    requires |rows| > 0
    ensures IsBest(rows, best) && best == BestRow(rows)
  {
    best := 0;
    var i := 1;
    while i < |rows|
      invariant 1 <= i <= |rows|
      invariant best == BestRow(rows[..i])
    {
      assert rows[..i + 1][..i] == rows[..i];
      if rows[i].balance > rows[best].balance
         || (rows[i].balance == rows[best].balance && rows[i].user < rows[best].user) {
        best := i;
      }
      i := i + 1;
    }
    assert rows[..i] == rows;
  }

  /** The balances after the pot is handed to row b. */
  function Award(rows: seq<BalanceRow>, b: nat, pot: int): (r: seq<BalanceRow>)
    requires b < |rows|
    ensures |r| == |rows|
    ensures forall k :: 0 <= k < |rows| ==> r[k].user == rows[k].user
  {
    rows[b := BalanceRow(rows[b].user, rows[b].balance + pot)]
  }

  /** The settlement row of one balance row: none for a zero balance. */
  function BatchRow(row: BalanceRow, rate: string, at: Time, batch: string): seq<SettlementRow> {
    if row.balance == 0 then []
    else [SettlementRow(row.user, row.balance, CalculateRmb(row.balance, rate), at, batch)]
  }

  /** One settlement row per non-zero balance, in table order, all in one batch. */
  function BatchRows(rows: seq<BalanceRow>, rate: string, at: Time, batch: string): seq<SettlementRow> {
    if |rows| == 0 then []
    else BatchRow(rows[0], rate, at, batch) + BatchRows(rows[1..], rate, at, batch)
  }

  function SumChips(s: seq<SettlementRow>): int {
    if |s| == 0 then 0 else s[0].chips + SumChips(s[1..])
  }

  function SumRmb(s: seq<SettlementRow>): real {
    if |s| == 0 then 0.0 else s[0].rmb + SumRmb(s[1..])
  }

  /** The chips a batch credits to u. */
  function ChipsFor(s: seq<SettlementRow>, u: UserId): int {
    if |s| == 0 then 0 else (if s[0].user == u then s[0].chips else 0) + ChipsFor(s[1..], u)
  }

  /** The balances the automatic settlement writes out: a positive pot goes to the best row. */
  function AutoSettleRows(rows: seq<BalanceRow>, pot: int): seq<BalanceRow> {
    if pot > 0 && |rows| > 0 then Award(rows, BestRow(rows), pot) else rows
  }

  lemma {:induction false} SumUpdate(rows: seq<BalanceRow>, b: nat, row: BalanceRow, u: UserId)
    requires b < |rows|
    ensures SumBalances(rows[b := row]) == SumBalances(rows) - rows[b].balance + row.balance
    ensures SumFor(rows[b := row], u) == SumFor(rows, u) - (if rows[b].user == u then rows[b].balance else 0)
                                        + (if row.user == u then row.balance else 0)
  {
    if b > 0 {
      assert rows[b := row][1..] == rows[1..][b - 1 := row];
      SumUpdate(rows[1..], b - 1, row, u);
    }
  }

  /** The pot lands in the best row and nowhere else: the written-out balances total the
      table's balances plus the pot, and only the best user's total moves. */
  lemma AutoSettleRowsTotals(rows: seq<BalanceRow>, pot: int, u: UserId)
    ensures SumBalances(AutoSettleRows(rows, pot))
            == SumBalances(rows) + (if pot > 0 && |rows| > 0 then pot else 0)
    ensures SumFor(AutoSettleRows(rows, pot), u)
            == SumFor(rows, u) + (if pot > 0 && |rows| > 0 && rows[BestRow(rows)].user == u then pot else 0)
  {
    if pot > 0 && |rows| > 0 {
      var b := BestRow(rows);
      SumUpdate(rows, b, BalanceRow(rows[b].user, rows[b].balance + pot), u);
    }
  }

  /** autoSettleRoomWithDB's loop over the balance rows: skips zero balances and writes a
      settlement row for each other one. */
  method BuildBatch(rows: seq<BalanceRow>, rate: string, at: Time, batch: string)
    returns (out: seq<SettlementRow>)
    ensures out == BatchRows(rows, rate, at, batch)
  {
    out := [];
    var i := 0;
    while i < |rows|
      invariant 0 <= i <= |rows|
      invariant out + BatchRows(rows[i..], rate, at, batch) == BatchRows(rows, rate, at, batch)
    {
      assert rows[i..][1..] == rows[i + 1..];
      var next := BatchRows(rows[i + 1..], rate, at, batch);
      assert BatchRows(rows[i..], rate, at, batch) == BatchRow(rows[i], rate, at, batch) + next;
      if rows[i].balance != 0 {
        var row := SettlementRow(rows[i].user, rows[i].balance, CalculateRmb(rows[i].balance, rate), at, batch);
        assert out + [row] + next == out + ([row] + next);
        out := out + [row];
      }
      i := i + 1;
    }
    assert out + [] == out;
  }

  /** A row of a settlement batch: a non-zero amount, the batch id, the settlement time and
      the money value of its chips at the room's rate. */
  predicate InBatch(row: SettlementRow, rate: string, at: Time, batch: string) {
    row.chips != 0 && row.batch == batch && row.settledAt == at && row.rmb == CalculateRmb(row.chips, rate)
  }

  /** Every row of a batch is a proper batch row for a user of the table. */
  lemma {:induction false} BatchRowsShape(rows: seq<BalanceRow>, rate: string, at: Time, batch: string)
    ensures forall k :: 0 <= k < |BatchRows(rows, rate, at, batch)| ==>
              InBatch(BatchRows(rows, rate, at, batch)[k], rate, at, batch)
              && BatchRows(rows, rate, at, batch)[k].user in Users(rows)
  {
    if |rows| > 0 {
      BatchRowsShape(rows[1..], rate, at, batch);
      UsersCons(rows);
      var head: seq<SettlementRow> := BatchRow(rows[0], rate, at, batch);
      var tail: seq<SettlementRow> := BatchRows(rows[1..], rate, at, batch);
      assert BatchRows(rows, rate, at, batch) == head + tail;
      forall k | 0 <= k < |head + tail|
        ensures InBatch((head + tail)[k], rate, at, batch) && (head + tail)[k].user in Users(rows)
      {
        if k < |head| {
          assert (head + tail)[k] == head[k];
        } else {
          assert (head + tail)[k] == tail[k - |head|];
        }
      }
    }
  }

  lemma BatchRowTotals(row: BalanceRow, rate: string, at: Time, batch: string, u: UserId)
    ensures SumChips(BatchRow(row, rate, at, batch)) == row.balance
    ensures ChipsFor(BatchRow(row, rate, at, batch), u) == (if row.user == u then row.balance else 0)
    ensures SumRmb(BatchRow(row, rate, at, batch)) == CalculateRmb(row.balance, rate)
  {
    if row.balance == 0 {
      ZeroRmb(rate);
    }
  }

  /** The batch carries each user's whole balance: its chip total per user, and in all,
      equals the table's. */
  lemma {:induction false} BatchRowsTotals(rows: seq<BalanceRow>, rate: string, at: Time, batch: string, u: UserId)
    ensures SumChips(BatchRows(rows, rate, at, batch)) == SumBalances(rows)
    ensures ChipsFor(BatchRows(rows, rate, at, batch), u) == SumFor(rows, u)
  {
    if |rows| > 0 {
      BatchRowsTotals(rows[1..], rate, at, batch, u);
      BatchRowTotals(rows[0], rate, at, batch, u);
      ChipsConcat(BatchRow(rows[0], rate, at, batch), BatchRows(rows[1..], rate, at, batch));
      ChipsForConcat(BatchRow(rows[0], rate, at, batch), BatchRows(rows[1..], rate, at, batch), u);
    }
  }

  lemma {:induction false} ChipsConcat(a: seq<SettlementRow>, b: seq<SettlementRow>)
    ensures SumChips(a + b) == SumChips(a) + SumChips(b)
  {
    if |a| > 0 {
      assert (a + b)[1..] == a[1..] + b;
      ChipsConcat(a[1..], b);
    } else {
      assert a + b == b;
    }
  }

  lemma {:induction false} ChipsForConcat(a: seq<SettlementRow>, b: seq<SettlementRow>, u: UserId)
    ensures ChipsFor(a + b, u) == ChipsFor(a, u) + ChipsFor(b, u)
  {
    if |a| > 0 {
      assert (a + b)[1..] == a[1..] + b;
      ChipsForConcat(a[1..], b, u);
    } else {
      assert a + b == b;
    }
  }

  lemma {:induction false} RmbConcat(a: seq<SettlementRow>, b: seq<SettlementRow>)
    ensures SumRmb(a + b) == SumRmb(a) + SumRmb(b)
  {
    if |a| > 0 {
      assert (a + b)[1..] == a[1..] + b;
      RmbConcat(a[1..], b);
    } else {
      assert a + b == b;
    }
  }

  /** The money of a batch is the money value of its chips: a batch whose chips cancel
      out also cancels out in money. */
  lemma {:induction false} BatchRmbTotal(rows: seq<BalanceRow>, rate: string, at: Time, batch: string)
    ensures SumRmb(BatchRows(rows, rate, at, batch)) == CalculateRmb(SumBalances(rows), rate)
  {
    if |rows| == 0 {
      ZeroRmb(rate);
    } else {
      BatchRmbTotal(rows[1..], rate, at, batch);
      RmbLinear(rows[0].balance, SumBalances(rows[1..]), rate);
      BatchRowTotals(rows[0], rate, at, batch, rows[0].user);
      RmbConcat(BatchRow(rows[0], rate, at, batch), BatchRows(rows[1..], rate, at, batch));
    }
  }

  lemma ZeroRmb(rate: string)
    ensures CalculateRmb(0, rate) == 0.0
  {
    RmbLinear(0, 0, rate);
  }

  // ---------------------------------------------------------------------------
  // The room
  // ---------------------------------------------------------------------------

  /** UpdateUserBalanceWithDB on the room's balance table: adds delta to u's row and
      reports whether there was one; without a row the table is unchanged. */
  method UpdateUserBalance(rows: seq<BalanceRow>, u: UserId, delta: int)
    returns (updated: seq<BalanceRow>, found: bool)
    ensures found <==> BalanceOf(rows, u).Some?
    ensures found <==> u in Users(rows)
    ensures updated == Credit(rows, u, delta)
    ensures !found ==> updated == rows
    ensures Users(updated) == Users(rows) && (UniqueUsers(rows) ==> UniqueUsers(updated))
    ensures UniqueUsers(rows) ==> SumBalances(updated) == SumBalances(rows) + (if found then delta else 0)
    ensures found ==> BalanceOf(updated, u) == Some(BalanceOf(rows, u).value + delta)
  {
    found := BalanceOf(rows, u).Some?;
    updated := Credit(rows, u, delta);
    BalanceOfFound(rows, u);
    CreditKeepsUsers(rows, u, delta);
    if UniqueUsers(rows) {
      CreditSum(rows, u, delta);
    }
    if found {
      CreditBalanceOf(rows, u, delta, u);
    } else {
      CreditAbsent(rows, u, delta);
    }
  }

  /** autoSettleRoomWithDB's settlement rows: with any balance rows, a positive pot is added
      to the best row, then one row per non-zero balance is written under one batch. */
  method AutoSettleBatch(rows: seq<BalanceRow>, pot: int, rate: string, at: Time, batch: string)
    returns (out: seq<SettlementRow>)
    ensures out == BatchRows(AutoSettleRows(rows, pot), rate, at, batch)
  {
    if |rows| == 0 {
      return [];
    }
    var awarded := rows;
    if pot > 0 {
      var best := FindBest(rows);
      awarded := rows[best := BalanceRow(rows[best].user, rows[best].balance + pot)];
    }
    out := BuildBatch(awarded, rate, at, batch);
  }

  /** Everything a niuniu bet writes, worked out inside the transaction before the writes. */
  datatype NiuniuWrites = NiuniuWrites(rows: seq<BalanceRow>, records: seq<BetRecord>, op: Operation,
                                       balance: int, total: int, pot: int)

  /** The body of NiuniuBet's transaction on values: the stake loop, then the balance update
      of the bettor, the operation row and the recomputed table balance. */
  method PrepareNiuniu(rows: seq<BalanceRow>, ops: seq<Operation>, u: UserId, bets: seq<BetItem>, now: Time)
    returns (r: Result<NiuniuWrites, LedgerError>)
    requires UniqueUsers(rows) && RawPot(ops) >= 0
    ensures r.Ok? <==> PositiveStakes(bets) && u in Users(rows)
    ensures r.Err? ==> r.error == (if PositiveStakes(bets) then BalanceNotFound else InvalidAmount)
    ensures r.Ok? ==>
      var total := SumStakes(bets);
      && r.value.total == total && total >= 0
      && r.value.records == StakeRecords(u, bets, now)
      && r.value.rows == Credit(rows, u, -total)
      && r.value.op == Operation(u, NiuniuBetOp, Some(total), None, bets, now)
      && BalanceOf(rows, u) == Some(r.value.balance + total)
      && r.value.pot == Pot(ops) + total
      && UniqueUsers(r.value.rows) && RawPot(ops + [r.value.op]) >= 0
      && SumBalances(r.value.rows) + RawPot(ops + [r.value.op]) == SumBalances(rows) + RawPot(ops)
  {
    var ok, total, pending := CollectStakes(u, bets, now);
    if !ok {
      return Err(InvalidAmount);
    }
    var updated, found := UpdateUserBalance(rows, u, -total);
    if !found {
      return Err(BalanceNotFound);
    }
    assert pending == StakeRecords(u, bets, now) && total == SumStakes(bets);
    var op := Operation(u, NiuniuBetOp, Some(total), None, bets, now);
    RawPotAppend(ops, op);
    var w := NiuniuWrites(updated, pending, op, BalanceOf(updated, u).value, total, Pot(ops + [op]));
    r := Ok(w);
  }

  datatype Stake = Stake(balance: int, pot: int)
  datatype Withdrawal = Withdrawal(balance: int, pot: int, taken: int)
  datatype Transferred = Transferred(actorBalance: int, targetBalance: int, pot: int, amount: int)
  datatype NiuniuStake = NiuniuStake(balance: int, total: int)
  datatype Confirmed = Confirmed(batch: string, settledAt: Time)

  /** One room with its rows in every table that belongs to it. */
  class Room {
    const id: RoomId
    const code: string
    const roomType: string
    const chipRate: string
    const createdBy: UserId
    const createdAt: Time
    var status: RoomStatus
    var dissolvedAt: Option<Time>
    var members: seq<Membership>
    var balances: seq<BalanceRow>
    var ops: seq<Operation>
    var betRecords: seq<BetRecord>
    var settlements: seq<SettlementRow>
    var events: seq<Event>

    /** The unique index on balances, and a table that never holds fewer than 0 chips. */
    ghost predicate Valid()
      reads this
    {
      UniqueUsers(balances) && RawPot(ops) >= 0
    }

    /** All chips of the room: the members' balances plus what lies on the table. */
    function Holdings(): int
      reads this
    {
      SumBalances(balances) + RawPot(ops)
    }

    /** A new active room holding the creation operation and nothing else. */
    constructor (id: RoomId, code: string, roomType: string, chipRate: string, creator: UserId, now: Time)
      ensures this.id == id && this.code == code && this.roomType == roomType && this.chipRate == chipRate
      ensures createdBy == creator && createdAt == now
      ensures status == Active && dissolvedAt == None
      ensures members == [] && balances == [] && betRecords == [] && settlements == [] && events == []
      ensures ops == [Operation(creator, CreateOp, None, None, [], now)]
      ensures Valid() && Holdings() == 0
    {
      this.id := id;
      this.code := code;
      this.roomType := roomType;
      this.chipRate := chipRate;
      createdBy := creator;
      createdAt := now;
      status := Active;
      dissolvedAt := None;
      members := [];
      balances := [];
      ops := [Operation(creator, CreateOp, None, None, [], now)];
      betRecords := [];
      settlements := [];
      events := [];
      new;
      RawPotAppend([], Operation(creator, CreateOp, None, None, [], now));
      assert [] + [Operation(creator, CreateOp, None, None, [], now)] == ops;
    }

    /** Bet: moves amount chips from u's balance onto the table. */
    method Bet(u: UserId, amount: int, now: Time) returns (r: Result<Stake, LedgerError>)
      requires Valid()
      modifies this`balances, this`ops, this`events
      ensures r.Ok? <==> amount > 0 && u in Users(old(balances))
      ensures r.Err? ==> r.error == (if amount <= 0 then InvalidAmount else BalanceNotFound)
      ensures r.Err? ==> balances == old(balances) && ops == old(ops) && events == old(events)
      ensures r.Ok? ==>
        && balances == Credit(old(balances), u, -amount)
        && ops == old(ops) + [Operation(u, BetOp, Some(amount), None, [], now)]
        && r.value.pot == old(Pot(ops)) + amount
        && BalanceOf(old(balances), u) == Some(r.value.balance + amount)
        && events == old(events) + [BetPlaced(u, amount, r.value.balance, r.value.pot, now)]
      ensures Valid() && Holdings() == old(Holdings())
    {
      if amount <= 0 {
        return Err(InvalidAmount);
      }
      var updated, found := UpdateUserBalance(balances, u, -amount);
      if !found {
        return Err(BalanceNotFound);
      }
      var mine := BalanceOf(updated, u).value;
      var op := Operation(u, BetOp, Some(amount), None, [], now);
      RawPotAppend(ops, op);
      var pot := Pot(ops + [op]);
      balances := updated;
      ops := ops + [op];
      events := events + [BetPlaced(u, amount, mine, pot, now)];
      r := Ok(Stake(mine, pot));
    }

    /** Withdraw: takes amount chips from the table, or all of them when amount <= 0. */
    method Withdraw(u: UserId, amount: int, now: Time) returns (r: Result<Withdrawal, LedgerError>)
      requires Valid()
      modifies this`balances, this`ops, this`events
      ensures r.Ok? <==> old(Pot(ops)) > 0 && amount <= old(Pot(ops)) && u in Users(old(balances))
      ensures r.Err? ==> r.error == (if old(Pot(ops)) == 0 then PotEmpty
                                     else if amount > old(Pot(ops)) then ExceedsPot
                                     else BalanceNotFound)
      ensures r.Err? ==> balances == old(balances) && ops == old(ops) && events == old(events)
      ensures r.Ok? ==>
        var taken := if amount <= 0 then old(Pot(ops)) else amount;
        && r.value.taken == taken && 0 < taken <= old(Pot(ops))
        && balances == Credit(old(balances), u, taken)
        && ops == old(ops) + [Operation(u, WithdrawOp, Some(taken), None, [], now)]
        && BalanceOf(old(balances), u) == Some(r.value.balance - taken)
        && r.value.pot == old(Pot(ops)) - taken
        && events == old(events) + [Withdrawn(u, taken, r.value.balance, r.value.pot, now)]
      ensures Valid() && Holdings() == old(Holdings())
    {
      var available := Pot(ops);
      if available <= 0 {
        return Err(PotEmpty);
      }
      var taken := amount;
      if amount <= 0 {
        taken := available;
      } else if amount > available {
        return Err(ExceedsPot);
      }
      var updated, found := UpdateUserBalance(balances, u, taken);
      if !found {
        return Err(BalanceNotFound);
      }
      var mine := BalanceOf(updated, u).value;
      var op := Operation(u, WithdrawOp, Some(taken), None, [], now);
      RawPotAppend(ops, op);
      var pot := Pot(ops + [op]);
      balances := updated;
      ops := ops + [op];
      events := events + [Withdrawn(u, taken, mine, pot, now)];
      r := Ok(Withdrawal(mine, pot, taken));
    }

    /** ForceTransfer: hands the whole table to target; both users need some membership
        row, open or not, and both need a balance row. */
    method ForceTransfer(actor: UserId, target: UserId, now: Time) returns (r: Result<Transferred, LedgerError>)
      requires Valid()
      modifies this`balances, this`ops, this`events
      ensures r.Ok? <==> HasMembership(members, actor) && HasMembership(members, target)
                         && old(Pot(ops)) > 0
                         && target in Users(old(balances)) && actor in Users(old(balances))
      ensures r.Err? ==> r.error == (if !HasMembership(members, actor) then NotInRoom
                                     else if !HasMembership(members, target) then TargetNotInRoom
                                     else if old(Pot(ops)) == 0 then PotEmpty
                                     else BalanceNotFound)
      ensures r.Err? ==> balances == old(balances) && ops == old(ops) && events == old(events)
      ensures r.Ok? ==>
        var moved := old(Pot(ops));
        && r.value.amount == moved && r.value.pot == 0
        && balances == Credit(old(balances), target, moved)
        && ops == old(ops) + [Operation(actor, ForceTransferOp, Some(moved), Some(target), [], now)]
        && BalanceOf(old(balances), target) == Some(r.value.targetBalance - moved)
        && BalanceOf(old(balances), actor) == Some(r.value.actorBalance - (if actor == target then moved else 0))
        && events == old(events) + [ForceTransferred(actor, target, moved, r.value.actorBalance,
                                                      r.value.targetBalance, 0, now)]
      ensures Valid() && Holdings() == old(Holdings())
    {
      if !HasMembership(members, actor) {
        return Err(NotInRoom);
      }
      if !HasMembership(members, target) {
        return Err(TargetNotInRoom);
      }
      var available := Pot(ops);
      if available <= 0 {
        return Err(PotEmpty);
      }
      var updated, found := UpdateUserBalance(balances, target, available);
      if !found {
        return Err(BalanceNotFound);
      }
      var targetBalance := BalanceOf(updated, target).value;
      BalanceOfFound(balances, actor);
      CreditBalanceOf(balances, target, available, actor);
      var actorBalance := BalanceOf(updated, actor);
      if actorBalance.None? {
        return Err(BalanceNotFound);
      }
      var op := Operation(actor, ForceTransferOp, Some(available), Some(target), [], now);
      RawPotAppend(ops, op);
      var pot := Pot(ops + [op]);
      balances := updated;
      ops := ops + [op];
      events := events + [ForceTransferred(actor, target, available, actorBalance.value, targetBalance, pot, now)];
      r := Ok(Transferred(actorBalance.value, targetBalance, pot, available));
    }

    /** NiuniuBet: checks every stake, records one bet row per stake, then moves the total
        from u's balance onto the table in one step; a bad stake aborts everything. */
    method NiuniuBet(u: UserId, bets: seq<BetItem>, now: Time) returns (r: Result<NiuniuStake, LedgerError>)
      requires Valid()
      modifies this`balances, this`ops, this`events, this`betRecords
      ensures r.Ok? <==> PositiveStakes(bets) && u in Users(old(balances))
      ensures r.Err? ==> r.error == (if PositiveStakes(bets) then BalanceNotFound else InvalidAmount)
      ensures r.Err? ==> balances == old(balances) && ops == old(ops) && events == old(events)
                         && betRecords == old(betRecords)
      ensures r.Ok? ==>
        var total := SumStakes(bets);
        && r.value.total == total && total >= 0
        && betRecords == old(betRecords) + StakeRecords(u, bets, now)
        && balances == Credit(old(balances), u, -total)
        && ops == old(ops) + [Operation(u, NiuniuBetOp, Some(total), None, bets, now)]
        && BalanceOf(old(balances), u) == Some(r.value.balance + total)
        && events == old(events) + [NiuniuBetPlaced(u, bets, total, r.value.balance, old(Pot(ops)) + total, now)]
      ensures Valid() && Holdings() == old(Holdings())
    {
      var s := PrepareNiuniu(balances, ops, u, bets, now);
      if s.Err? {
        return Err(s.error);
      }
      var m := s.value;
      balances := m.rows;
      betRecords := betRecords + m.records;
      ops := ops + [m.op];
      events := events + [NiuniuBetPlaced(u, bets, m.total, m.balance, m.pot, now)];
      r := Ok(NiuniuStake(m.balance, m.total));
    }

    // -------------------------------------------------------------------------
    // Membership
    // -------------------------------------------------------------------------

    /** initUserBalance: a zero balance row, only when the user has none, so a returning
        member keeps the balance of the earlier visit. */
    method InitUserBalance(u: UserId)
      requires Valid()
      modifies this`balances
      ensures u in Users(old(balances)) ==> balances == old(balances)
      ensures u !in Users(old(balances)) ==> balances == old(balances) + [BalanceRow(u, 0)]
      ensures u in Users(balances) && BalanceOf(balances, u).Some?
      ensures Valid() && Holdings() == old(Holdings())
    {
      BalanceOfFound(balances, u);
      if BalanceOf(balances, u).None? {
        UsersAppend(balances, BalanceRow(u, 0));
        UniqueAppend(balances, BalanceRow(u, 0));
        SumAppend(balances, BalanceRow(u, 0));
        balances := balances + [BalanceRow(u, 0)];
      }
      BalanceOfFound(balances, u);
    }

    /** JoinRoom: an open membership is returned as it is; otherwise a new online
        membership, a balance row if there is none, a join operation and a broadcast. */
    method Join(u: UserId, now: Time) returns (r: Result<Membership, LedgerError>)
      requires Valid()
      modifies this`members, this`balances, this`ops, this`events
      ensures old(status) != Active ==> r == Err(RoomDissolved)
      ensures r.Err? || OpenMembership(old(members), u).Some? ==>
                members == old(members) && balances == old(balances) && ops == old(ops)
                && events == old(events)
      ensures old(status) == Active && OpenMembership(old(members), u).Some? ==>
                r == Ok(old(members)[OpenMembership(old(members), u).value])
      ensures old(status) == Active && OpenMembership(old(members), u).None? ==>
                && r == Ok(Membership(u, now, None, Online))
                && members == old(members) + [Membership(u, now, None, Online)]
                && balances == (if u in Users(old(balances)) then old(balances)
                                else old(balances) + [BalanceRow(u, 0)])
                && ops == old(ops) + [Operation(u, JoinOp, None, None, [], now)]
                && events == old(events) + [MemberJoined(u, now)]
      ensures Valid() && Holdings() == old(Holdings()) && Pot(ops) == old(Pot(ops))
    {
      if status != Active {
        return Err(RoomDissolved);
      }
      var open := OpenMembership(members, u);
      if open.Some? {
        return Ok(members[open.value]);
      }
      var m := Membership(u, now, None, Online);
      members := members + [m];
      InitUserBalance(u);
      RawPotAppend(ops, Operation(u, JoinOp, None, None, [], now));
      ops := ops + [Operation(u, JoinOp, None, None, [], now)];
      events := events + [MemberJoined(u, now)];
      r := Ok(m);
    }

    /** LeaveRoom: the open membership goes offline (left_at stays unset), a leave operation
        is recorded, and the inactivity check runs, which cannot dissolve the room because
        the leave operation itself is recent. */
    method Leave(u: UserId, now: Time, batchId: string) returns (r: Result<(), LedgerError>)
      requires Valid()
      modifies this`members, this`ops, this`events, this`status, this`dissolvedAt,
               this`balances, this`settlements
      ensures status == old(status) && dissolvedAt == old(dissolvedAt)
      ensures balances == old(balances) && settlements == old(settlements)
      ensures OpenMembership(old(members), u).None? ==>
                r == Err(NotInRoom) && members == old(members) && ops == old(ops) && events == old(events)
      ensures OpenMembership(old(members), u).Some? ==>
                var i := OpenMembership(old(members), u).value;
                && r.Ok?
                && members == old(members)[i := old(members)[i].(status := Offline)]
                && ops == old(ops) + [Operation(u, LeaveOp, None, None, [], now)]
                && events == old(events) + [MemberLeft(u, now)]
      ensures Valid() && Holdings() == old(Holdings())
    {
      var open := OpenMembership(members, u);
      if open.None? {
        return Err(NotInRoom);
      }
      members := members[open.value := members[open.value].(status := Offline)];
      var op := Operation(u, LeaveOp, None, None, [], now);
      RawPotAppend(ops, op);
      ActiveAfterAppend(ops, op, createdAt);
      ops := ops + [op];
      events := events + [MemberLeft(u, now)];
      CheckAndDissolve(now, batchId);
      r := Ok(());
    }

    /** KickUser: the target's open membership goes offline, a kick operation by actor naming
        the target is recorded, and the inactivity check runs without effect. The actor is
        not checked here. */
    method Kick(actor: UserId, target: UserId, now: Time, batchId: string) returns (r: Result<(), LedgerError>)
      requires Valid()
      modifies this`members, this`ops, this`events, this`status, this`dissolvedAt,
               this`balances, this`settlements
      ensures status == old(status) && dissolvedAt == old(dissolvedAt)
      ensures balances == old(balances) && settlements == old(settlements)
      ensures OpenMembership(old(members), target).None? ==>
                r == Err(TargetNotInRoom) && members == old(members) && ops == old(ops)
                && events == old(events)
      ensures OpenMembership(old(members), target).Some? ==>
                var i := OpenMembership(old(members), target).value;
                && r.Ok?
                && members == old(members)[i := old(members)[i].(status := Offline)]
                && ops == old(ops) + [Operation(actor, KickOp, None, Some(target), [], now)]
                && events == old(events) + [MemberKicked(target, actor, now)]
      ensures Valid() && Holdings() == old(Holdings())
    {
      var open := OpenMembership(members, target);
      if open.None? {
        return Err(TargetNotInRoom);
      }
      members := members[open.value := members[open.value].(status := Offline)];
      var op := Operation(actor, KickOp, None, Some(target), [], now);
      RawPotAppend(ops, op);
      ActiveAfterAppend(ops, op, createdAt);
      ops := ops + [op];
      events := events + [MemberKicked(target, actor, now)];
      CheckAndDissolve(now, batchId);
      r := Ok(());
    }

    /** markUserReturned: the chosen membership row goes online and a return operation is
        recorded. */
    method MarkReturned(i: nat, now: Time)
      requires Valid() && i < |members|
      modifies this`members, this`ops, this`events
      ensures members == old(members)[i := old(members)[i].(status := Online)]
      ensures ops == old(ops) + [Operation(old(members)[i].user, ReturnOp, None, None, [], now)]
      ensures events == old(events) + [MemberReturned(old(members)[i].user, now)]
      ensures Valid() && Holdings() == old(Holdings())
    {
      var u := members[i].user;
      members := members[i := members[i].(status := Online)];
      RawPotAppend(ops, Operation(u, ReturnOp, None, None, [], now));
      ops := ops + [Operation(u, ReturnOp, None, None, [], now)];
      events := events + [MemberReturned(u, now)];
    }

    // -------------------------------------------------------------------------
    // Inactivity dissolution
    // -------------------------------------------------------------------------

    /** The room is active and nothing has happened in it for the inactivity period. */
    predicate Inactive(now: Time)
      reads this
    {
      status == Active && LastActivity(ops, createdAt) <= now - InactivityPeriod
    }

    /** checkAndDissolveRoom: dissolves an inactive room and settles it automatically at the
        time of its last financial operation; anything else is left as it is. */
    method CheckAndDissolve(now: Time, batchId: string)
      requires Valid()
      modifies this`status, this`dissolvedAt, this`balances, this`settlements, this`events
      ensures !old(Inactive(now)) ==>
                status == old(status) && dissolvedAt == old(dissolvedAt) && balances == old(balances)
                && settlements == old(settlements) && events == old(events)
      ensures old(Inactive(now)) ==>
                && status == Dissolved && dissolvedAt == Some(now)
                && balances == Zeroed(old(balances))
                && settlements == old(settlements)
                     + BatchRows(AutoSettleRows(old(balances), Pot(ops)), chipRate,
                                 AutoSettleTime(ops, createdAt, now), "auto-" + batchId)
                && events == old(events) + [RoomDissolvedEvent(now)]
      ensures Valid()
    {
      if status != Active {
        return;
      }
      var cutoff := now - InactivityPeriod;
      var latest := LatestAt(ops, AllKinds);
      var settledAt: Time;
      if latest.None? {
        if createdAt > cutoff {
          return;
        }
        settledAt := createdAt;
      } else if latest.value > cutoff {
        return;
      } else {
        settledAt := latest.value;
      }
      var financial := LatestAt(ops, FinancialKinds);
      if financial.Some? {
        settledAt := financial.value;
      }
      if settledAt == 0 || settledAt > now {
        settledAt := now;
      }
      status := Dissolved;
      dissolvedAt := Some(now);
      if |balances| > 0 {
        var out := AutoSettleBatch(balances, Pot(ops), chipRate, settledAt, "auto-" + batchId);
        settlements := settlements + out;
        ZeroedKeepsUsers(balances);
        balances := Zeroed(balances);
      }
      events := events + [RoomDissolvedEvent(now)];
    }

    /** The membership check the room controller runs before a dissolution
        (EnsureActiveMember, called but not defined in the repository): the room is
        active and u has an open membership in it. */
    predicate IsActiveMember(u: UserId)
      reads this
    {
      status == Active && OpenMembership(members, u).Some?
    }

    /** The dissolution the room controller runs after a confirmed settlement
        (ManualDissolveRoom, called but not defined in the repository): an active room
        becomes dissolved now; a room that is no longer active is refused. */
    method ManualDissolve(now: Time) returns (r: Result<Time, LedgerError>)
      requires Valid()
      modifies this`status, this`dissolvedAt, this`events
      ensures old(status) != Active ==>
                r == Err(RoomDissolved) && status == old(status) && dissolvedAt == old(dissolvedAt)
                && events == old(events)
      ensures old(status) == Active ==>
                r == Ok(now) && status == Dissolved && dissolvedAt == Some(now)
                && events == old(events) + [RoomDissolvedEvent(now)]
      ensures Valid()
    {
      if status != Active {
        return Err(RoomDissolved);
      }
      status := Dissolved;
      dissolvedAt := Some(now);
      events := events + [RoomDissolvedEvent(now)];
      r := Ok(now);
    }

    // -------------------------------------------------------------------------
    // Manual settlement
    // -------------------------------------------------------------------------

    /** InitiateSettlement: refused while chips lie on the table; otherwise the transfer plan
        for the current balances, a settlement_initiated operation and a broadcast. */
    method InitiateSettlement(actor: UserId, now: Time) returns (r: Result<seq<Transfer>, LedgerError>)
      requires Valid()
      modifies this`ops, this`events
      ensures r.Err? <==> old(Pot(ops)) != 0
      ensures r.Err? ==> r.error == PotNotZero(old(Pot(ops))) && ops == old(ops) && events == old(events)
      ensures r.Ok? ==>
                && r.value == Plan(balances, chipRate)
                && SumBalances(balances) == Holdings()
                && ops == old(ops) + [Operation(actor, SettlementInitiatedOp, None, None, [], now)]
                && events == old(events) + [SettlementProposed(actor, r.value, now)]
      ensures Valid() && Holdings() == old(Holdings()) && Pot(ops) == old(Pot(ops))
    {
      var pot := Pot(ops);
      if pot != 0 {
        return Err(PotNotZero(pot));
      }
      var plan := GenerateSettlementPlan(balances, chipRate);
      var op := Operation(actor, SettlementInitiatedOp, None, None, [], now);
      RawPotAppend(ops, op);
      ops := ops + [op];
      events := events + [SettlementProposed(actor, plan, now)];
      r := Ok(plan);
    }

    /** ConfirmSettlement: refused while chips lie on the table; otherwise one settlement row
        per non-zero balance under the new batch id, every balance set to 0, a
        settlement_confirmed operation and a broadcast. */
    method ConfirmSettlement(actor: UserId, now: Time, batchId: string) returns (r: Result<Confirmed, LedgerError>)
      requires Valid()
      modifies this`balances, this`settlements, this`ops, this`events
      ensures r.Err? <==> old(Pot(ops)) != 0
      ensures r.Err? ==> r.error == PotNotZero(old(Pot(ops))) && balances == old(balances)
                         && settlements == old(settlements) && ops == old(ops) && events == old(events)
      ensures r.Ok? ==>
                && r.value == Confirmed(batchId, now)
                && settlements == old(settlements) + BatchRows(old(balances), chipRate, now, batchId)
                && balances == Zeroed(old(balances))
                && ops == old(ops) + [Operation(actor, SettlementConfirmedOp, None, None, [], now)]
                && events == old(events) + [SettlementConfirmed(actor, batchId, now)]
                && Holdings() == 0 && Pot(ops) == 0
      ensures Valid()
    {
      var pot := Pot(ops);
      if pot != 0 {
        return Err(PotNotZero(pot));
      }
      var out := BuildBatch(balances, chipRate, now, batchId);
      settlements := settlements + out;
      ZeroedKeepsUsers(balances);
      SumZeroed(balances);
      balances := Zeroed(balances);
      RawPotAppend(ops, Operation(actor, SettlementConfirmedOp, None, None, [], now));
      ops := ops + [Operation(actor, SettlementConfirmedOp, None, None, [], now)];
      events := events + [SettlementConfirmed(actor, batchId, now)];
      r := Ok(Confirmed(batchId, now));
    }
  }
}
