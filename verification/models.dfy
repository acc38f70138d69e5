/** The persistent records of a room (rooms, members, balances, operations, bet records,
    settlements) and the queries the services run over the balance table. */
module Models {
  import opened Common

  type UserId = nat
  type RoomId = nat

  /** Seconds on one clock; 0 stands for Go's zero time.Time. */
  type Time = int

  const Hour: int := 3600
  const Day: int := 24 * Hour

  datatype RoomStatus = Active | Dissolved

  datatype MemberStatus = Online | Offline | Kicked

  /** One row of room_members; leftAt None is an open membership. */
  datatype Membership = Membership(user: UserId, joinedAt: Time, leftAt: Option<Time>, status: MemberStatus)

  /** One row of user_balances (unique per room and user). */
  datatype BalanceRow = BalanceRow(user: UserId, balance: int)

  datatype OpKind =
    | CreateOp | JoinOp | LeaveOp | ReturnOp | BetOp | WithdrawOp | KickOp
    | ForceTransferOp | NiuniuBetOp | SettlementInitiatedOp | SettlementConfirmedOp

  /** One target and stake of a niuniu bet. */
  datatype BetItem = BetItem(to: UserId, amount: int)

  /** One row of room_operations; the JSON description of a niuniu bet is kept as its items. */
  datatype Operation = Operation(actor: UserId, kind: OpKind, amount: Option<int>,
                                 target: Option<UserId>, bets: seq<BetItem>, at: Time)

  /** One row of bet_records. */
  datatype BetRecord = BetRecord(from: UserId, to: UserId, amount: int, at: Time)

  /** One row of settlements. */
  datatype SettlementRow = SettlementRow(user: UserId, chips: int, rmb: real, settledAt: Time, batch: string)

  // ---------------------------------------------------------------------------
  // The balance table
  // ---------------------------------------------------------------------------

  function Users(rows: seq<BalanceRow>): set<UserId> {
    set i | 0 <= i < |rows| :: rows[i].user
  }

  /** The unique index on (room, user): no user has a second row further down. */
  predicate UniqueUsers(rows: seq<BalanceRow>) {
    |rows| == 0 || (rows[0].user !in Users(rows[1..]) && UniqueUsers(rows[1..]))
  }

  /** Two rows of the same user under the unique index are the same row. */
  lemma {:induction false} UniqueIndex(rows: seq<BalanceRow>, i: nat, j: nat)
    requires UniqueUsers(rows) && i < |rows| && j < |rows| && rows[i].user == rows[j].user
    ensures i == j
  {
    if i > 0 && j > 0 {
      assert rows[1..][i - 1] == rows[i] && rows[1..][j - 1] == rows[j];
      UniqueIndex(rows[1..], i - 1, j - 1);
    }
  }

  function SumBalances(rows: seq<BalanceRow>): int {
    if |rows| == 0 then 0 else rows[0].balance + SumBalances(rows[1..])
  }

  /** The balance of u, as the lookup by (room, user) finds it. */
  function BalanceOf(rows: seq<BalanceRow>, u: UserId): Option<int> {
    if |rows| == 0 then None
    else if rows[0].user == u then Some(rows[0].balance)
    else BalanceOf(rows[1..], u)
  }

  /** The lookup fails exactly for users without a row. */
  lemma {:induction false} BalanceOfFound(rows: seq<BalanceRow>, u: UserId)
    ensures BalanceOf(rows, u).None? <==> u !in Users(rows)
  {
    if |rows| > 0 {
      UsersCons(rows);
      BalanceOfFound(rows[1..], u);
    }
  }

  lemma UsersCons(rows: seq<BalanceRow>)
    requires |rows| > 0
    ensures Users(rows) == {rows[0].user} + Users(rows[1..])
  {
    forall x | x in Users(rows) ensures x in {rows[0].user} + Users(rows[1..]) {
      var i :| 0 <= i < |rows| && rows[i].user == x;
      if i > 0 { assert rows[1..][i - 1].user == x; }
    }
    forall x | x in Users(rows[1..]) ensures x in Users(rows) {
      var i :| 0 <= i < |rows[1..]| && rows[1..][i].user == x;
      assert rows[i + 1].user == x;
    }
  }

  /** With unique users the lookup finds the row of that user. */
  lemma {:induction false} BalanceOfRow(rows: seq<BalanceRow>, i: nat)
    requires UniqueUsers(rows) && i < |rows|
    ensures BalanceOf(rows, rows[i].user) == Some(rows[i].balance)
  {
    if i > 0 {
      assert rows[1..][i - 1] == rows[i];
      assert rows[i].user in Users(rows[1..]);
      BalanceOfRow(rows[1..], i - 1);
    }
  }

  /** UPDATE user_balances SET balance = balance + delta WHERE user = u: every matching row moves. */
  function Credit(rows: seq<BalanceRow>, u: UserId, delta: int): (r: seq<BalanceRow>)
    ensures |r| == |rows|
  {
    if |rows| == 0 then []
    else [if rows[0].user == u then BalanceRow(u, rows[0].balance + delta) else rows[0]]
         + Credit(rows[1..], u, delta)
  }

  /** UPDATE user_balances SET balance = 0 for the whole room. */
  function Zeroed(rows: seq<BalanceRow>): (r: seq<BalanceRow>)
    ensures |r| == |rows|
    ensures forall i :: 0 <= i < |rows| ==> r[i] == BalanceRow(rows[i].user, 0)
  {
    seq(|rows|, i requires 0 <= i < |rows| => BalanceRow(rows[i].user, 0))
  }

  lemma {:induction false} UsersOfSameUsers(a: seq<BalanceRow>, b: seq<BalanceRow>)
    requires |a| == |b| && forall i :: 0 <= i < |a| ==> a[i].user == b[i].user
    ensures Users(a) == Users(b) && (UniqueUsers(a) <==> UniqueUsers(b))
  {
    if |a| > 0 {
      assert forall i :: 0 <= i < |a[1..]| ==> a[1..][i].user == b[1..][i].user by {
        forall i | 0 <= i < |a[1..]| ensures a[1..][i].user == b[1..][i].user {
          assert a[1..][i] == a[i + 1] && b[1..][i] == b[i + 1];
        }
      }
      UsersOfSameUsers(a[1..], b[1..]);
    }
    assert forall x :: x in Users(a) ==> x in Users(b) by {
      forall x | x in Users(a) ensures x in Users(b) {
        var i :| 0 <= i < |a| && a[i].user == x;
        assert b[i].user == x;
      }
    }
    assert forall x :: x in Users(b) ==> x in Users(a) by {
      forall x | x in Users(b) ensures x in Users(a) {
        var i :| 0 <= i < |b| && b[i].user == x;
        assert a[i].user == x;
      }
    }
  }

  /** Crediting a user present once moves the table total by exactly delta;
      crediting an absent user changes nothing. */
  lemma {:induction false} CreditSum(rows: seq<BalanceRow>, u: UserId, delta: int)
    requires UniqueUsers(rows)
    ensures SumBalances(Credit(rows, u, delta))
            == SumBalances(rows) + (if u in Users(rows) then delta else 0)
  {
    if |rows| > 0 {
      var tail := rows[1..];
      CreditSum(tail, u, delta);
      assert Credit(rows, u, delta)[1..] == Credit(tail, u, delta);
      UsersCons(rows);
    }
  }

  /** Crediting u changes u's balance by delta and nobody else's. */
  lemma {:induction false} CreditBalanceOf(rows: seq<BalanceRow>, u: UserId, delta: int, v: UserId)
    ensures BalanceOf(Credit(rows, u, delta), v).Some? == BalanceOf(rows, v).Some?
    ensures BalanceOf(rows, v).Some? ==>
              BalanceOf(Credit(rows, u, delta), v).value
              == BalanceOf(rows, v).value + (if v == u then delta else 0)
  {
    if |rows| > 0 {
      CreditBalanceOf(rows[1..], u, delta, v);
      assert Credit(rows, u, delta)[1..] == Credit(rows[1..], u, delta);
    }
  }

  /** Appending a row adds its balance to the total. */
  lemma {:induction false} SumAppend(rows: seq<BalanceRow>, row: BalanceRow)
    ensures SumBalances(rows + [row]) == SumBalances(rows) + row.balance
  {
    if |rows| > 0 {
      assert (rows + [row])[1..] == rows[1..] + [row];
      SumAppend(rows[1..], row);
    }
  }

  lemma {:induction false} SumZeroed(rows: seq<BalanceRow>)
    ensures SumBalances(Zeroed(rows)) == 0
  {
    if |rows| > 0 {
      assert Zeroed(rows)[1..] == Zeroed(rows[1..]);
      SumZeroed(rows[1..]);
    }
  }

  lemma UsersAppend(rows: seq<BalanceRow>, row: BalanceRow)
    ensures Users(rows + [row]) == Users(rows) + {row.user}
  {
    var s := rows + [row];
    forall x | x in Users(s) ensures x in Users(rows) + {row.user} {
      var i :| 0 <= i < |s| && s[i].user == x;
      if i < |rows| { assert rows[i].user == x; }
    }
    forall x | x in Users(rows) ensures x in Users(s) {
      var i :| 0 <= i < |rows| && rows[i].user == x;
      assert s[i].user == x;
    }
    assert s[|rows|].user == row.user;
  }

  /** A row of a new user keeps the unique index. */
  lemma {:induction false} UniqueAppend(rows: seq<BalanceRow>, row: BalanceRow)
    requires UniqueUsers(rows) && row.user !in Users(rows)
    ensures UniqueUsers(rows + [row])
  {
    if |rows| == 0 {
      assert Users(([] + [row])[1..]) == {};
    } else {
      UsersCons(rows);
      assert (rows + [row])[1..] == rows[1..] + [row];
      UsersAppend(rows[1..], row);
      UniqueAppend(rows[1..], row);
    }
  }

  /** Crediting a user without a row touches no row (RowsAffected is 0). */
  lemma {:induction false} CreditAbsent(rows: seq<BalanceRow>, u: UserId, delta: int)
    requires u !in Users(rows)
    ensures Credit(rows, u, delta) == rows
  {
    if |rows| > 0 {
      UsersCons(rows);
      CreditAbsent(rows[1..], u, delta);
    }
  }

  /** Crediting changes balances only: every row keeps its user. */
  lemma {:induction false} CreditRows(rows: seq<BalanceRow>, u: UserId, delta: int)
    ensures forall i :: 0 <= i < |rows| ==> Credit(rows, u, delta)[i].user == rows[i].user
  {
    if |rows| > 0 {
      CreditRows(rows[1..], u, delta);
      assert Credit(rows, u, delta)[1..] == Credit(rows[1..], u, delta);
      forall i | 1 <= i < |rows| ensures Credit(rows, u, delta)[i].user == rows[i].user {
        assert Credit(rows, u, delta)[i] == Credit(rows[1..], u, delta)[i - 1];
      }
    }
  }

  /** Crediting keeps the set of users and the unique index. */
  lemma CreditKeepsUsers(rows: seq<BalanceRow>, u: UserId, delta: int)
    ensures Users(Credit(rows, u, delta)) == Users(rows)
    ensures UniqueUsers(Credit(rows, u, delta)) == UniqueUsers(rows)
  {
    CreditRows(rows, u, delta);
    UsersOfSameUsers(Credit(rows, u, delta), rows);
  }

  /** Zeroing keeps the set of users and the unique index. */
  lemma ZeroedKeepsUsers(rows: seq<BalanceRow>)
    ensures Users(Zeroed(rows)) == Users(rows)
    ensures UniqueUsers(Zeroed(rows)) == UniqueUsers(rows)
  {
    UsersOfSameUsers(Zeroed(rows), rows);
  }
}
