/** The settlement proposal (backend/services/settlement_service.go, generateSettlementPlan):
    every loser pays the largest winner (the "bank"), and the bank pays every other winner. */
module SettlementPlan {
  import opened Common
  import opened Models
  import opened Rates

  /** One proposed payment, in chips and in money. */
  datatype Transfer = Transfer(from: UserId, to: UserId, chips: int, rmb: real)

  // ---------------------------------------------------------------------------
  // Partition and ordering
  // ---------------------------------------------------------------------------

  function Positives(rows: seq<BalanceRow>): (r: seq<BalanceRow>)
    ensures forall k :: 0 <= k < |r| ==> r[k].balance > 0
  {
    if |rows| == 0 then []
    else (if rows[0].balance > 0 then [rows[0]] else []) + Positives(rows[1..])
  }

  function Negatives(rows: seq<BalanceRow>): (r: seq<BalanceRow>)
    ensures forall k :: 0 <= k < |r| ==> r[k].balance < 0
  {
    if |rows| == 0 then []
    else (if rows[0].balance < 0 then [rows[0]] else []) + Negatives(rows[1..])
  }

  /** x goes before y: larger first when descending, smaller first when ascending. */
  predicate Before(x: BalanceRow, y: BalanceRow, descending: bool) {
    if descending then x.balance > y.balance else x.balance < y.balance
  }

  function Insert(x: BalanceRow, s: seq<BalanceRow>, descending: bool): (r: seq<BalanceRow>)
    ensures multiset(r) == multiset(s) + multiset{x}
  {
    if |s| == 0 then [x]
    else if Before(x, s[0], descending) then [x] + s
    else
      assert s == [s[0]] + s[1..];
      [s[0]] + Insert(x, s[1..], descending)
  }

  /** The ordering sort.Slice establishes; rows of equal balance keep no particular order
      in the source, here they come out in the order insertion gives them. */
  function Sort(s: seq<BalanceRow>, descending: bool): (r: seq<BalanceRow>)
    ensures multiset(r) == multiset(s)
  {
    if |s| == 0 then []
    else
      assert s == [s[0]] + s[1..];
      Insert(s[0], Sort(s[1..], descending), descending)
  }

  /** Sort returns its input in order: no row is placed before one that should precede it. */
  predicate Ordered(s: seq<BalanceRow>, descending: bool) {
    forall i, j :: 0 <= i < j < |s| ==> !Before(s[j], s[i], descending)
  }

  lemma {:induction false} InsertOrdered(x: BalanceRow, s: seq<BalanceRow>, descending: bool)
    requires Ordered(s, descending)
    ensures Ordered(Insert(x, s, descending), descending)
  {
    if |s| > 0 && !Before(x, s[0], descending) {
      InsertOrdered(x, s[1..], descending);
      var t := Insert(x, s[1..], descending);
      forall k | 0 <= k < |t| ensures !Before(t[k], s[0], descending) {
        assert t[k] in multiset(t);
        if t[k] != x {
          assert t[k] in multiset(s[1..]);
          var m :| 0 <= m < |s[1..]| && s[1..][m] == t[k];
          assert s[m + 1] == t[k];
        }
      }
    }
  }

  lemma {:induction false} SortOrdered(s: seq<BalanceRow>, descending: bool)
    ensures Ordered(Sort(s, descending), descending)
  {
    if |s| > 0 {
      SortOrdered(s[1..], descending);
      InsertOrdered(s[0], Sort(s[1..], descending), descending);
    }
  }

  // ---------------------------------------------------------------------------
  // The plan
  // ---------------------------------------------------------------------------

  /** Each loser pays the bank the size of the loss. */
  function LoserPayments(negatives: seq<BalanceRow>, bank: UserId, rate: string): seq<Transfer> {
    seq(|negatives|, k requires 0 <= k < |negatives| =>
      Transfer(negatives[k].user, bank, -negatives[k].balance, CalculateRmb(-negatives[k].balance, rate)))
  }

  /** The bank pays each other winner the size of the win. */
  function BankPayments(bank: UserId, winners: seq<BalanceRow>, rate: string): seq<Transfer> {
    seq(|winners|, k requires 0 <= k < |winners| =>
      Transfer(bank, winners[k].user, winners[k].balance, CalculateRmb(winners[k].balance, rate)))
  }

  /** The proposal for a room's balance rows: winners by decreasing balance, losers by
      increasing balance (largest loss first), nothing when either side is empty. */
  function Plan(rows: seq<BalanceRow>, rate: string): seq<Transfer> {
    var winners := Sort(Positives(rows), true);
    var losers := Sort(Negatives(rows), false);
    if |winners| == 0 || |losers| == 0 then []
    else LoserPayments(losers, winners[0].user, rate) + BankPayments(winners[0].user, winners[1..], rate)
  }

  /** The service's two loops: partition the non-zero rows, order both sides, then emit
      one payment per loser and one per other winner. */
  method GenerateSettlementPlan(balances: seq<BalanceRow>, chipRate: string) returns (plan: seq<Transfer>)
    ensures plan == Plan(balances, chipRate)
  {
    var positives: seq<BalanceRow> := [];
    var negatives: seq<BalanceRow> := [];
    var i := 0;
    while i < |balances|
      invariant 0 <= i <= |balances|
      invariant positives + Positives(balances[i..]) == Positives(balances)
      invariant negatives + Negatives(balances[i..]) == Negatives(balances)
    {
      var b := balances[i];
      assert balances[i..][1..] == balances[i + 1..];
      assert balances[i..][0] == b;
      var restP := Positives(balances[i + 1..]);
      var restN := Negatives(balances[i + 1..]);
      if b.balance > 0 {
        assert positives + ([b] + restP) == (positives + [b]) + restP;
        assert Negatives(balances[i..]) == restN;
        positives := positives + [b];
      } else if b.balance < 0 {
        assert negatives + ([b] + restN) == (negatives + [b]) + restN;
        assert Positives(balances[i..]) == restP;
        negatives := negatives + [b];
      } else {
        assert Positives(balances[i..]) == restP;
        assert Negatives(balances[i..]) == restN;
      }
      i := i + 1;
    }
    assert balances[i..] == [];
    assert positives + [] == positives && negatives + [] == negatives;
    assert positives == Positives(balances) && negatives == Negatives(balances);
    positives := Sort(positives, true);
    negatives := Sort(negatives, false);
    plan := [];
    if |positives| == 0 || |negatives| == 0 {
      return;
    }
    plan := EmitPayments(positives, negatives, chipRate);
  }

  /** The two payment loops: each loser pays the first winner, then the first winner
      pays each later winner. */
  method EmitPayments(winners: seq<BalanceRow>, losers: seq<BalanceRow>, chipRate: string)
    returns (plan: seq<Transfer>)
    requires |winners| > 0
    ensures plan == LoserPayments(losers, winners[0].user, chipRate)
                    + BankPayments(winners[0].user, winners[1..], chipRate)
  {
    plan := [];
    var bank := winners[0];
    var k := 0;
    while k < |losers|
      invariant 0 <= k <= |losers|
      invariant plan == LoserPayments(losers[..k], bank.user, chipRate)
    {
      var amount := -losers[k].balance;
      plan := plan + [Transfer(losers[k].user, bank.user, amount, CalculateRmb(amount, chipRate))];
      k := k + 1;
    }
    assert losers[..k] == losers;
    var j := 1;
    while j < |winners|
      invariant 1 <= j <= |winners|
      invariant plan == LoserPayments(losers, bank.user, chipRate)
                        + BankPayments(bank.user, winners[1..j], chipRate)
    {
      var amount := winners[j].balance;
      assert winners[1..j + 1] == winners[1..j] + [winners[j]];
      plan := plan + [Transfer(bank.user, winners[j].user, amount, CalculateRmb(amount, chipRate))];
      j := j + 1;
    }
    assert winners[1..j] == winners[1..];
  }

  // ---------------------------------------------------------------------------
  // Per-user totals
  // ---------------------------------------------------------------------------

  /** Total balance of the rows of user u. */
  function SumFor(s: seq<BalanceRow>, u: UserId): int {
    if |s| == 0 then 0 else (if s[0].user == u then s[0].balance else 0) + SumFor(s[1..], u)
  }

  /** Number of rows of user u. */
  function CountFor(s: seq<BalanceRow>, u: UserId): nat {
    if |s| == 0 then 0 else (if s[0].user == u then 1 else 0) + CountFor(s[1..], u)
  }

  /** Chips user u pays under a plan. */
  function Paid(plan: seq<Transfer>, u: UserId): int {
    if |plan| == 0 then 0 else (if plan[0].from == u then plan[0].chips else 0) + Paid(plan[1..], u)
  }

  /** Chips user u receives under a plan. */
  function Received(plan: seq<Transfer>, u: UserId): int {
    if |plan| == 0 then 0 else (if plan[0].to == u then plan[0].chips else 0) + Received(plan[1..], u)
  }

  /** The totals of a table with one more row in front. */
  lemma ConsTotals(x: BalanceRow, s: seq<BalanceRow>, u: UserId)
    ensures SumBalances([x] + s) == x.balance + SumBalances(s)
    ensures SumFor([x] + s, u) == (if x.user == u then x.balance else 0) + SumFor(s, u)
    ensures CountFor([x] + s, u) == (if x.user == u then 1 else 0) + CountFor(s, u)
  {
    assert ([x] + s)[0] == x && ([x] + s)[1..] == s;
  }

  /** The winners' totals, one row at a time. */
  lemma PositiveTotals(rows: seq<BalanceRow>, u: UserId)
    requires |rows| > 0
    ensures var x := rows[0]; var rest := Positives(rows[1..]);
            && SumBalances(Positives(rows)) == (if x.balance > 0 then x.balance else 0) + SumBalances(rest)
            && SumFor(Positives(rows), u) == (if x.balance > 0 && x.user == u then x.balance else 0) + SumFor(rest, u)
            && CountFor(Positives(rows), u) == (if x.balance > 0 && x.user == u then 1 else 0) + CountFor(rest, u)
  {
    if rows[0].balance > 0 {
      ConsTotals(rows[0], Positives(rows[1..]), u);
    } else {
      assert Positives(rows) == Positives(rows[1..]);
    }
  }

  /** The losers' totals, one row at a time. */
  lemma NegativeTotals(rows: seq<BalanceRow>, u: UserId)
    requires |rows| > 0
    ensures var x := rows[0]; var rest := Negatives(rows[1..]);
            && SumBalances(Negatives(rows)) == (if x.balance < 0 then x.balance else 0) + SumBalances(rest)
            && SumFor(Negatives(rows), u) == (if x.balance < 0 && x.user == u then x.balance else 0) + SumFor(rest, u)
            && CountFor(Negatives(rows), u) == (if x.balance < 0 && x.user == u then 1 else 0) + CountFor(rest, u)
  {
    if rows[0].balance < 0 {
      ConsTotals(rows[0], Negatives(rows[1..]), u);
    } else {
      assert Negatives(rows) == Negatives(rows[1..]);
    }
  }

  lemma {:induction false} InsertTotals(x: BalanceRow, s: seq<BalanceRow>, descending: bool, u: UserId)
    ensures SumBalances(Insert(x, s, descending)) == x.balance + SumBalances(s)
    ensures SumFor(Insert(x, s, descending), u) == (if x.user == u then x.balance else 0) + SumFor(s, u)
    ensures CountFor(Insert(x, s, descending), u) == (if x.user == u then 1 else 0) + CountFor(s, u)
  {
    if |s| > 0 && !Before(x, s[0], descending) {
      InsertTotals(x, s[1..], descending, u);
    }
  }

  /** Sorting keeps the table total, and each user's total and number of rows. */
  lemma SortTotals(s: seq<BalanceRow>, descending: bool, u: UserId)
    ensures SumBalances(Sort(s, descending)) == SumBalances(s)
    ensures SumFor(Sort(s, descending), u) == SumFor(s, u)
    ensures CountFor(Sort(s, descending), u) == CountFor(s, u)
  {
    SortSum(s, descending);
    SortSumFor(s, descending, u);
    SortCountFor(s, descending, u);
  }

  lemma {:induction false} SortSum(s: seq<BalanceRow>, descending: bool)
    ensures SumBalances(Sort(s, descending)) == SumBalances(s)
  {
    if |s| > 0 {
      SortSum(s[1..], descending);
      InsertTotals(s[0], Sort(s[1..], descending), descending, 0);
    }
  }

  lemma {:induction false} SortSumFor(s: seq<BalanceRow>, descending: bool, u: UserId)
    ensures SumFor(Sort(s, descending), u) == SumFor(s, u)
  {
    if |s| > 0 {
      SortSumFor(s[1..], descending, u);
      InsertTotals(s[0], Sort(s[1..], descending), descending, u);
    }
  }

  lemma {:induction false} SortCountFor(s: seq<BalanceRow>, descending: bool, u: UserId)
    ensures CountFor(Sort(s, descending), u) == CountFor(s, u)
  {
    if |s| > 0 {
      SortCountFor(s[1..], descending, u);
      InsertTotals(s[0], Sort(s[1..], descending), descending, u);
    }
  }

  lemma {:induction false} PartitionSum(rows: seq<BalanceRow>)
    ensures SumBalances(rows) == SumBalances(Positives(rows)) + SumBalances(Negatives(rows))
  {
    if |rows| > 0 {
      PositiveTotals(rows, 0);
      NegativeTotals(rows, 0);
      PartitionSum(rows[1..]);
    }
  }

  lemma {:induction false} AbsentUser(rows: seq<BalanceRow>, u: UserId)
    requires u !in Users(rows)
    ensures SumFor(Positives(rows), u) == 0 && CountFor(Positives(rows), u) == 0
    ensures SumFor(Negatives(rows), u) == 0 && CountFor(Negatives(rows), u) == 0
  {
    if |rows| > 0 {
      UsersCons(rows);
      PositiveTotals(rows, u);
      NegativeTotals(rows, u);
      AbsentUser(rows[1..], u);
    }
  }

  /** With one row per user, the winners hold u's balance if it is positive, the losers
      if it is negative, and neither holds u twice. */
  lemma PresentUser(rows: seq<BalanceRow>, i: nat)
    requires UniqueUsers(rows) && i < |rows|
    ensures SumFor(Positives(rows), rows[i].user) == (if rows[i].balance > 0 then rows[i].balance else 0)
    ensures SumFor(Negatives(rows), rows[i].user) == (if rows[i].balance < 0 then rows[i].balance else 0)
    ensures CountFor(Positives(rows), rows[i].user) <= 1
  {
    PresentPositive(rows, i);
    PresentNegative(rows, i);
  }

  lemma {:induction false} PresentPositive(rows: seq<BalanceRow>, i: nat)
    requires UniqueUsers(rows) && i < |rows|
    ensures SumFor(Positives(rows), rows[i].user) == (if rows[i].balance > 0 then rows[i].balance else 0)
    ensures CountFor(Positives(rows), rows[i].user) <= 1
  {
    if i == 0 {
      HeadPositive(rows);
    } else {
      var tail := rows[1..];
      var u := rows[i].user;
      assert tail[i - 1] == rows[i];
      assert rows[0].user != u by {
        assert u in Users(tail);
      }
      PresentPositive(tail, i - 1);
      PositiveTotals(rows, u);
    }
  }

  lemma {:induction false} PresentNegative(rows: seq<BalanceRow>, i: nat)
    requires UniqueUsers(rows) && i < |rows|
    ensures SumFor(Negatives(rows), rows[i].user) == (if rows[i].balance < 0 then rows[i].balance else 0)
  {
    if i == 0 {
      HeadNegative(rows);
    } else {
      var tail := rows[1..];
      var u := rows[i].user;
      assert tail[i - 1] == rows[i];
      assert rows[0].user != u by {
        assert u in Users(tail);
      }
      PresentNegative(tail, i - 1);
      NegativeTotals(rows, u);
    }
  }

  /** A first row whose user appears nowhere else is all the filters hold of that user. */
  lemma HeadPositive(rows: seq<BalanceRow>)
    requires 0 < |rows| && rows[0].user !in Users(rows[1..])
    ensures SumFor(Positives(rows), rows[0].user) == (if rows[0].balance > 0 then rows[0].balance else 0)
    ensures CountFor(Positives(rows), rows[0].user) <= 1
  {
    AbsentUser(rows[1..], rows[0].user);
    PositiveTotals(rows, rows[0].user);
  }

  lemma HeadNegative(rows: seq<BalanceRow>)
    requires 0 < |rows| && rows[0].user !in Users(rows[1..])
    ensures SumFor(Negatives(rows), rows[0].user) == (if rows[0].balance < 0 then rows[0].balance else 0)
  {
    AbsentUser(rows[1..], rows[0].user);
    NegativeTotals(rows, rows[0].user);
  }

  lemma {:induction false} SumForUncounted(s: seq<BalanceRow>, u: UserId)
    requires CountFor(s, u) == 0
    ensures SumFor(s, u) == 0
  {
    if |s| > 0 {
      SumForUncounted(s[1..], u);
    }
  }

  lemma {:induction false} AllNegativeSum(s: seq<BalanceRow>)
    requires forall k :: 0 <= k < |s| ==> s[k].balance < 0
    ensures |s| > 0 ==> SumBalances(s) < 0
  {
    if |s| > 0 {
      AllNegativeSum(s[1..]);
    }
  }

  lemma {:induction false} AllPositiveSum(s: seq<BalanceRow>)
    requires forall k :: 0 <= k < |s| ==> s[k].balance > 0
    ensures |s| > 0 ==> SumBalances(s) > 0
  {
    if |s| > 0 {
      AllPositiveSum(s[1..]);
    }
  }

  lemma {:induction false} LoserTotals(negatives: seq<BalanceRow>, bank: UserId, rate: string, u: UserId)
    ensures Paid(LoserPayments(negatives, bank, rate), u) == -SumFor(negatives, u)
    ensures Received(LoserPayments(negatives, bank, rate), u) == (if u == bank then -SumBalances(negatives) else 0)
  {
    if |negatives| > 0 {
      assert LoserPayments(negatives, bank, rate)[1..] == LoserPayments(negatives[1..], bank, rate);
      LoserTotals(negatives[1..], bank, rate, u);
    }
  }

  lemma {:induction false} BankTotals(bank: UserId, winners: seq<BalanceRow>, rate: string, u: UserId)
    ensures Paid(BankPayments(bank, winners, rate), u) == (if u == bank then SumBalances(winners) else 0)
    ensures Received(BankPayments(bank, winners, rate), u) == SumFor(winners, u)
  {
    if |winners| > 0 {
      assert BankPayments(bank, winners, rate)[1..] == BankPayments(bank, winners[1..], rate);
      BankTotals(bank, winners[1..], rate, u);
    }
  }

  lemma {:induction false} TotalsConcat(a: seq<Transfer>, b: seq<Transfer>, u: UserId)
    ensures Paid(a + b, u) == Paid(a, u) + Paid(b, u)
    ensures Received(a + b, u) == Received(a, u) + Received(b, u)
  {
    if |a| > 0 {
      assert (a + b)[0] == a[0];
      assert (a + b)[1..] == a[1..] + b;
      TotalsConcat(a[1..], b, u);
    } else {
      assert a + b == b;
    }
  }

  // ---------------------------------------------------------------------------
  // Properties of the plan
  // ---------------------------------------------------------------------------

  /** The plan is empty exactly when nobody won or nobody lost; otherwise it has one
      payment per loser and one per winner other than the bank. */
  lemma PlanSize(rows: seq<BalanceRow>, rate: string)
    ensures |Plan(rows, rate)| == 0 <==> |Positives(rows)| == 0 || |Negatives(rows)| == 0
    ensures |Positives(rows)| > 0 && |Negatives(rows)| > 0 ==>
              |Plan(rows, rate)| == |Negatives(rows)| + |Positives(rows)| - 1
  {
    assert |Sort(Positives(rows), true)| == |Positives(rows)| by {
      assert |multiset(Sort(Positives(rows), true))| == |multiset(Positives(rows))|;
    }
    assert |Sort(Negatives(rows), false)| == |Negatives(rows)| by {
      assert |multiset(Sort(Negatives(rows), false))| == |multiset(Negatives(rows))|;
    }
  }

  /** Every payment moves a positive number of chips. */
  lemma PlanAmountsPositive(rows: seq<BalanceRow>, rate: string)
    ensures forall k :: 0 <= k < |Plan(rows, rate)| ==> Plan(rows, rate)[k].chips > 0
  {
    var winners := Sort(Positives(rows), true);
    var losers := Sort(Negatives(rows), false);
    if |winners| > 0 && |losers| > 0 {
      var bank := winners[0].user;
      var first: seq<Transfer> := LoserPayments(losers, bank, rate);
      var second: seq<Transfer> := BankPayments(bank, winners[1..], rate);
      assert Plan(rows, rate) == first + second;
      forall k | 0 <= k < |first + second| ensures (first + second)[k].chips > 0 {
        if k < |first| {
          assert losers[k] in multiset(Negatives(rows));
          assert (first + second)[k] == first[k];
        } else {
          assert winners[k - |first| + 1] in multiset(Positives(rows));
          assert (first + second)[k] == second[k - |first|];
        }
      }
    }
  }

  /** Every payment of both halves has the bank at one end. */
  lemma ThroughBank(first: seq<Transfer>, second: seq<Transfer>, bank: UserId)
    requires forall k :: 0 <= k < |first| ==> first[k].from == bank || first[k].to == bank
    requires forall k :: 0 <= k < |second| ==> second[k].from == bank || second[k].to == bank
    ensures forall k :: 0 <= k < |first + second| ==>
              (first + second)[k].from == bank || (first + second)[k].to == bank
  {
    forall k | 0 <= k < |first + second|
      ensures (first + second)[k].from == bank || (first + second)[k].to == bank
    {
      if k < |first| {
        assert (first + second)[k] == first[k];
      } else {
        assert (first + second)[k] == second[k - |first|];
      }
    }
  }

  /** Every payment has the bank on one side, and the bank holds the largest balance
      of the room. */
  lemma PlanThroughBank(rows: seq<BalanceRow>, rate: string)
    requires |Plan(rows, rate)| > 0
    ensures var bank := Sort(Positives(rows), true)[0];
            bank in Positives(rows)
            && (forall k :: 0 <= k < |rows| ==> rows[k].balance <= bank.balance)
            && (forall k :: 0 <= k < |Plan(rows, rate)| ==>
                  Plan(rows, rate)[k].from == bank.user || Plan(rows, rate)[k].to == bank.user)
  {
    var winners := Sort(Positives(rows), true);
    assert winners[0] in Positives(rows) by {
      assert winners[0] in multiset(Positives(rows));
    }
    BankIsLargest(rows);
    PaymentsThroughBank(rows, rate);
  }

  lemma PaymentsThroughBank(rows: seq<BalanceRow>, rate: string)
    requires |Plan(rows, rate)| > 0
    ensures |Sort(Positives(rows), true)| > 0
    ensures var bank := Sort(Positives(rows), true)[0].user;
            forall k :: 0 <= k < |Plan(rows, rate)| ==>
              Plan(rows, rate)[k].from == bank || Plan(rows, rate)[k].to == bank
  {
    var winners := Sort(Positives(rows), true);
    var losers := Sort(Negatives(rows), false);
    var bank := winners[0].user;
    var first: seq<Transfer> := LoserPayments(losers, bank, rate);
    var second: seq<Transfer> := BankPayments(bank, winners[1..], rate);
    assert forall k :: 0 <= k < |first| ==> first[k].to == bank;
    assert forall k :: 0 <= k < |second| ==> second[k].from == bank;
    ThroughBank(first, second, bank);
  }

  lemma BankIsLargest(rows: seq<BalanceRow>)
    requires |Sort(Positives(rows), true)| > 0
    ensures forall k :: 0 <= k < |rows| ==> rows[k].balance <= Sort(Positives(rows), true)[0].balance
  {
    var winners := Sort(Positives(rows), true);
    SortOrdered(Positives(rows), true);
    forall k | 0 <= k < |rows| ensures rows[k].balance <= winners[0].balance {
      if rows[k].balance > 0 {
        PositivesContain(rows, k);
        assert rows[k] in multiset(winners);
        var m :| 0 <= m < |winners| && winners[m] == rows[k];
        if m > 0 {
          assert !Before(winners[m], winners[0], true);
        }
      } else {
        assert winners[0] in multiset(Positives(rows));
      }
    }
  }

  lemma {:induction false} PositivesContain(rows: seq<BalanceRow>, k: nat)
    requires k < |rows| && rows[k].balance > 0
    ensures rows[k] in Positives(rows)
  {
    if k > 0 {
      assert rows[1..][k - 1] == rows[k];
      PositivesContain(rows[1..], k - 1);
    }
  }

  /** Carrying out the plan settles everyone: when the balances of a room sum to zero,
      every user's balance plus what they pay minus what they receive is zero, and
      users without a balance row take no part. */
  lemma PlanSettlesEveryone(rows: seq<BalanceRow>, rate: string)
    requires UniqueUsers(rows) && SumBalances(rows) == 0
    ensures forall i :: 0 <= i < |rows| ==>
              rows[i].balance + Paid(Plan(rows, rate), rows[i].user) - Received(Plan(rows, rate), rows[i].user) == 0
    ensures forall u :: u !in Users(rows) ==>
              Paid(Plan(rows, rate), u) == 0 && Received(Plan(rows, rate), u) == 0
  {
    forall i | 0 <= i < |rows|
      ensures rows[i].balance + Paid(Plan(rows, rate), rows[i].user) - Received(Plan(rows, rate), rows[i].user) == 0
    {
      PresentUser(rows, i);
      PlanUserTotals(rows, rate, rows[i].user);
    }
    forall u | u !in Users(rows)
      ensures Paid(Plan(rows, rate), u) == 0 && Received(Plan(rows, rate), u) == 0
    {
      AbsentTakesNoPart(rows, rate, u);
    }
  }

  lemma AbsentTakesNoPart(rows: seq<BalanceRow>, rate: string, u: UserId)
    requires u !in Users(rows)
    ensures Paid(Plan(rows, rate), u) == 0 && Received(Plan(rows, rate), u) == 0
  {
    var winners := Sort(Positives(rows), true);
    var losers := Sort(Negatives(rows), false);
    if |winners| > 0 && |losers| > 0 {
      AbsentUser(rows, u);
      SortCountFor(Positives(rows), true, u);
      SortCountFor(Negatives(rows), false, u);
      assert winners[0].user != u by {
        assert winners[0] in multiset(Positives(rows));
        var m := PositiveRowIndex(rows, winners[0]);
        assert rows[m].user in Users(rows);
      }
      UncountedTakesNoPart(winners, losers, rate, u);
    }
  }

  /** A user counted on neither side, and not the bank, neither pays nor receives. */
  lemma UncountedTakesNoPart(winners: seq<BalanceRow>, losers: seq<BalanceRow>, rate: string, u: UserId)
    requires |winners| > 0 && winners[0].user != u
    requires CountFor(winners, u) == 0 && CountFor(losers, u) == 0
    ensures var plan := LoserPayments(losers, winners[0].user, rate) + BankPayments(winners[0].user, winners[1..], rate);
            Paid(plan, u) == 0 && Received(plan, u) == 0
  {
    var bank := winners[0].user;
    TotalsConcat(LoserPayments(losers, bank, rate), BankPayments(bank, winners[1..], rate), u);
    LoserTotals(losers, bank, rate, u);
    BankTotals(bank, winners[1..], rate, u);
    SumForUncounted(winners[1..], u);
    SumForUncounted(losers, u);
  }

  /** Every winner is one of the room's rows, with a positive balance. */
  lemma {:induction false} PositiveRowIndex(rows: seq<BalanceRow>, x: BalanceRow) returns (m: nat)
    requires x in Positives(rows)
    ensures m < |rows| && rows[m] == x && x.balance > 0
  {
    if |rows| > 0 && rows[0].balance > 0 && x == rows[0] {
      m := 0;
    } else {
      var k := PositiveRowIndex(rows[1..], x);
      m := k + 1;
    }
  }

  /** What a user pays minus what they receive is their positive part plus their
      negative part, negated. */
  lemma PlanUserTotals(rows: seq<BalanceRow>, rate: string, u: UserId)
    requires UniqueUsers(rows) && SumBalances(rows) == 0
    ensures Paid(Plan(rows, rate), u) - Received(Plan(rows, rate), u)
            == -SumFor(Positives(rows), u) - SumFor(Negatives(rows), u)
  {
    var pos := Positives(rows);
    var neg := Negatives(rows);
    var winners := Sort(pos, true);
    var losers := Sort(neg, false);
    SortTotals(pos, true, u);
    SortTotals(neg, false, u);
    PartitionSum(rows);
    assert |winners| == |pos| by { assert |multiset(winners)| == |multiset(pos)|; }
    assert |losers| == |neg| by { assert |multiset(losers)| == |multiset(neg)|; }
    if |winners| == 0 || |losers| == 0 {
      // Zero-sum with one side empty means the other side is empty too.
      AllPositiveSum(pos);
      AllNegativeSum(neg);
      assert |pos| == 0 && |neg| == 0;
    } else {
      assert winners[0] in multiset(pos);
      var m := PositiveRowIndex(rows, winners[0]);
      PresentUser(rows, m);
      if winners[0].user != u {
        assert CountFor(winners, u) <= 1 by {
          if u in Users(rows) {
            var k :| 0 <= k < |rows| && rows[k].user == u;
            PresentUser(rows, k);
          } else {
            AbsentUser(rows, u);
          }
        }
      }
      PaymentTotals(winners, losers, rate, u);
    }
  }

  /** The same on the ordered sides: the bank's payments and receipts cancel its own
      balance because the two sides sum to zero. */
  lemma PaymentTotals(winners: seq<BalanceRow>, losers: seq<BalanceRow>, rate: string, u: UserId)
    requires |winners| > 0 && CountFor(winners, u) <= 1
    requires winners[0].user == u ==> SumFor(losers, u) == 0
    requires SumBalances(winners) + SumBalances(losers) == 0
    ensures var bank := winners[0].user;
            var plan := LoserPayments(losers, bank, rate) + BankPayments(bank, winners[1..], rate);
            Paid(plan, u) - Received(plan, u) == -SumFor(winners, u) - SumFor(losers, u)
  {
    var bank := winners[0].user;
    var rest := winners[1..];
    TotalsConcat(LoserPayments(losers, bank, rate), BankPayments(bank, rest, rate), u);
    LoserTotals(losers, bank, rate, u);
    BankTotals(bank, rest, rate, u);
    if bank == u {
      assert CountFor(rest, u) == 0;
      SumForUncounted(rest, u);
    }
  }

  /** Two winners and two losers: both losers pay the larger winner, largest loss first,
      and the larger winner pays the other winner. */
  lemma PlanTwoAndTwo(a: BalanceRow, b: BalanceRow, c: BalanceRow, d: BalanceRow, rate: string)
    requires a.balance > b.balance > 0 && c.balance < d.balance < 0
    ensures Plan([a, b, c, d], rate)
            == [Transfer(c.user, a.user, -c.balance, CalculateRmb(-c.balance, rate)),
                Transfer(d.user, a.user, -d.balance, CalculateRmb(-d.balance, rate)),
                Transfer(a.user, b.user, b.balance, CalculateRmb(b.balance, rate))]
  {
    var rows := [a, b, c, d];
    TwoAndTwoFilters(a, b, c, d);
    SortTwo(a, b, true);
    SortTwo(c, d, false);
    PlanOfSides(rows, rate, [a, b], [c, d]);
    assert [a, b][1..] == [b];
  }

  lemma TwoAndTwoFilters(a: BalanceRow, b: BalanceRow, c: BalanceRow, d: BalanceRow)
    requires a.balance > 0 && b.balance > 0 && c.balance < 0 && d.balance < 0
    ensures Positives([a, b, c, d]) == [a, b] && Negatives([a, b, c, d]) == [c, d]
  {
    var rows := [a, b, c, d];
    assert rows[1..] == [b, c, d] && [b, c, d][1..] == [c, d] && [c, d][1..] == [d] && [d][1..] == [];
    assert Positives([d]) == [] && Negatives([d]) == [d];
    assert Positives([c, d]) == [] && Negatives([c, d]) == [c] + [d];
    assert Positives([b, c, d]) == [b] && Negatives([b, c, d]) == [c, d];
    assert Positives(rows) == [a] + [b];
  }

  /** The plan of a table, given its two ordered sides. */
  lemma PlanOfSides(rows: seq<BalanceRow>, rate: string, winners: seq<BalanceRow>, losers: seq<BalanceRow>)
    requires Sort(Positives(rows), true) == winners && Sort(Negatives(rows), false) == losers
    requires |winners| > 0 && |losers| > 0
    ensures Plan(rows, rate) == LoserPayments(losers, winners[0].user, rate)
                                + BankPayments(winners[0].user, winners[1..], rate)
  {
  }

  /** The four-player case of the settlement tests at 20 chips per unit of money: players 3
      and 4 pay 300 and 200 chips (15 and 10) to player 1, who pays 200 chips (10) to player 2. */
  lemma PlanFourPlayers()
    ensures Plan([BalanceRow(1, 500), BalanceRow(2, 200), BalanceRow(3, -300), BalanceRow(4, -200)], "20:1")
            == [Transfer(3, 1, 300, 15.0), Transfer(4, 1, 200, 10.0), Transfer(1, 2, 200, 10.0)]
  {
    PlanTwoAndTwo(BalanceRow(1, 500), BalanceRow(2, 200), BalanceRow(3, -300), BalanceRow(4, -200), "20:1");
    FourPlayerRmb();
  }

  lemma FourPlayerRmb()
    ensures CalculateRmb(300, "20:1") == 15.0 && CalculateRmb(200, "20:1") == 10.0
  {
    Rate20To1();
  }

  /** Two rows already in order stay in order. */
  lemma SortTwo(x: BalanceRow, y: BalanceRow, descending: bool)
    requires Before(x, y, descending)
    ensures Sort([x, y], descending) == [x, y]
  {
    assert Sort([y], descending) == [y] by {
      assert [y][1..] == [];
    }
    assert Sort([x, y], descending) == Insert(x, Sort([y], descending), descending) by {
      assert [x, y][1..] == [y];
    }
    assert Insert(x, [y], descending) == [x, y];
  }

  /** Tables where only one side is non-zero get no plan. */
  lemma PlanOneSided()
    ensures Plan([BalanceRow(1, 150), BalanceRow(2, 0)], "20:1") == []
    ensures Plan([BalanceRow(1, 0), BalanceRow(2, -50)], "20:1") == []
  {
    OneSidedFilters();
    assert Sort([], true) == [] && Sort([], false) == [];
  }

  lemma OneSidedFilters()
    ensures Negatives([BalanceRow(1, 150), BalanceRow(2, 0)]) == []
    ensures Positives([BalanceRow(1, 0), BalanceRow(2, -50)]) == []
  {
    assert [BalanceRow(1, 150), BalanceRow(2, 0)][1..] == [BalanceRow(2, 0)];
    assert [BalanceRow(1, 0), BalanceRow(2, -50)][1..] == [BalanceRow(2, -50)];
    assert [BalanceRow(2, 0)][1..] == [] && [BalanceRow(2, -50)][1..] == [];
  }
}
