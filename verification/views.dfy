/**
 * The transaction list page: a running balance accumulated over the records
 * ordered oldest-first, then the list reversed in place for newest-first
 * display, with the final running value shown as the current balance.
 */
module Views {
  import opened Ledger

  /** A listed record with the running balance attached to it. */
  datatype Row = Row(tx: Transaction, runningBalance: int)

  /** What the page adds per record: the stored amount, whatever the type. */
  function RawAmount(t: Transaction): int {
    t.amount
  }

  predicate SortedByDate(s: seq<Transaction>) {
    forall i, j :: 0 <= i < j < |s| ==> s[i].date <= s[j].date
  }

  /** `ordered` is the result of listing the store `records` oldest-first. */
  predicate OldestFirst(records: seq<Transaction>, ordered: seq<Transaction>) {
    multiset(ordered) == multiset(records) && SortedByDate(ordered)
  }

  /** The oldest-first rows: each carries the sum of `w` over itself and every earlier record. */
  function RunningRows(s: seq<Transaction>, w: Transaction -> int): (r: seq<Row>)
    ensures |r| == |s|
    decreases |s|
  {
    if s == [] then [] else RunningRows(s[..|s| - 1], w) + [Row(s[|s| - 1], Sum(s, w))]
  }

  /** In oldest-first order, the row at `k` holds the `k`-th record and the total up to and including it. */
  lemma {:induction false} RunningRowsAt(s: seq<Transaction>, w: Transaction -> int, k: nat)
    requires k < |s|
    ensures RunningRows(s, w)[k] == Row(s[k], Sum(s[..k + 1], w))
    decreases |s|
  {
    if k < |s| - 1 {
      RunningRowsAt(s[..|s| - 1], w, k);
      assert s[..|s| - 1][..k + 1] == s[..k + 1];
    } else {
      assert s[..k + 1] == s;
    }
  }

  function Reversed(s: seq<Row>): (r: seq<Row>)
    ensures |r| == |s|
    ensures forall k :: 0 <= k < |s| ==> r[k] == s[|s| - 1 - k]
    decreases |s|
  {
    if s == [] then [] else [s[|s| - 1]] + Reversed(s[..|s| - 1])
  }

  /** `list.reverse()`: swap the two ends, moving inwards. */
  method Reverse(a: array<Row>)
    modifies a
    ensures a[..] == Reversed(old(a[..]))
  {
    var i, j := 0, a.Length - 1;
    while i < j
      invariant 0 <= i <= a.Length && j == a.Length - 1 - i
      invariant i > j ==> i == j + 1
      invariant forall k :: 0 <= k < i ==> a[k] == old(a[a.Length - 1 - k]) && a[a.Length - 1 - k] == old(a[k])
      invariant forall k :: i <= k <= j ==> a[k] == old(a[k])
    {
      a[i], a[j] := a[j], a[i];
      i, j := i + 1, j - 1;
    }
  }

  /**
   * The body of `transaction_list`, with the per-record weight `w` as a
   * parameter: accumulate, attach, append, then reverse.
   */
  method RunningList(ordered: seq<Transaction>, w: Transaction -> int) returns (rows: seq<Row>, current: int)
    ensures rows == Reversed(RunningRows(ordered, w))
    ensures |rows| == |ordered|
    ensures forall k :: 0 <= k < |rows| ==>
      rows[k].tx == ordered[|ordered| - 1 - k] && rows[k].runningBalance == Sum(ordered[..|ordered| - k], w)
    ensures current == Sum(ordered, w)
    ensures current == if rows == [] then 0 else rows[0].runningBalance
    ensures SortedByDate(ordered) ==> forall j, k :: 0 <= j < k < |rows| ==> rows[j].tx.date >= rows[k].tx.date
  {
    var n := |ordered|;
    var a := new Row[n];
    var running := 0;
    var i := 0;
    while i < n
      invariant 0 <= i <= n
      invariant running == Sum(ordered[..i], w)
      invariant a[..i] == RunningRows(ordered[..i], w)
    {
      assert ordered[..i + 1][..i] == ordered[..i];
      running := running + w(ordered[i]);
      a[i] := Row(ordered[i], running);
      i := i + 1;
    }
    assert ordered[..n] == ordered;
    assert a[..] == a[..n];
    Reverse(a);
    rows := a[..];
    current := running;
    forall k | 0 <= k < n
      ensures rows[k].tx == ordered[n - 1 - k] && rows[k].runningBalance == Sum(ordered[..n - k], w)
    {
      RunningRowsAt(ordered, w, n - 1 - k);
    }
    if n > 0 {
      RunningRowsAt(ordered, w, n - 1);
    }
  }

  /** `transaction_list` as written: the running balance adds each record's unsigned amount. */
  method TransactionList(ordered: seq<Transaction>) returns (rows: seq<Row>, current: int)
    ensures |rows| == |ordered|
    ensures forall k :: 0 <= k < |rows| ==>
      rows[k].tx == ordered[|ordered| - 1 - k] && rows[k].runningBalance == Sum(ordered[..|ordered| - k], RawAmount)
    ensures current == Sum(ordered, RawAmount)
    ensures current == if rows == [] then 0 else rows[0].runningBalance
    ensures SortedByDate(ordered) ==> forall j, k :: 0 <= j < k < |rows| ==> rows[j].tx.date >= rows[k].tx.date
  {
    rows, current := RunningList(ordered, RawAmount);
  }

  /** The list with the signed amount accumulated, so that it shows the ledger balance. */
  method TransactionListSigned(ordered: seq<Transaction>) returns (rows: seq<Row>, current: int)
    ensures |rows| == |ordered|
    ensures forall k :: 0 <= k < |rows| ==>
      rows[k].tx == ordered[|ordered| - 1 - k] && rows[k].runningBalance == Balance(ordered[..|ordered| - k])
    ensures current == Balance(ordered)
    ensures forall records :: OldestFirst(records, ordered) ==> current == Balance(records)
  {
    rows, current := RunningList(ordered, SignedAmount);
    forall records | OldestFirst(records, ordered) ensures current == Balance(records) {
      BalanceOrderIndependent(ordered, records);
    }
  }

  /** Summing unsigned amounts counts deposits and expenses alike. */
  lemma {:induction false} RawIsDepositsPlusExpenses(s: seq<Transaction>)
    ensures Sum(s, RawAmount) == Sum(s, DepositAmount) + Sum(s, ExpenseAmount)
    decreases |s|
  {
    if s != [] {
      RawIsDepositsPlusExpenses(s[..|s| - 1]);
    }
  }

  /** With no negative amounts, the expense total is zero exactly when every expense is zero. */
  lemma {:induction false} ExpenseTotalZero(s: seq<Transaction>)
    requires forall i :: 0 <= i < |s| ==> s[i].amount >= 0
    ensures Sum(s, ExpenseAmount) >= 0
    ensures Sum(s, ExpenseAmount) == 0 <==> forall i :: 0 <= i < |s| && s[i].kind == Expense ==> s[i].amount == 0
    decreases |s|
  {
    if s != [] {
      var init := s[..|s| - 1];
      ExpenseTotalZero(init);
      assert forall i :: 0 <= i < |init| ==> init[i] == s[i];
    }
  }

  /**
   * The page's current balance equals the ledger balance exactly when no
   * expense in the store has a non-zero amount: every expense of amount `a`
   * puts the page `2a` above the ledger.
   */
  lemma DisplayedBalanceMatchesLedgerIff(records: seq<Transaction>, ordered: seq<Transaction>)
    requires OldestFirst(records, ordered)
    requires forall i :: 0 <= i < |ordered| ==> ordered[i].amount >= 0
    ensures Sum(ordered, RawAmount) == Balance(records) + 2 * Sum(ordered, ExpenseAmount)
    ensures Sum(ordered, RawAmount) == Balance(records) <==>
      forall i :: 0 <= i < |ordered| && ordered[i].kind == Expense ==> ordered[i].amount == 0
    ensures (forall i :: 0 <= i < |ordered| ==> ordered[i].amount > 0) ==>
      (Sum(ordered, RawAmount) == Balance(records) <==> forall i :: 0 <= i < |ordered| ==> ordered[i].kind == Deposit)
  {
    BalanceOrderIndependent(ordered, records);
    RawIsDepositsPlusExpenses(ordered);
    ExpenseTotalZero(ordered);
  }

  /** A deposit of 100.00 followed by an expense of 30.00: the page shows 130.00, the ledger holds 70.00. */
  lemma DisplayedBalanceExample()
    ensures var ordered := [Transaction("TXN-0001", 10000, Deposit, 1), Transaction("TXN-0002", 3000, Expense, 2)];
      Sum(ordered, RawAmount) == 13000 && Balance(ordered) == 7000
  {
    var d := Transaction("TXN-0001", 10000, Deposit, 1);
    var e := Transaction("TXN-0002", 3000, Expense, 2);
    assert [d, e][..1] == [d];
    assert [d][..0] == [];
    assert Sum([d], SignedAmount) == 10000;
    assert Balance([d, e]) == Sum([d], SignedAmount) + SignedAmount(e);
  }
}
