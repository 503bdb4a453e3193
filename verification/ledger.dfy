/**
 * The ledger store: the Transaction record, the signed-amount rule, the
 * balance aggregate and the store itself with its uniqueness constraint on
 * transaction codes.
 *
 * Amounts are integer cents (the column is a decimal with two places), dates
 * are opaque ordered integers.
 */
module Ledger {
  import opened Wrappers

  datatype TxType = Deposit | Expense

  datatype Transaction = Transaction(code: string, amount: int, kind: TxType, date: int)

  /** The amount column holds at most 10 digits, 2 of them after the point. */
  const MaxCents: int := 10_000_000_000

  predicate FitsAmount(cents: int) {
    -MaxCents < cents < MaxCents
  }

  /**
   * A deposit counts positively towards the balance, an expense negatively:
   * the signed amount keeps the magnitude and is the deposit part minus the
   * expense part.
   */
  function SignedAmount(t: Transaction): (r: int)
    ensures r == t.amount || r == -t.amount
    ensures r == DepositAmount(t) - ExpenseAmount(t)
  {
    match t.kind
    case Deposit => t.amount
    case Expense => -t.amount
  }

  /** The part of a record's amount that is a deposit, resp. an expense. */
  function DepositAmount(t: Transaction): int {
    if t.kind == Deposit then t.amount else 0
  }

  function ExpenseAmount(t: Transaction): int {
    if t.kind == Expense then t.amount else 0
  }

  /** `sum(w(tx) for tx in s)`, accumulated from the first record to the last. */
  function Sum(s: seq<Transaction>, w: Transaction -> int): int
    decreases |s|
  {
    if s == [] then 0 else Sum(s[..|s| - 1], w) + w(s[|s| - 1])
  }

  /**
   * The current balance of a store holding `records`: the total deposited
   * minus the total spent.
   */
  function Balance(records: seq<Transaction>): (b: int)
    ensures records == [] ==> b == 0
    ensures b == Sum(records, DepositAmount) - Sum(records, ExpenseAmount)
  {
    SignedSumIsDepositsMinusExpenses(records);
    Sum(records, SignedAmount)
  }

  function Codes(records: seq<Transaction>): set<string> {
    set i | 0 <= i < |records| :: records[i].code
  }

  ghost predicate UniqueCodes(records: seq<Transaction>) {
    forall i, j :: 0 <= i < j < |records| ==> records[i].code != records[j].code
  }

  /** The database constraints every stored record satisfies. */
  ghost predicate StoreValid(records: seq<Transaction>) {
    UniqueCodes(records) && forall i :: 0 <= i < |records| ==> FitsAmount(records[i].amount)
  }

  /** Why the database refuses to insert a record. */
  datatype SaveError = DuplicateCode | AmountOutOfRange

  /** Inserting `t` into a store holding `records`. */
  function Insert(records: seq<Transaction>, t: Transaction): (r: Result<seq<Transaction>, SaveError>)
    ensures t.code in Codes(records) ==> r == Err(DuplicateCode)
    ensures r.Ok? <==> t.code !in Codes(records) && FitsAmount(t.amount)
    ensures r.Ok? ==> r.value == records + [t] && Codes(r.value) == Codes(records) + {t.code}
    ensures r.Ok? && StoreValid(records) ==> StoreValid(r.value)
  {
    if t.code in Codes(records) then Err(DuplicateCode)
    else if !FitsAmount(t.amount) then Err(AmountOutOfRange)
    else
      var s := records + [t];
      assert Codes(s) == Codes(records) + {t.code} by {
        forall c | c in Codes(s) ensures c in Codes(records) + {t.code} {
          var i :| 0 <= i < |s| && s[i].code == c;
          if i < |records| { assert records[i].code == c; }
        }
        forall c | c in Codes(records) ensures c in Codes(s) {
          var i :| 0 <= i < |records| && records[i].code == c;
          assert s[i].code == c;
        }
        assert s[|records|].code == t.code;
      }
      assert StoreValid(records) ==> StoreValid(s) by {
        if StoreValid(records) {
          forall i, j | 0 <= i < j < |s| ensures s[i].code != s[j].code {
            if j == |records| { assert records[i].code in Codes(records); }
          }
        }
      }
      Ok(s)
  }

  /** Every code of a store with unique codes names exactly one record. */
  lemma {:induction false} UniqueCodesCount(records: seq<Transaction>)
    requires UniqueCodes(records)
    ensures |Codes(records)| == |records|
  {
    if records != [] {
      var init := records[..|records| - 1];
      var last := records[|records| - 1];
      assert UniqueCodes(init);
      UniqueCodesCount(init);
      assert Codes(records) == Codes(init) + {last.code} by {
        forall c | c in Codes(records) ensures c in Codes(init) + {last.code} {
          var i :| 0 <= i < |records| && records[i].code == c;
          if i < |init| { assert init[i].code == c; }
        }
        forall c | c in Codes(init) ensures c in Codes(records) {
          var i :| 0 <= i < |init| && init[i].code == c;
          assert records[i].code == c;
        }
        assert records[|records| - 1].code == last.code;
      }
      forall i | 0 <= i < |init| ensures init[i].code != last.code {
        assert records[i].code != records[|records| - 1].code;
      }
    }
  }

  /** The sum over two stretches of records is the sum of their sums. */
  lemma {:induction false} SumConcat(a: seq<Transaction>, b: seq<Transaction>, w: Transaction -> int)
    ensures Sum(a + b, w) == Sum(a, w) + Sum(b, w)
    decreases |b|
  {
    if b == [] {
      assert a + b == a;
    } else {
      var init := b[..|b| - 1];
      assert (a + b)[..|a + b| - 1] == a + init;
      assert (a + b)[|a + b| - 1] == b[|b| - 1];
      SumConcat(a, init, w);
    }
  }

  /** The sum does not depend on the order of the records. */
  lemma {:induction false} SumPermutation(a: seq<Transaction>, b: seq<Transaction>, w: Transaction -> int)
    requires multiset(a) == multiset(b)
    ensures Sum(a, w) == Sum(b, w)
    decreases |a|
  {
    if a == [] {
      assert |b| == |multiset(b)| == 0;
    } else {
      var init, x := a[..|a| - 1], a[|a| - 1];
      assert a == init + [x];
      assert x in multiset(b);
      var j :| 0 <= j < |b| && b[j] == x;
      var rest := b[..j] + b[j + 1..];
      assert b == b[..j] + [x] + b[j + 1..];
      assert multiset(init) == multiset(rest) by {
        assert multiset(a) == multiset(init) + multiset{x};
        assert multiset(b) == multiset(b[..j]) + multiset{x} + multiset(b[j + 1..]);
        assert multiset(rest) == multiset(b[..j]) + multiset(b[j + 1..]);
        assert multiset(init) + multiset{x} == multiset(rest) + multiset{x};
        assert multiset(init) == multiset(init) + multiset{x} - multiset{x};
        assert multiset(rest) == multiset(rest) + multiset{x} - multiset{x};
      }
      SumPermutation(init, rest, w);
      SumConcat(b[..j] + [x], b[j + 1..], w);
      SumConcat(b[..j], [x], w);
      SumConcat(b[..j], b[j + 1..], w);
      assert Sum([x], w) == w(x) by { assert [x][..0] == []; }
    }
  }

  /**
   * Summing signed amounts is summing deposits and subtracting expenses:
   * each record contributes its amount with the sign its type gives it.
   */
  lemma {:induction false} SignedSumIsDepositsMinusExpenses(s: seq<Transaction>)
    ensures Sum(s, SignedAmount) == Sum(s, DepositAmount) - Sum(s, ExpenseAmount)
    decreases |s|
  {
    if s != [] {
      SignedSumIsDepositsMinusExpenses(s[..|s| - 1]);
    }
  }

  /**
   * An empty store has balance 0; recording a deposit of `a` raises the
   * balance by `a`, recording an expense of `a` lowers it by `a`.
   */
  lemma BalanceAppend(s: seq<Transaction>, t: Transaction)
    ensures Balance([]) == 0
    ensures t.kind == Deposit ==> Balance(s + [t]) == Balance(s) + t.amount
    ensures t.kind == Expense ==> Balance(s + [t]) == Balance(s) - t.amount
  {
    assert (s + [t])[..|s|] == s;
  }

  /** The balance does not depend on the order in which records are listed. */
  lemma BalanceOrderIndependent(a: seq<Transaction>, b: seq<Transaction>)
    requires multiset(a) == multiset(b)
    ensures Balance(a) == Balance(b)
  {
    SumPermutation(a, b, SignedAmount);
  }

  /** The persistent collection of transaction records. */
  class TransactionStore {
    var records: seq<Transaction>

    ghost predicate Valid()
      reads this
    {
      StoreValid(records)
    }

    constructor ()
      ensures Valid() && records == []
    {
      records := [];
    }

    /** `save()` of a new record: an INSERT that the database may refuse. */
    method Save(t: Transaction) returns (err: Option<SaveError>)
      requires Valid()
      modifies this
      ensures Valid()
      ensures t.code in Codes(old(records)) ==> err == Some(DuplicateCode) && records == old(records)
      ensures err.None? <==> t.code !in Codes(old(records)) && FitsAmount(t.amount)
      ensures err.None? ==> records == old(records) + [t]
      ensures err.Some? ==> records == old(records)
      ensures Insert(old(records), t) == if err.None? then Ok(records) else Err(err.value)
    {
      match Insert(records, t)
      case Ok(s) =>
        records := s;
        err := None;
      case Err(e) =>
        err := Some(e);
    }
  }
}
