/**
 * Validation of a submitted transaction (type and amount) against the
 * current store. Validation reads the store and never changes it.
 */
module Forms {
  import opened Wrappers
  import opened Ledger

  /**
   * A submission as the form's fields parse it. `None` stands for a value the
   * field itself refuses before any custom check runs: a missing or unknown
   * type, a missing or non-numeric amount.
   */
  datatype Submission = Submission(kind: Option<TxType>, amount: Option<int>)

  datatype FormError =
    | TypeInvalid        // the type field's own error
    | AmountInvalid      // the amount field's own error: missing or not a number
    | AmountTooManyDigits // the amount field's own error: more than 10 digits
    | AmountNotPositive  // "Amount must be positive"
    | NotEnoughBalance   // "Not enough balance"

  datatype Verdict = Accepted(kind: TxType, amount: int) | Rejected(errors: seq<FormError>)

  /** `clean_amount`: a non-positive amount is refused, any other is passed on unchanged. */
  function CleanAmount(amount: int): (r: Result<int, FormError>)
    ensures r.Ok? <==> amount > 0
    ensures r.Ok? ==> r.value == amount
    ensures r.Err? ==> r.error == AmountNotPositive
  {
    if amount <= 0 then Err(AmountNotPositive) else Ok(amount)
  }

  /** The amount field: its own parsing and digit limit, then `clean_amount`. */
  function CleanAmountField(amount: Option<int>): (r: Result<int, FormError>)
    ensures r.Ok? <==> amount.Some? && 0 < amount.value < MaxCents
    ensures r.Ok? ==> r.value == amount.value
    ensures amount.None? ==> r == Err(AmountInvalid)
    ensures amount.Some? && !FitsAmount(amount.value) ==> r == Err(AmountTooManyDigits)
    ensures amount.Some? && -MaxCents < amount.value <= 0 ==> r == Err(AmountNotPositive)
  {
    match amount
    case None => Err(AmountInvalid)
    case Some(c) => if !FitsAmount(c) then Err(AmountTooManyDigits) else CleanAmount(c)
  }

  /**
   * `clean`: an expense with a present, non-zero cleaned amount that would
   * take the balance below zero is refused. A type or amount that failed its
   * own field check is absent here, and the check is skipped.
   */
  function CleanForm(kind: Option<TxType>, amount: Result<int, FormError>, balance: int): (r: seq<FormError>)
    ensures r == [] || r == [NotEnoughBalance]
    ensures amount.Err? || kind != Some(Expense) ==> r == []
    ensures amount.Ok? && amount.value > 0 && kind == Some(Expense) ==> (r == [] <==> amount.value <= balance)
  {
    if kind == Some(Expense) && amount.Ok? && amount.value != 0 && balance - amount.value < 0
    then [NotEnoughBalance]
    else []
  }

  /** `is_valid()`: the field checks in field order (type, amount), then `clean`. */
  function Validate(sub: Submission, records: seq<Transaction>): (r: Verdict)
    ensures r.Accepted? <==>
      sub.kind.Some? && sub.amount.Some? && 0 < sub.amount.value < MaxCents &&
      (sub.kind.value == Expense ==> Balance(records) - sub.amount.value >= 0)
    ensures r.Accepted? ==> r.kind == sub.kind.value && r.amount == sub.amount.value
    ensures sub.amount.Some? && sub.amount.value <= 0 ==> r.Rejected? && NotEnoughBalance !in r.errors
    ensures sub.amount.Some? && -MaxCents < sub.amount.value <= 0 ==> AmountNotPositive in r.errors
    ensures r.Rejected? ==>
      (NotEnoughBalance in r.errors <==>
        sub.kind == Some(Expense) && sub.amount.Some? && 0 < sub.amount.value < MaxCents &&
        Balance(records) - sub.amount.value < 0)
    ensures r.Rejected? ==> r.errors != []
  {
    var typeErrors := if sub.kind.None? then [TypeInvalid] else [];
    var amount := CleanAmountField(sub.amount);
    var amountErrors := if amount.Err? then [amount.error] else [];
    var errors := typeErrors + amountErrors + CleanForm(sub.kind, amount, Balance(records));
    if errors == [] then Accepted(sub.kind.value, amount.value) else Rejected(errors)
  }

  /** A positive deposit within the column's range is always accepted, whatever the balance. */
  lemma DepositAccepted(amount: int, records: seq<Transaction>)
    requires 0 < amount < MaxCents
    ensures Validate(Submission(Some(Deposit), Some(amount)), records) == Accepted(Deposit, amount)
  {
  }

  /**
   * An expense is accepted exactly when it leaves the balance at zero or
   * above; spending the whole balance is allowed.
   */
  lemma ExpenseAcceptedIffCovered(amount: int, records: seq<Transaction>)
    requires 0 < amount < MaxCents
    ensures Validate(Submission(Some(Expense), Some(amount)), records).Accepted? <==> amount <= Balance(records)
    ensures amount == Balance(records) ==> Validate(Submission(Some(Expense), Some(amount)), records) == Accepted(Expense, amount)
  {
  }

  /**
   * Recording an accepted submission never takes a non-negative balance below
   * zero, and the new record is one the store accepts under a fresh code.
   */
  lemma AcceptedKeepsBalanceNonNegative(sub: Submission, records: seq<Transaction>, code: string, date: int)
    requires Balance(records) >= 0
    requires Validate(sub, records).Accepted?
    requires code !in Codes(records)
    ensures var v := Validate(sub, records);
      var t := Transaction(code, v.amount, v.kind, date);
      Insert(records, t) == Ok(records + [t]) && Balance(records + [t]) >= 0 && t.amount > 0
  {
    var v := Validate(sub, records);
    BalanceAppend(records, Transaction(code, v.amount, v.kind, date));
  }
}
