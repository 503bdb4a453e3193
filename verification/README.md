# Transaction tracker ledger: a Dafny model

This project models the domain layer of a small personal-finance ledger
written with Django. The ledger holds `Transaction` records, each with a
unique transaction code, an amount, a type (deposit or expense) and a
transaction date. The model covers four pieces:

- **Store and balance** (`ledger.dfy`, module `Ledger`). `Transaction` is a
  datatype. Amounts are integer cents, because the column is a decimal with
  10 digits, 2 of them after the point. Dates are opaque ordered integers.
  `TransactionStore` is the table, held as a class with a `records`
  sequence. Its invariant is that codes are unique and every amount fits
  the column. `Save` is the INSERT, which the database refuses for a
  duplicate code or an amount the column cannot hold. `Balance` is
  `get_current_balance`: the sum of signed amounts, where a deposit counts
  plus and an expense counts minus. The model proves that the balance is
  deposits minus expenses and does not depend on record order.
- **Import with de-duplication** (`services.dfy`, module `Services`).
  `ImportTransactionsFromApi` is the import loop, run against a store object.
  A fetched record whose id is already a stored code is skipped. Any other
  record is saved with the magnitude of its amount. The method is proved
  against `ImportRecords`, a fold that gives the store and the counters
  after each prefix of the batch. Lemmas about that fold give the
  properties: the counts add up, the import only appends, codes stay
  unique, every id ends up stored, and the only possible failure is an
  amount out of range.
- **Submission validation** (`forms.dfy`, module `Forms`). `Validate` is the
  form's `is_valid()`. The field checks run first, then `clean_amount` (the
  amount must be positive), then `clean` (an expense must not take the
  balance below zero). The result is either the accepted values or the
  list of errors.
- **Running-balance listing** (`views.dfy`, module `Views`).
  `TransactionList` is `transaction_list`. It accumulates a running value
  over the records in oldest-first order and attaches it to each row. It
  fills an array in that order, reverses the array in place, and returns
  the final running value as the current balance. As written, the page
  adds the unsigned amount, so an expense raises the value it shows. The
  model proves exactly when the page agrees with the ledger balance (see
  Findings).

The external API call is a parameter of the import: a `Fetch` value that is
either the decoded list or a failure. The order-by query of the listing is
its `ordered` argument. The `OldestFirst` predicate relates that argument to
the store: same records, sorted by date.

## Model

| member | source | states |
|---|---|---|
| `Ledger.Insert` | apps/transactions/models.py:6-7 | an insert with a code already stored fails with a duplicate-code error; it succeeds exactly for a new code and an amount within 10 digits, and then appends the record, adds its code and keeps the store's constraints |
| `Ledger.TransactionStore.Save` | apps/transactions/models.py:5-11 | saving a record with an existing code fails and leaves the store unchanged; a successful save appends exactly that record; the store invariant (unique codes, amounts in range) is kept |
| `Ledger.UniqueCodesCount` | apps/transactions/models.py:6 | in a store with unique codes there are exactly as many codes as records |
| `Ledger.SumConcat` | apps/transactions/models.py:21-22 | the summed aggregate over two stretches of records is the sum of the two aggregates |
| `Ledger.SumPermutation` | apps/transactions/models.py:21-22 | the summed aggregate is the same for any ordering of the same records |
| `Ledger.SignedAmount` | apps/transactions/tests/test_models.py:48-56 | the signed amount keeps the record's magnitude; it is +amount for a deposit and -amount for an expense (the deposit part minus the expense part). `get_signed_amount` is called at `apps/transactions/models.py:22` but defined nowhere in that file, so this rule comes from these tests |
| `Ledger.Balance` | apps/transactions/models.py:18-22 | `get_current_balance`: the balance of an empty store is 0, and any store's balance is the total of deposit amounts minus the total of expense amounts |
| `Ledger.SignedSumIsDepositsMinusExpenses` | apps/transactions/models.py:22 | summing signed amounts over any records equals summing deposits and subtracting expenses |
| `Ledger.BalanceAppend` | apps/transactions/models.py:22 | the balance of an empty store is 0; recording a deposit of `a` raises it by `a`, an expense of `a` lowers it by `a` |
| `Ledger.BalanceOrderIndependent` | apps/transactions/models.py:21-22 | two listings of the same records have the same balance |
| `Services.Abs` | apps/transactions/services.py:37 | `abs`: the result is non-negative and has the input's magnitude |
| `Services.FromApi` | apps/transactions/services.py:35-42 | the record built from a fetched one has code = id, the fetched type and date, and the magnitude of the fetched amount |
| `Services.ImportStep` | apps/transactions/services.py:28-45 | one loop iteration: a stored id only increments the skipped count; a new id with an amount in range is appended and increments the created count; a new id with an amount out of range fails the save; after a successful step the id is stored and one more record has been counted |
| `Services.ImportRecords` | apps/transactions/services.py:26-45 | the loop over a whole batch, stopping at the first failure; it never counts more records than the batch holds |
| `Services.RepeatedIdSkipped` | apps/transactions/services.py:28-32 | in any batch, a record whose id already occurred earlier in the batch is skipped without changing the store, because the existence check sees records saved earlier in the loop |
| `Services.FailureStops` | apps/transactions/services.py:19-54 | once a save has failed the loop is left, so the rest of the batch has no effect |
| `Services.ImportCountsAddUp` | apps/transactions/services.py:23-45 | on completion created + skipped equals the number of fetched records; after a failure it is smaller |
| `Services.ImportOnlyAppends` | apps/transactions/services.py:35-45 | the import only appends: the earlier records are a prefix of the new store, which has grown by exactly the created count, even when the import failed part way |
| `Services.ImportKeepsStoreValid` | apps/transactions/services.py:28-44 | codes stay unique and amounts stay in range, also for an id repeated inside one batch |
| `Services.ImportStoresEveryId` | apps/transactions/services.py:26-45 | after a completed import every fetched id is a stored code |
| `Services.ImportCreatesFromBatch` | apps/transactions/services.py:35-42 | every added record is a fetched record, with a previously unknown id, converted with code = id, amount = its magnitude, the fetched type and the fetched date |
| `Services.ImportSkipsStored` | apps/transactions/services.py:28-32 | fetched records whose ids are all stored are all skipped: created 0, skipped = batch length, store unchanged |
| `Services.ImportCreatesNew` | apps/transactions/services.py:26-45 | a batch of distinct new ids with amounts in range is created in full and in order, with nothing skipped |
| `Services.RepeatedIdCreatedOnce` | apps/transactions/services.py:28-44 | for a two-record batch repeating a new id with an amount in range, the first record is created and the second skipped (the general case is `Services.RepeatedIdSkipped`) |
| `Services.ImportFailsOnlyOnAmount` | apps/transactions/services.py:28-44 | an import never fails on a duplicate code; it fails only on a fetched record whose amount magnitude does not fit the column |
| `Services.ImportTransactionsFromApi` | apps/transactions/services.py:12-54 | a fetch failure is reported and the store is unchanged; otherwise the store and the outcome are those of the import fold; an empty fetch gives (0, 0); earlier records are untouched; a success has created + skipped = batch length, the store grown by created, and every fetched id stored |
| `Forms.CleanAmount` | apps/transactions/forms.py:10-14 | an amount passes exactly when positive, and then unchanged; otherwise the error is "Amount must be positive" |
| `Forms.CleanAmountField` | apps/transactions/models.py:7 | the form's amount field, before `clean_amount`: a missing or non-numeric amount and one of more than 10 digits get the field's own errors; a non-positive amount gets "Amount must be positive"; the amount passes unchanged exactly when it is positive and within 10 digits |
| `Forms.CleanForm` | apps/transactions/forms.py:16-27 | `clean`: reports at most "Not enough balance"; reports nothing when the type is not expense or the amount failed its own checks; for an expense with a positive amount, reports nothing exactly when the amount is at most the balance |
| `Forms.Validate` | apps/transactions/forms.py:16-27 | accepted exactly when type and amount are present, the amount is positive and within 10 digits, and an expense does not exceed the balance; a non-positive amount is always rejected without a balance error; "Not enough balance" is reported exactly for an expense with a valid amount above the balance |
| `Forms.DepositAccepted` | apps/transactions/forms.py:22 | a positive deposit is accepted whatever the balance |
| `Forms.ExpenseAcceptedIffCovered` | apps/transactions/forms.py:22-25 | an expense with a valid amount is accepted exactly when the amount is at most the balance; an amount equal to the balance is accepted |
| `Forms.AcceptedKeepsBalanceNonNegative` | apps/transactions/forms.py:22-25 | recording an accepted submission under a fresh code is an insert the store accepts, with a positive amount, and leaves a non-negative balance non-negative |
| `Views.RunningRowsAt` | apps/transactions/views.py:12-18 | in oldest-first order the `k`-th row holds the `k`-th record and the total over it and all earlier records |
| `Views.Reversed` | apps/transactions/views.py:21 | the reversed list has the same length and holds at `k` the element at `n - 1 - k` |
| `Views.Reverse` | apps/transactions/views.py:21 | the array afterwards is the reverse of what it held before |
| `Views.RunningList` | apps/transactions/views.py:6-26 | one row per record, newest first; the row at `k` carries the record at `n - 1 - k` and the total up to it; the current value is the full total, which is the first row's value or 0 for an empty list; date-sorted input gives newest-first dates |
| `Views.TransactionList` | apps/transactions/views.py:12-26 | as written: the same, with the running value summing the unsigned amounts |
| `Views.TransactionListSigned` | apps/transactions/views.py:16 | corrected: the running values are ledger balances of the prefixes, and the current value is the store's balance for any oldest-first listing of it |
| `Views.RawIsDepositsPlusExpenses` | apps/transactions/views.py:16 | the page's total is the deposit total plus the expense total |
| `Views.ExpenseTotalZero` | apps/transactions/views.py:16 | with no negative amounts, the expense total is non-negative and is zero exactly when every expense amount is zero |
| `Views.DisplayedBalanceMatchesLedgerIff` | apps/transactions/views.py:16 | the page's current value is the ledger balance plus twice the expense total; so it equals the balance exactly when no expense has a non-zero amount, and, with positive amounts, exactly when the store holds no expense |
| `Views.DisplayedBalanceExample` | apps/transactions/views.py:16 | for a deposit of 100.00 and an expense of 30.00 the page shows 130.00 while the ledger balance is 70.00 |

## Left out

- The HTTP client, `raise_for_status`, JSON decoding and logging are not modelled. The import receives the fetch result as a `Fetch` parameter, either the decoded list or a failure.
- Malformed fetched records are not modelled: a missing key, a non-numeric amount, a `type` outside the two choices (which `save()` would store unchecked), or a `createdAt` that the date parser cannot read (a NOT NULL failure on save). Each fetched record carries an integer amount, one of the two types and a date.
- Amounts arriving as JSON floats, and their conversion to decimal, are not modelled. All amounts are integer cents.
- The 20-character limit on transaction codes is not modelled. Codes are unbounded strings.
- Save failures other than a duplicate code or an out-of-range amount are not modelled (for example, a lost database connection). The amount check follows the column's declared precision of 10 digits with 2 decimal places.
- The order-by query is not modelled. `transaction_list` receives its oldest-first list as an argument. The order among records with equal dates is left open.
- Template rendering, pagination (10 per page), `load_more_transactions`, `add_transaction`, `edit_transaction`, `load_transactions` and the generation of local `TXN-NNNN` codes are not part of this model. `apps/transactions/urls.py` routes to these views, but `apps/transactions/views.py` defines only `transaction_list`.
- A daily cap of 200 expenses is asserted by `apps/transactions/tests/test_forms.py:74-101` but appears nowhere in `apps/transactions/forms.py`. The model follows the code and has no cap.
- Stored amounts are not always positive. `apps/transactions/forms.py:12` rejects a non-positive submitted amount, but the import stores `abs(amount)` (`apps/transactions/services.py:37`), so a fetched amount of 0 is stored as 0. The model follows the code, and the lemmas about the listing assume only non-negative amounts.
- The listing sums unsigned amounts (`apps/transactions/views.py:16`), while `apps/transactions/tests/test_views.py:34` expects "Balance: $70.00" for a deposit of 100.00 and an expense of 30.00, i.e. a signed sum. The model follows the code (see Findings).
- `created_at`/`updated_at`, `__str__` formatting and the admin configuration are not modelled.
- Concurrency is not modelled. A check-then-insert race between two requests cannot occur in this sequential model.

## Findings

| source | as written | input that shows it | evidently intended | confidence | as-written member | corrected member |
|---|---|---|---|---|---|---|
| apps/transactions/views.py:16 | `running_balance` adds each record's unsigned `amount`, so an expense raises the running and current balance | a deposit of 100.00 followed by an expense of 30.00: the page shows 130.00 | add the signed amount, so the current balance is the ledger balance; `apps/transactions/tests/test_views.py:34` expects "Balance: $70.00" | not executed | `Views.DisplayedBalanceExample` (about `Views.TransactionList`) | `Views.TransactionListSigned` |
