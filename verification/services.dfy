/**
 * Importing transactions from the external API: each fetched record whose id
 * is already a stored code is skipped, every other one is saved with the
 * magnitude of its amount. Records saved before a failure stay saved.
 */
module Services {
  import opened Wrappers
  import opened Ledger

  /** One element of the API's JSON array. */
  datatype ApiRecord = ApiRecord(id: string, amount: int, kind: TxType, createdAt: int)

  /** What the API client hands back: the decoded list, or a failure. */
  datatype Fetch = Fetched(batch: seq<ApiRecord>) | FetchFailed

  datatype ImportError = FetchError | SaveFailed(code: string, reason: SaveError)

  datatype ImportOutcome = Imported(created: nat, skipped: nat) | Failed(error: ImportError)

  /** The store and the counters after processing a prefix of the batch. */
  datatype ImportRun = ImportRun(records: seq<Transaction>, created: nat, skipped: nat, failure: Option<ImportError>)

  function Abs(x: int): (r: int)
    ensures r >= 0 && (r == x || r == -x)
  {
    if x < 0 then -x else x
  }

  /** The local record built from a fetched one. */
  function FromApi(a: ApiRecord): (t: Transaction)
    ensures t.code == a.id && t.kind == a.kind && t.date == a.createdAt
    ensures t.amount >= 0 && (t.amount == a.amount || t.amount == -a.amount)
  {
    Transaction(a.id, Abs(a.amount), a.kind, a.createdAt)
  }

  /**
   * One iteration of the import loop: a stored id is counted as skipped and
   * changes nothing else; a new one is saved and counted as created, or its
   * save is refused for the amount.
   */
  function ImportStep(run: ImportRun, a: ApiRecord): (r: ImportRun)
    requires run.failure.None?
    ensures a.id in Codes(run.records) ==> r == run.(skipped := run.skipped + 1)
    ensures a.id !in Codes(run.records) && FitsAmount(Abs(a.amount)) ==>
      r == run.(records := run.records + [FromApi(a)], created := run.created + 1)
    ensures a.id !in Codes(run.records) && !FitsAmount(Abs(a.amount)) ==>
      r == run.(failure := Some(SaveFailed(a.id, AmountOutOfRange)))
    ensures r.failure.None? ==> a.id in Codes(r.records) && r.created + r.skipped == run.created + run.skipped + 1
  {
    if a.id in Codes(run.records) then run.(skipped := run.skipped + 1)
    else
      match Insert(run.records, FromApi(a))
      case Ok(s) => run.(records := s, created := run.created + 1)
      case Err(e) => run.(failure := Some(SaveFailed(a.id, e)))
  }

  /** The import loop run over `batch` against a store holding `records`; it stops at the first failure. */
  function ImportRecords(records: seq<Transaction>, batch: seq<ApiRecord>): (r: ImportRun)
    ensures r.created + r.skipped <= |batch|
    decreases |batch|
  {
    if batch == [] then ImportRun(records, 0, 0, None)
    else
      var run := ImportRecords(records, batch[..|batch| - 1]);
      if run.failure.Some? then run else ImportStep(run, batch[|batch| - 1])
  }

  function OutcomeOf(run: ImportRun): ImportOutcome {
    match run.failure
    case Some(e) => Failed(e)
    case None => Imported(run.created, run.skipped)
  }

  /** Once the loop has failed, the rest of the batch is never looked at. */
  lemma {:induction false} FailureStops(records: seq<Transaction>, batch: seq<ApiRecord>, i: nat)
    requires i <= |batch|
    requires ImportRecords(records, batch[..i]).failure.Some?
    ensures ImportRecords(records, batch) == ImportRecords(records, batch[..i])
    decreases |batch| - i
  {
    if i < |batch| {
      assert batch[..|batch| - 1][..i] == batch[..i];
      FailureStops(records, batch[..|batch| - 1], i);
    } else {
      assert batch[..i] == batch;
    }
  }

  /**
   * Every fetched record is counted exactly once, as created or as skipped,
   * when the import completes; a failed import has looked at fewer.
   */
  lemma {:induction false} ImportCountsAddUp(records: seq<Transaction>, batch: seq<ApiRecord>)
    ensures var run := ImportRecords(records, batch);
      run.failure.None? ==> run.created + run.skipped == |batch|
    ensures var run := ImportRecords(records, batch);
      run.failure.Some? ==> run.created + run.skipped < |batch|
    decreases |batch|
  {
    if batch != [] {
      ImportCountsAddUp(records, batch[..|batch| - 1]);
    }
  }

  /**
   * The import only appends: the records stored before stay where they were,
   * unchanged, and the store grows by exactly the number created, also when
   * the import fails part way.
   */
  lemma {:induction false} ImportOnlyAppends(records: seq<Transaction>, batch: seq<ApiRecord>)
    ensures var run := ImportRecords(records, batch);
      records <= run.records && |run.records| == |records| + run.created
    decreases |batch|
  {
    if batch != [] {
      ImportOnlyAppends(records, batch[..|batch| - 1]);
    }
  }

  /** Codes stay unique and amounts stay within the column's range. */
  lemma {:induction false} ImportKeepsStoreValid(records: seq<Transaction>, batch: seq<ApiRecord>)
    requires StoreValid(records)
    ensures StoreValid(ImportRecords(records, batch).records)
    decreases |batch|
  {
    if batch != [] {
      ImportKeepsStoreValid(records, batch[..|batch| - 1]);
    }
  }

  /** After a completed import every fetched id is a stored code. */
  lemma {:induction false} ImportStoresEveryId(records: seq<Transaction>, batch: seq<ApiRecord>)
    ensures var run := ImportRecords(records, batch);
      run.failure.None? ==> forall i :: 0 <= i < |batch| ==> batch[i].id in Codes(run.records)
    decreases |batch|
  {
    if batch != [] {
      var init := batch[..|batch| - 1];
      var prev := ImportRecords(records, init);
      ImportStoresEveryId(records, init);
      var run := ImportRecords(records, batch);
      if run.failure.None? {
        assert prev.failure.None?;
        assert Codes(prev.records) <= Codes(run.records);
        forall i | 0 <= i < |batch| ensures batch[i].id in Codes(run.records) {
          if i < |init| { assert init[i] == batch[i]; }
        }
      }
    }
  }

  /**
   * Each record the import adds is the conversion of a fetched record whose id
   * was not stored before: its code is that id, its amount the magnitude of the
   * fetched amount and its type the fetched type.
   */
  lemma {:induction false} ImportCreatesFromBatch(records: seq<Transaction>, batch: seq<ApiRecord>)
    ensures var run := ImportRecords(records, batch);
      forall k :: |records| <= k < |run.records| ==>
        exists j :: 0 <= j < |batch| && batch[j].id !in Codes(records) && run.records[k] == FromApi(batch[j])
    decreases |batch|
  {
    if batch != [] {
      var init := batch[..|batch| - 1];
      var prev := ImportRecords(records, init);
      ImportCreatesFromBatch(records, init);
      ImportOnlyAppends(records, init);
      var run := ImportRecords(records, batch);
      forall k | |records| <= k < |run.records|
        ensures exists j :: 0 <= j < |batch| && batch[j].id !in Codes(records) && run.records[k] == FromApi(batch[j])
      {
        assert prev.records <= run.records;
        if k < |prev.records| {
          assert exists j :: 0 <= j < |init| && init[j].id !in Codes(records) && prev.records[k] == FromApi(init[j]);
          var j :| 0 <= j < |init| && init[j].id !in Codes(records) && prev.records[k] == FromApi(init[j]);
          assert batch[j] == init[j];
        } else {
          var a := batch[|batch| - 1];
          assert run.records == prev.records + [FromApi(a)];
          assert run.records[k] == FromApi(batch[|batch| - 1]);
          assert a.id !in Codes(prev.records);
          assert a.id !in Codes(records) by {
            forall i | 0 <= i < |records| ensures records[i].code != a.id {
              assert prev.records[i] == records[i];
              assert prev.records[i].code in Codes(prev.records);
            }
          }
        }
      }
    }
  }

  /** Fetched records that are all already stored are all skipped, and nothing changes. */
  lemma {:induction false} ImportSkipsStored(records: seq<Transaction>, batch: seq<ApiRecord>)
    requires forall i :: 0 <= i < |batch| ==> batch[i].id in Codes(records)
    ensures ImportRecords(records, batch) == ImportRun(records, 0, |batch|, None)
    decreases |batch|
  {
    if batch != [] {
      ImportSkipsStored(records, batch[..|batch| - 1]);
    }
  }

  /** The conversions of a batch, in order. */
  function Converted(batch: seq<ApiRecord>): (r: seq<Transaction>)
    ensures |r| == |batch|
    ensures forall i :: 0 <= i < |batch| ==> r[i] == FromApi(batch[i])
    decreases |batch|
  {
    if batch == [] then [] else Converted(batch[..|batch| - 1]) + [FromApi(batch[|batch| - 1])]
  }

  ghost predicate DistinctIds(batch: seq<ApiRecord>) {
    forall i, j :: 0 <= i < j < |batch| ==> batch[i].id != batch[j].id
  }

  /**
   * A batch of new, distinct ids whose amounts fit is created in full, in
   * order, and nothing is skipped.
   */
  lemma {:induction false} ImportCreatesNew(records: seq<Transaction>, batch: seq<ApiRecord>)
    requires DistinctIds(batch)
    requires forall i :: 0 <= i < |batch| ==> batch[i].id !in Codes(records) && FitsAmount(Abs(batch[i].amount))
    ensures ImportRecords(records, batch) == ImportRun(records + Converted(batch), |batch|, 0, None)
    decreases |batch|
  {
    if batch != [] {
      var init := batch[..|batch| - 1];
      var a := batch[|batch| - 1];
      ImportCreatesNew(records, init);
      var prev := records + Converted(init);
      assert a.id !in Codes(prev) by {
        forall k | 0 <= k < |prev| ensures prev[k].code != a.id {
          if k < |records| {
            assert records[k].code in Codes(records);
          } else {
            assert prev[k] == FromApi(init[k - |records|]);
            assert init[k - |records|] == batch[k - |records|];
          }
        }
      }
      assert prev + [FromApi(a)] == records + Converted(batch);
    }
  }

  /** A two-record batch repeating a new id: the first is created, the second skipped. */
  lemma RepeatedIdCreatedOnce(records: seq<Transaction>, a: ApiRecord, b: ApiRecord)
    requires a.id == b.id && a.id !in Codes(records) && FitsAmount(Abs(a.amount))
    ensures ImportRecords(records, [a, b]) == ImportRun(records + [FromApi(a)], 1, 1, None)
  {
    assert [a, b][..1] == [a];
    assert [a][..0] == [];
    var first := ImportRecords(records, [a]);
    assert ImportRecords(records, [a][..0]) == ImportRun(records, 0, 0, None);
    assert first == ImportStep(ImportRun(records, 0, 0, None), a);
    assert first == ImportRun(records + [FromApi(a)], 1, 0, None);
    assert b.id in Codes(first.records) by {
      assert first.records[|records|].code == b.id;
    }
    assert ImportRecords(records, [a, b]) == ImportStep(first, b);
  }

  /**
   * The existence check sees the records saved earlier in the same loop, so
   * an id repeated later in a batch is skipped and changes nothing.
   */
  lemma RepeatedIdSkipped(records: seq<Transaction>, batch: seq<ApiRecord>, i: nat, j: nat)
    requires i < j < |batch| && batch[i].id == batch[j].id
    requires ImportRecords(records, batch[..j]).failure.None?
    ensures var prev := ImportRecords(records, batch[..j]);
      ImportRecords(records, batch[..j + 1]) == prev.(skipped := prev.skipped + 1)
  {
    ImportStoresEveryId(records, batch[..j]);
    assert batch[..j + 1][..j] == batch[..j];
    assert batch[..j][i] == batch[i];
  }

  /**
   * The existence check comes first, so a save during import can only be
   * refused for the amount, and only for a fetched record whose magnitude
   * does not fit the column.
   */
  lemma {:induction false} ImportFailsOnlyOnAmount(records: seq<Transaction>, batch: seq<ApiRecord>)
    ensures var run := ImportRecords(records, batch);
      run.failure.Some? ==>
        run.failure.value.SaveFailed? && run.failure.value.reason == AmountOutOfRange &&
        exists j :: 0 <= j < |batch| && batch[j].id == run.failure.value.code && !FitsAmount(Abs(batch[j].amount))
    decreases |batch|
  {
    if batch != [] {
      var init := batch[..|batch| - 1];
      ImportFailsOnlyOnAmount(records, init);
      var prev := ImportRecords(records, init);
      if prev.failure.Some? {
        var j :| 0 <= j < |init| && init[j].id == prev.failure.value.code && !FitsAmount(Abs(init[j].amount));
        assert batch[j] == init[j];
      }
    }
  }

  /**
   * `TransactionService.import_transactions_from_api`: fetch, then for each
   * fetched record either count it as skipped or save it and count it as
   * created. A fetch failure or a refused save is propagated.
   */
  method ImportTransactionsFromApi(store: TransactionStore, fetch: Fetch) returns (outcome: ImportOutcome)
    requires store.Valid()
    modifies store
    ensures store.Valid()
    ensures fetch.FetchFailed? ==> outcome == Failed(FetchError) && store.records == old(store.records)
    ensures fetch.Fetched? ==>
      var run := ImportRecords(old(store.records), fetch.batch);
      store.records == run.records && outcome == OutcomeOf(run)
    ensures fetch == Fetched([]) ==> outcome == Imported(0, 0) && store.records == old(store.records)
    ensures old(store.records) <= store.records
    ensures outcome.Imported? ==>
      fetch.Fetched? &&
      outcome.created + outcome.skipped == |fetch.batch| &&
      |store.records| == |old(store.records)| + outcome.created &&
      forall i :: 0 <= i < |fetch.batch| ==> fetch.batch[i].id in Codes(store.records)
  {
    match fetch
    case FetchFailed =>
      outcome := Failed(FetchError);
    case Fetched(batch) =>
      ghost var start := store.records;
      var created, skipped := 0, 0;
      var i := 0;
      while i < |batch|
        invariant 0 <= i <= |batch|
        invariant store.Valid()
        invariant ImportRecords(start, batch[..i]) == ImportRun(store.records, created, skipped, None)
      {
        var a := batch[i];
        assert batch[..i + 1][..i] == batch[..i];
        if a.id in Codes(store.records) {
          skipped := skipped + 1;
        } else {
          var err := store.Save(FromApi(a));
          if err.Some? {
            outcome := Failed(SaveFailed(a.id, err.value));
            FailureStops(start, batch, i + 1);
            ImportOnlyAppends(start, batch);
            return;
          }
          created := created + 1;
        }
        i := i + 1;
      }
      assert batch[..i] == batch;
      outcome := Imported(created, skipped);
      ImportCountsAddUp(start, batch);
      ImportOnlyAppends(start, batch);
      ImportStoresEveryId(start, batch);
  }
}
