/** The chunked batch scheduler and the run driver (`run_in_batch` and
    `async_run` in tool/vlm_curation_deprecated/async_vlm.py). Concurrency is
    modelled by its schedule: the units are cut into consecutive slices, and
    every unit of a slice completes before the next slice starts. */
module Batch {
  import opened Wrappers
  import opened Messages
  import opened Aggregation
  import opened Reviewer
  import opened Fewshot

  /** `asyncio.Semaphore` refuses a negative initial value. */
  const SemaphoreError: Exception := ValueError("Semaphore initial value must be >= 0")
  /** `range` refuses a zero step. */
  const ZeroStepError: Exception := ValueError("range() arg 3 must not be zero")
  /** The column the result table is sorted and indexed by. */
  const UnitColumn: string := "unit_ids"

  // ----------------------------------------------------------- the slices

  /** `tasks[i:i + size]` for `i` in `range(0, len(tasks), size)`. */
  function Chunks(ids: seq<int>, size: nat): seq<seq<int>>
    requires size > 0
    decreases |ids|
  {
    if |ids| == 0 then []
    else if |ids| <= size then [ids]
    else [ids[..size]] + Chunks(ids[size..], size)
  }

  /** The slices are consecutive and cover the units in order. */
  lemma {:induction false} ChunksCover(ids: seq<int>, size: nat)
    requires size > 0
    ensures Concat(Chunks(ids, size)) == ids
    decreases |ids|
  {
    if |ids| > size {
      ChunksCover(ids[size..], size);
      assert ids == ids[..size] + ids[size..];
    }
  }

  /** No slice is empty or larger than `size`, and only the last may be
      smaller. */
  lemma {:induction false} ChunksSizes(ids: seq<int>, size: nat)
    requires size > 0
    ensures forall c :: c in Chunks(ids, size) ==> 0 < |c| <= size
    ensures forall i :: 0 <= i < |Chunks(ids, size)| - 1 ==> |Chunks(ids, size)[i]| == size
    decreases |ids|
  {
    if |ids| > size {
      var rest := Chunks(ids[size..], size);
      ChunksSizes(ids[size..], size);
      assert Chunks(ids, size) == [ids[..size]] + rest;
      forall i | 1 <= i < |Chunks(ids, size)| - 1 ensures |Chunks(ids, size)[i]| == size {
        assert Chunks(ids, size)[i] == rest[i - 1];
      }
    }
  }

  /** Ten units and nine workers (slices of three): units 1 to 9 in three
      full slices, unit 10 alone in the fourth. */
  lemma ChunksOfTen()
    ensures Chunks([1, 2, 3, 4, 5, 6, 7, 8, 9, 10], 9 / 3) == [[1, 2, 3], [4, 5, 6], [7, 8, 9], [10]]
  {
    var ids := [1, 2, 3, 4, 5, 6, 7, 8, 9, 10];
    assert ids[..3] == [1, 2, 3] && ids[3..] == [4, 5, 6, 7, 8, 9, 10];
    var r1 := ids[3..];
    assert r1[..3] == [4, 5, 6] && r1[3..] == [7, 8, 9, 10];
    var r2 := r1[3..];
    assert r2[..3] == [7, 8, 9] && r2[3..] == [10];
  }

  // ------------------------------------------------------------ the units

  /** `limited_task`: the unit's row of the image table, then its ensemble. */
  function UnitTask(ctx: Context, invoke: Invoker, table: ImageTable): int -> Result<UnitRun>
  {
    id => match Lookup(table, id)
          case None => Err(KeyError(id))
          case Some(images) => EnsembleRun(ctx, invoke, id, images)
  }

  method LimitedTask(ctx: Context, invoke: Invoker, table: ImageTable, unitId: int) returns (r: Result<UnitRun>)
    ensures r == UnitTask(ctx, invoke, table)(unitId)
  {
    var images := Lookup(table, unitId);
    if images.None? {
      return Err(KeyError(unitId));
    }
    r := RunWithReviewers(ctx, invoke, unitId, images.value);
  }

  function RecordsOf(runs: seq<UnitRun>): (rs: seq<Record>)
    ensures |rs| == |runs|
    ensures forall i :: 0 <= i < |runs| ==> rs[i] == runs[i].record
  {
    seq(|runs|, i requires 0 <= i < |runs| => runs[i].record)
  }

  function TotalCalls(runs: seq<UnitRun>): nat
  {
    if runs == [] then 0 else runs[0].calls + TotalCalls(runs[1..])
  }

  function UnitOf(row: Record): int
  {
    row.unitId
  }

  /** A batch run: its records in the order of the unit ids, the slices it
      gathered one after the other, and the model calls it made. */
  datatype BatchRun = BatchRun(records: seq<Record>, chunks: seq<seq<int>>, calls: nat)

  /** What `run_in_batch` returns, or the exception it raises. A unit that
      raises aborts the gather of its slice and the whole batch. */
  function BatchResult(ctx: Context, invoke: Invoker, table: ImageTable, unitIds: seq<int>, numWorkers: int)
    : Result<BatchRun>
  {
    if numWorkers < 0 then Err(SemaphoreError)
    else if numWorkers / 3 == 0 then Err(ZeroStepError)
    else match Traverse(unitIds, UnitTask(ctx, invoke, table))
      case Err(e) => Err(e)
      case Ok(runs) => Ok(BatchRun(RecordsOf(runs), Chunks(unitIds, numWorkers / 3), TotalCalls(runs)))
  }

  /** `asyncio.gather` over one slice: the units run in slice order and the
      results keep that order; the first unit that raises ends the gather
      with its exception, and the units after it are not run. */
  method Gather(ctx: Context, invoke: Invoker, table: ImageTable, batch: seq<int>)
    returns (r: Result<seq<UnitRun>>)
    ensures r == Traverse(batch, UnitTask(ctx, invoke, table))
  {
    ghost var f := UnitTask(ctx, invoke, table);
    var runs: seq<UnitRun> := [];
    var j := 0;
    assert batch[j..] == batch;
    ConsUnit(runs, Traverse(batch, f));
    while j < |batch|
      invariant 0 <= j <= |batch|
      invariant Traverse(batch, f) == Cons(runs, Traverse(batch[j..], f))
    {
      var run := LimitedTask(ctx, invoke, table, batch[j]);
      TraverseStep(batch, f, j, runs);
      if run.Err? {
        return Err(run.error);
      }
      runs := runs + [run.value];
      j := j + 1;
    }
    assert batch[j..] == [];
    ConsUnit(runs, Traverse(batch, f));
    r := Ok(runs);
  }

  /** The slice starting at `i` ends at `stop`: appending it to the slices
      taken so far leaves the slices of the remaining units to take. */
  lemma ChunksStep(ids: seq<int>, size: nat, i: nat, stop: nat, taken: seq<seq<int>>)
    requires size > 0 && i < |ids|
    requires stop == if i + size < |ids| then i + size else |ids|
    requires taken + Chunks(ids[i..], size) == Chunks(ids, size)
    ensures (taken + [ids[i..stop]]) + Chunks(ids[stop..], size) == Chunks(ids, size)
  {
    if i + size < |ids| {
      assert ids[i..][..size] == ids[i..stop];
      assert ids[i..][size..] == ids[stop..];
    } else {
      assert ids[i..] == ids[i..stop];
      assert ids[stop..] == [];
    }
    assert Chunks(ids[i..], size) == [ids[i..stop]] + Chunks(ids[stop..], size);
    assert taken + ([ids[i..stop]] + Chunks(ids[stop..], size))
        == (taken + [ids[i..stop]]) + Chunks(ids[stop..], size);
  }

  /** `run_in_batch`: slices of `num_workers // 3` units, each gathered to
      completion before the next, results appended in order. */
  method RunInBatch(ctx: Context, invoke: Invoker, table: ImageTable, unitIds: seq<int>, numWorkers: int)
    returns (r: Result<BatchRun>)
    ensures r == BatchResult(ctx, invoke, table, unitIds, numWorkers)
  {
    if numWorkers < 0 {
      return Err(SemaphoreError);
    }
    var batchSize := numWorkers / 3;
    if batchSize == 0 {
      return Err(ZeroStepError);
    }
    ghost var f := UnitTask(ctx, invoke, table);
    var results: seq<UnitRun> := [];
    var chunks: seq<seq<int>> := [];
    var i := 0;
    assert unitIds[i..] == unitIds;
    ConsUnit(results, Traverse(unitIds, f));
    while i < |unitIds|
      invariant 0 <= i <= |unitIds|
      invariant chunks + Chunks(unitIds[i..], batchSize) == Chunks(unitIds, batchSize)
      invariant Traverse(unitIds, f) == Cons(results, Traverse(unitIds[i..], f))
    {
      // the slice ends where the next step of the range starts, or at the end
      var stop := if i + batchSize < |unitIds| then i + batchSize else |unitIds|;
      var batch := unitIds[i..stop];
      ChunksStep(unitIds, batchSize, i, stop, chunks);
      TraverseSlice(unitIds, f, i, stop, results);
      var gathered := Gather(ctx, invoke, table, batch);
      if gathered.Err? {
        assert Traverse(unitIds, f) == Err(gathered.error);
        return Err(gathered.error);
      }
      results := results + gathered.value;
      chunks := chunks + [batch];
      i := stop;
    }
    assert unitIds[i..] == [];
    ConsUnit(results, Traverse(unitIds, f));
    assert Traverse(unitIds, f) == Ok(results);
    assert chunks == Chunks(unitIds, batchSize);
    r := Ok(BatchRun(RecordsOf(results), chunks, TotalCalls(results)));
  }

  /** A negative worker count is refused by the semaphore; fewer than three
      workers make a zero range step, whatever the units. */
  lemma WorkerCountErrors(ctx: Context, invoke: Invoker, table: ImageTable, unitIds: seq<int>, numWorkers: int)
    ensures numWorkers < 0 ==> BatchResult(ctx, invoke, table, unitIds, numWorkers) == Err(SemaphoreError)
    ensures 0 <= numWorkers < 3 ==> BatchResult(ctx, invoke, table, unitIds, numWorkers) == Err(ZeroStepError)
    ensures numWorkers >= 3 ==>
              (BatchResult(ctx, invoke, table, unitIds, numWorkers).Ok?
               <==> forall k :: 0 <= k < |unitIds| ==> UnitTask(ctx, invoke, table)(unitIds[k]).Ok?)
  {
    TraverseOk(unitIds, UnitTask(ctx, invoke, table));
  }

  lemma {:induction false} TotalCallsBounds(runs: seq<UnitRun>)
    requires forall i :: 0 <= i < |runs| ==> 3 <= runs[i].calls <= 3 * MaxRetries
    ensures 3 * |runs| <= TotalCalls(runs) <= 3 * MaxRetries * |runs|
  {
    if runs != [] {
      assert forall i :: 0 <= i < |runs| - 1 ==> runs[1..][i] == runs[i + 1];
      TotalCallsBounds(runs[1..]);
    }
  }

  /** Every unit yields exactly one record, in the order of the unit ids,
      made by that unit's ensemble, after 3 to 30 model calls per unit. */
  lemma BatchRecords(ctx: Context, invoke: Invoker, table: ImageTable, unitIds: seq<int>, numWorkers: int)
    ensures BatchResult(ctx, invoke, table, unitIds, numWorkers).Ok? ==>
      var b := BatchResult(ctx, invoke, table, unitIds, numWorkers).value;
      && |b.records| == |unitIds|
      && (forall k :: 0 <= k < |unitIds| ==>
            && UnitTask(ctx, invoke, table)(unitIds[k]).Ok?
            && b.records[k] == UnitTask(ctx, invoke, table)(unitIds[k]).value.record)
      && Map(b.records, UnitOf) == unitIds
      && 3 * |unitIds| <= b.calls <= 3 * MaxRetries * |unitIds|
  {
    if BatchResult(ctx, invoke, table, unitIds, numWorkers).Ok? {
      var f := UnitTask(ctx, invoke, table);
      TraverseOk(unitIds, f);
      var runs := Traverse(unitIds, f).value;
      forall k | 0 <= k < |unitIds|
        ensures runs[k].record.unitId == unitIds[k]
        ensures 3 <= runs[k].calls <= 3 * MaxRetries
      {
        var images := Lookup(table, unitIds[k]).value;
        EnsembleOutcome(ctx, invoke, unitIds[k], images);
      }
      TotalCallsBounds(runs);
    }
  }

  /** The slices cover the units in order, each of at most
      `num_workers // 3` units, so at most that many units (and
      `num_workers` reviewer calls) are in flight and the semaphore never
      makes a unit wait; only the last slice may be short. */
  lemma BatchSchedule(ctx: Context, invoke: Invoker, table: ImageTable, unitIds: seq<int>, numWorkers: int)
    ensures BatchResult(ctx, invoke, table, unitIds, numWorkers).Ok? ==>
      var b := BatchResult(ctx, invoke, table, unitIds, numWorkers).value;
      && Concat(b.chunks) == unitIds
      && (forall c :: c in b.chunks ==> 0 < |c| <= numWorkers / 3 && 3 * |c| <= numWorkers)
      && (forall i :: 0 <= i < |b.chunks| - 1 ==> |b.chunks[i]| == numWorkers / 3)
  {
    if BatchResult(ctx, invoke, table, unitIds, numWorkers).Ok? {
      ChunksCover(unitIds, numWorkers / 3);
      ChunksSizes(unitIds, numWorkers / 3);
    }
  }

  // ------------------------------------------------------- sort by unit id

  predicate SortedByUnit(rows: seq<Record>)
  {
    forall i, j :: 0 <= i < j < |rows| ==> rows[i].unitId <= rows[j].unitId
  }

  function Insert(row: Record, rows: seq<Record>): seq<Record>
  {
    if rows == [] || row.unitId <= rows[0].unitId then [row] + rows
    else [rows[0]] + Insert(row, rows[1..])
  }

  /** `sort_values(by="unit_ids", ascending=True)` (an insertion sort, which
      keeps rows with equal ids in input order). */
  function SortByUnit(rows: seq<Record>): seq<Record>
  {
    if rows == [] then [] else Insert(rows[0], SortByUnit(rows[1..]))
  }

  lemma {:induction false} InsertPermutes(row: Record, rows: seq<Record>)
    ensures multiset(Insert(row, rows)) == multiset(rows) + multiset{row}
  {
    if rows != [] && row.unitId > rows[0].unitId {
      InsertPermutes(row, rows[1..]);
      assert rows == [rows[0]] + rows[1..];
    }
  }

  /** Inserting puts the row first, or keeps the first row first. */
  lemma InsertFirst(row: Record, rows: seq<Record>)
    ensures |Insert(row, rows)| == |rows| + 1
    ensures Insert(row, rows)[0] == row || (rows != [] && Insert(row, rows)[0] == rows[0])
  {
  }

  lemma {:induction false} InsertSorted(row: Record, rows: seq<Record>)
    requires SortedByUnit(rows)
    ensures SortedByUnit(Insert(row, rows))
  {
    if rows != [] && row.unitId > rows[0].unitId {
      var tail := rows[1..];
      assert SortedByUnit(tail) by {
        forall i, j | 0 <= i < j < |tail| ensures tail[i].unitId <= tail[j].unitId {
          assert tail[i] == rows[i + 1] && tail[j] == rows[j + 1];
        }
      }
      InsertSorted(row, tail);
      InsertFirst(row, tail);
      var inserted := Insert(row, tail);
      assert inserted[0].unitId >= rows[0].unitId by {
        if tail != [] { assert tail[0] == rows[1]; }
      }
      assert Insert(row, rows) == [rows[0]] + inserted;
    }
  }

  /** The output rows are sorted ascending by unit id and are a permutation
      of the input rows. */
  lemma {:induction false} SortByUnitCorrect(rows: seq<Record>)
    ensures SortedByUnit(SortByUnit(rows))
    ensures multiset(SortByUnit(rows)) == multiset(rows)
  {
    if rows != [] {
      SortByUnitCorrect(rows[1..]);
      InsertSorted(rows[0], SortByUnit(rows[1..]));
      InsertPermutes(rows[0], SortByUnit(rows[1..]));
      assert rows == [rows[0]] + rows[1..];
    }
  }

  predicate DistinctUnits(rows: seq<Record>)
  {
    forall i, j :: 0 <= i < j < |rows| ==> rows[i].unitId != rows[j].unitId
  }

  /** In rows with distinct unit ids, no row occurs twice, and two rows
      carrying one id are the same row. */
  lemma {:induction false} DistinctRows(rows: seq<Record>)
    requires DistinctUnits(rows)
    ensures forall a :: multiset(rows)[a] <= 1
    ensures forall a, b :: a in rows && b in rows && a.unitId == b.unitId ==> a == b
  {
    forall a, b | a in rows && b in rows && a.unitId == b.unitId ensures a == b {
      var p :| 0 <= p < |rows| && rows[p] == a;
      var q :| 0 <= q < |rows| && rows[q] == b;
    }
    if rows != [] {
      var tail := rows[1..];
      assert DistinctUnits(tail) by {
        forall i, j | 0 <= i < j < |tail| ensures tail[i].unitId != tail[j].unitId {
          assert tail[i] == rows[i + 1] && tail[j] == rows[j + 1];
        }
      }
      DistinctRows(tail);
      assert rows == [rows[0]] + tail;
      assert forall k :: 0 <= k < |tail| ==> tail[k].unitId != rows[0].unitId by {
        forall k | 0 <= k < |tail| ensures tail[k].unitId != rows[0].unitId {
          assert tail[k] == rows[k + 1];
        }
      }
      assert rows[0] !in tail;
    }
  }

  /** A permutation of rows with distinct unit ids has distinct unit ids. */
  lemma DistinctPermutation(s: seq<Record>, rows: seq<Record>)
    requires multiset(s) == multiset(rows) && DistinctUnits(rows)
    ensures DistinctUnits(s)
  {
    DistinctRows(rows);
    forall i, j | 0 <= i < j < |s| ensures s[i].unitId != s[j].unitId {
      var a, b := s[i], s[j];
      assert s == s[..j] + s[j..];
      assert s[..j][i] == a && s[j..][0] == b;
      assert multiset(s)[a] >= multiset(s[..j])[a] >= 1;
      assert multiset(s)[b] >= multiset(s[j..])[b] >= 1;
      assert multiset(s) == multiset(s[..j]) + multiset(s[j..]);
    }
  }

  /** With distinct unit ids, the sorted rows are strictly ascending. */
  lemma SortByUnitStrict(rows: seq<Record>)
    requires DistinctUnits(rows)
    ensures forall i, j :: 0 <= i < j < |SortByUnit(rows)| ==> SortByUnit(rows)[i].unitId < SortByUnit(rows)[j].unitId
  {
    SortByUnitCorrect(rows);
    DistinctPermutation(SortByUnit(rows), rows);
  }

  // -------------------------------------------------------------- the run

  /** What `async_run` returns (the rows of the result table, by unit id),
      or the exception it raises. A frame built from no records has no
      `unit_ids` column to sort by. */
  function RunResult(invoke: Invoker, table: ImageTable, system: seq<Message>, goodIds: seq<int>,
                     badIds: seq<int>, metrics: Option<MetricsTable>, numWorkers: int): Result<seq<Record>>
  {
    if metrics.Some? && |metrics.value| != |table| then Err(AssertionError)
    else match FewshotMessages(table, goodIds, badIds)
      case Err(e) => Err(e)
      case Ok(fewshot) =>
        match BatchResult(Context(system, fewshot, metrics), invoke, table, UnitIds(table), numWorkers)
        case Err(e) => Err(e)
        case Ok(b) => if |b.records| == 0 then Err(MissingColumn(UnitColumn)) else Ok(SortByUnit(b.records))
  }

  /** `async_run`: checks the metrics table against the image table before
      anything else, builds the few-shot messages, runs every unit of the
      image table in batches and sorts the records by unit id. */
  method AsyncRun(invoke: Invoker, table: ImageTable, system: seq<Message>, goodIds: seq<int>,
                  badIds: seq<int>, metrics: Option<MetricsTable>, numWorkers: int)
    returns (r: Result<seq<Record>>)
    ensures metrics.Some? && |metrics.value| != |table| ==> r == Err(AssertionError)
    ensures r == RunResult(invoke, table, system, goodIds, badIds, metrics, numWorkers)
  {
    if metrics.Some? && |metrics.value| != |table| {
      return Err(AssertionError);
    }
    var fewshot := CreateFewshotMessages(table, goodIds, badIds);
    if fewshot.Err? {
      return Err(fewshot.error);
    }
    var unitIds := UnitIds(table);
    var batch := RunInBatch(Context(system, fewshot.value, metrics), invoke, table, unitIds, numWorkers);
    if batch.Err? {
      return Err(batch.error);
    }
    if |batch.value.records| == 0 {
      return Err(MissingColumn(UnitColumn));
    }
    r := Ok(SortByUnit(batch.value.records));
  }

  /** A mismatched metrics table fails the run whatever the model, the
      few-shot ids or the worker count: it is checked before any of them is
      used. */
  lemma MetricsMismatchFailsFirst(invoke: Invoker, invoke': Invoker, table: ImageTable, system: seq<Message>,
                                  goodIds: seq<int>, badIds: seq<int>, metrics: Option<MetricsTable>,
                                  numWorkers: int, numWorkers': int)
    requires metrics.Some? && |metrics.value| != |table|
    ensures RunResult(invoke, table, system, goodIds, badIds, metrics, numWorkers)
         == RunResult(invoke', table, system, [], [], metrics, numWorkers')
         == Err(AssertionError)
  {
  }

  /** Sorting records made one per unit id: one row per id, ascending, the
      same ids, and strictly ascending when the ids are distinct. */
  lemma SortRecords(records: seq<Record>, ids: seq<int>)
    requires Map(records, UnitOf) == ids
    ensures var rows := SortByUnit(records);
      && |rows| == |ids|
      && SortedByUnit(rows)
      && multiset(Map(rows, UnitOf)) == multiset(ids)
      && ((forall i, j :: 0 <= i < j < |ids| ==> ids[i] != ids[j]) ==>
            forall i, j :: 0 <= i < j < |rows| ==> rows[i].unitId < rows[j].unitId)
  {
    SortByUnitCorrect(records);
    var rows := SortByUnit(records);
    assert |rows| == |multiset(rows)| == |records|;
    MapPermutes(rows, records, UnitOf);
    if forall i, j :: 0 <= i < j < |ids| ==> ids[i] != ids[j] {
      assert DistinctUnits(records) by {
        forall i, j | 0 <= i < j < |records| ensures records[i].unitId != records[j].unitId {
          assert records[i].unitId == ids[i] && records[j].unitId == ids[j];
        }
      }
      SortByUnitStrict(records);
    }
  }

  /** A successful run has one row per row of the image table, sorted by
      unit id (strictly, when the ids are distinct); the rows carry exactly
      the image table's unit ids. */
  lemma RunRows(invoke: Invoker, table: ImageTable, system: seq<Message>, goodIds: seq<int>,
                badIds: seq<int>, metrics: Option<MetricsTable>, numWorkers: int)
    ensures RunResult(invoke, table, system, goodIds, badIds, metrics, numWorkers).Ok? ==>
      var rows := RunResult(invoke, table, system, goodIds, badIds, metrics, numWorkers).value;
      && |rows| == |table|
      && SortedByUnit(rows)
      && multiset(Map(rows, UnitOf)) == multiset(UnitIds(table))
      && ((forall i, j :: 0 <= i < j < |table| ==> table[i].unitId != table[j].unitId) ==>
            forall i, j :: 0 <= i < j < |rows| ==> rows[i].unitId < rows[j].unitId)
  {
    if RunResult(invoke, table, system, goodIds, badIds, metrics, numWorkers).Ok? {
      var fewshot := FewshotMessages(table, goodIds, badIds).value;
      var ctx := Context(system, fewshot, metrics);
      var ids := UnitIds(table);
      BatchRecords(ctx, invoke, table, ids, numWorkers);
      SortRecords(BatchResult(ctx, invoke, table, ids, numWorkers).value.records, ids);
    }
  }

  /** Every row of a successful run is the aggregated record of its own
      unit: the ensemble of the unit's images under the run's prompts. */
  lemma RunRowRecords(invoke: Invoker, table: ImageTable, system: seq<Message>, goodIds: seq<int>,
                      badIds: seq<int>, metrics: Option<MetricsTable>, numWorkers: int)
    ensures RunResult(invoke, table, system, goodIds, badIds, metrics, numWorkers).Ok? ==>
      var rows := RunResult(invoke, table, system, goodIds, badIds, metrics, numWorkers).value;
      var ctx := Context(system, FewshotMessages(table, goodIds, badIds).value, metrics);
      forall x :: x in rows ==>
        && Lookup(table, x.unitId).Some?
        && EnsembleRun(ctx, invoke, x.unitId, Lookup(table, x.unitId).value).Ok?
        && x == EnsembleRun(ctx, invoke, x.unitId, Lookup(table, x.unitId).value).value.record
  {
    if RunResult(invoke, table, system, goodIds, badIds, metrics, numWorkers).Ok? {
      var ctx := Context(system, FewshotMessages(table, goodIds, badIds).value, metrics);
      var ids := UnitIds(table);
      BatchRecords(ctx, invoke, table, ids, numWorkers);
      var records := BatchResult(ctx, invoke, table, ids, numWorkers).value.records;
      SortByUnitCorrect(records);
      var rows := SortByUnit(records);
      forall x | x in rows
        ensures Lookup(table, x.unitId).Some?
        ensures EnsembleRun(ctx, invoke, x.unitId, Lookup(table, x.unitId).value).Ok?
        ensures x == EnsembleRun(ctx, invoke, x.unitId, Lookup(table, x.unitId).value).value.record
      {
        assert x in multiset(records);
        var k :| 0 <= k < |records| && records[k] == x;
        assert Map(records, UnitOf)[k] == ids[k];
      }
    }
  }

  /** An empty image table, once the checks before it pass, fails at the
      sort: there is no `unit_ids` column. */
  lemma EmptyTableRaises(invoke: Invoker, system: seq<Message>, metrics: Option<MetricsTable>, numWorkers: int)
    requires numWorkers >= 3
    requires metrics.Some? ==> |metrics.value| == 0
    ensures RunResult(invoke, [], system, [], [], metrics, numWorkers) == Err(MissingColumn(UnitColumn))
  {
    var table: ImageTable := [];
    var none: seq<int> := [];
    var fewshot: seq<Message> := [];
    assert Section(table, GoodCaption, none) == Ok(fewshot);
    assert Section(table, BadCaption, none) == Ok(fewshot);
    assert fewshot + fewshot == fewshot;
    assert FewshotMessages(table, none, none) == Ok(fewshot);
    var ctx := Context(system, fewshot, metrics);
    assert UnitIds(table) == none;
    assert Traverse(none, UnitTask(ctx, invoke, table)) == Ok([]);
  }

  /** No unit is dropped for a reviewer's failures: for a non-empty image
      table, without a metrics table (or with one covering every unit), with
      few-shot ids drawn from the image table and at least three workers, the
      run succeeds whatever the model does. */
  lemma RunNeverDropsUnits(invoke: Invoker, table: ImageTable, system: seq<Message>, goodIds: seq<int>,
                           badIds: seq<int>, metrics: Option<MetricsTable>, numWorkers: int)
    requires |table| > 0 && numWorkers >= 3
    requires AllKnown(table, goodIds) && AllKnown(table, badIds)
    requires metrics.Some? ==>
               && |metrics.value| == |table|
               && forall k :: 0 <= k < |table| ==> Lookup(metrics.value, table[k].unitId).Some?
    ensures RunResult(invoke, table, system, goodIds, badIds, metrics, numWorkers).Ok?
  {
    FewshotShape(table, goodIds, badIds);
    var fewshot := FewshotMessages(table, goodIds, badIds).value;
    var ctx := Context(system, fewshot, metrics);
    var ids := UnitIds(table);
    var f := UnitTask(ctx, invoke, table);
    forall k | 0 <= k < |ids| ensures f(ids[k]).Ok? {
      var images := Lookup(table, ids[k]);
      assert table[k].unitId == ids[k];
      EnsembleOutcome(ctx, invoke, ids[k], images.value);
    }
    TraverseOk(ids, f);
    BatchRecords(ctx, invoke, table, ids, numWorkers);
  }
}
