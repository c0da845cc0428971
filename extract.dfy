/**
 * The staging extractor (scripts/extract.py). A run truncates the three
 * staging tables in one transaction, then appends the batches of train.csv
 * and test.csv to `sales_staging`, of features.csv to `features_staging`
 * and the whole of stores.csv to `stores_staging`, logging as it goes.
 *
 * The specification is a trace: the appends a run performs, the log lines
 * it writes and the error that ends it. The trace depends only on the raw
 * files and on how the database answers, never on what the staging tables
 * held before; the staging store after a run is the truncated store with
 * the trace's appends applied. The class `Extractor` runs the same steps
 * imperatively and is proved to produce exactly that store and log.
 */
module Extract {
  import opened Wrappers
  import opened Text
  import opened Frames
  import opened Seqs

  // ---------- raw files and how reading them can fail ----------

  /** Where, if anywhere, fetching the next batch from `pd.read_csv(path, chunksize=...)` raises. */
  datatype ReadFault =
    | NoFault
    | ValueErrorAt(at: nat)
    | OtherErrorAt(at: nat, reason: string)

  /** The outcome of reading a whole file at once with `pd.read_csv(path)`. */
  datatype ReadResult = Read(frame: Frame) | Unreadable(reason: string)

  /** A raw CSV file: its batches when read in chunks, where chunked reading fails, and a whole read. */
  datatype CsvFile = CsvFile(batches: seq<Frame>, fault: ReadFault, whole: ReadResult)

  /** The four raw files; `None` is a file that does not exist. */
  datatype Sources = Sources(train: Option<CsvFile>, test: Option<CsvFile>, features: Option<CsvFile>, stores: Option<CsvFile>)

  /**
   * How the staging database answers: whether the truncate transaction
   * raises, and which appends (`to_sql(..., if_exists="append")`) it rejects,
   * e.g. for a column the table does not have.
   */
  datatype StagingFaults = StagingFaults(truncate: Option<string>, rejects: (string, Frame) -> Option<string>)

  datatype Source = Train | Test | Features | Stores

  function FileName(src: Source): string {
    match src
    case Train => "train.csv"
    case Test => "test.csv"
    case Features => "features.csv"
    case Stores => "stores.csv"
  }

  const SalesStaging := "sales_staging"
  const FeaturesStaging := "features_staging"
  const StoresStaging := "stores_staging"
  const StagingTables: set<string> := {SalesStaging, FeaturesStaging, StoresStaging}

  /** The staging table a source is appended to: train and test share `sales_staging`. */
  function Table(src: Source): (t: string)
    ensures t in StagingTables
  {
    match src
    case Train => SalesStaging
    case Test => SalesStaging
    case Features => FeaturesStaging
    case Stores => StoresStaging
  }

  function Path(rawDir: string, src: Source): string {
    rawDir + "/" + FileName(src)
  }

  function FileOf(sources: Sources, src: Source): Option<CsvFile> {
    match src
    case Train => sources.train
    case Test => sources.test
    case Features => sources.features
    case Stores => sources.stores
  }

  // ---------- column handling ----------

  /** `normalize_columns(df)`: every label stripped of surrounding whitespace. */
  function NormalizeColumns(f: Frame): (r: Frame)
    ensures r.rows == f.rows && |r.columns| == |f.columns|
    ensures forall i :: 0 <= i < |r.columns| ==> r.columns[i] == Strip(f.columns[i])
  {
    MapColumns(f, Strip)
  }

  const TrainRenames: map<string, string> := map[
    "Store" := "store",
    "Dept" := "dept",
    "Date" := "sale_date_raw",
    "Weekly_Sales" := "weekly_sales",
    "IsHoliday" := "is_holiday"
  ]

  const TestRenames: map<string, string> := map[
    "Store" := "store",
    "Dept" := "dept",
    "Date" := "sale_date_raw",
    "IsHoliday" := "is_holiday"
  ]

  const FeatureRenames: map<string, string> := map[
    "Store" := "store",
    "Date" := "feature_date_raw",
    "Temperature" := "temperature",
    "Fuel_Price" := "fuel_price",
    "MarkDown1" := "markdown1",
    "MarkDown2" := "markdown2",
    "MarkDown3" := "markdown3",
    "MarkDown4" := "markdown4",
    "MarkDown5" := "markdown5",
    "CPI" := "cpi",
    "Unemployment" := "unemployment",
    "IsHoliday" := "is_holiday"
  ]

  const StoreRenames: map<string, string> := map[
    "Store" := "store",
    "Type" := "store_type",
    "Size" := "size"
  ]

  function Renames(src: Source): map<string, string> {
    match src
    case Train => TrainRenames
    case Test => TestRenames
    case Features => FeatureRenames
    case Stores => StoreRenames
  }

  /**
   * A batch as it is appended: labels stripped and renamed; a test batch
   * without `weekly_sales` gets that column, holding nulls.
   */
  function Prepare(src: Source, batch: Frame): (r: Frame)
    ensures |r.rows| == |batch.rows|
  {
    var renamed := Rename(NormalizeColumns(batch), Renames(src));
    if src == Test && "weekly_sales" !in renamed.columns then AddNullColumn(renamed, "weekly_sales") else renamed
  }

  // ---------- the chunked reader ----------

  function Min(a: nat, b: nat): nat { if a <= b then a else b }

  /** What `read_csv_chunked(path)` yields, what it logs after the last batch, and what escapes from it. */
  datatype Chunks = Chunks(yielded: seq<Frame>, logged: Option<string>, raised: Option<string>)

  function ReadErrorMsg(path: string, reason: string): string {
    "ERROR reading CSV " + path + ": " + reason
  }

  /**
   * `read_csv_chunked(path)`: the batches before the failing fetch; on a
   * ValueError the whole file read at once follows them (or its error
   * escapes); on any other error the failure is logged and the generator
   * just ends.
   */
  function ReadChunked(path: string, f: CsvFile): Chunks {
    match f.fault
    case NoFault => Chunks(f.batches, None, None)
    case ValueErrorAt(k) =>
      var before := f.batches[..Min(k, |f.batches|)];
      (match f.whole
       case Read(w) => Chunks(before + [w], None, None)
       case Unreadable(e) => Chunks(before, None, Some(e)))
    case OtherErrorAt(k, e) => Chunks(f.batches[..Min(k, |f.batches|)], Some(ReadErrorMsg(path, e)), None)
  }

  // ---------- log lines ----------

  const Started := "==== EXTRACT STEP STARTED ===="
  const Completed := "==== EXTRACT STEP COMPLETED ===="
  const Truncating := "Truncating staging tables " + "before load (idempotent run)..."
  const Truncated := "Staging tables truncated."

  function WarningMsg(path: string): string {
    "WARNING: expected file missing: " + path
  }

  function LoadedMsg(src: Source, n: nat): string {
    "Loaded " + FileName(src) + " -> " + Table(src) + " (" + NatToString(n) + " rows)"
  }

  function DbErrorMsg(reason: string): string {
    "DB Load Error: " + reason
  }

  // ---------- the trace of a run ----------

  datatype Append = Append(table: string, batch: Frame)

  /** The appends performed, the lines logged and the error that ended a stretch of the run. */
  datatype Trace = Trace(appends: seq<Append>, log: seq<string>, error: Option<string>)

  const Empty := Trace([], [], None)

  /** Runs `b` after `a`, unless `a` raised. */
  function Then(a: Trace, b: Trace): (t: Trace)
    ensures t.error.None? <==> a.error.None? && b.error.None?
  {
    if a.error.Some? then a else Trace(a.appends + b.appends, a.log + b.log, b.error)
  }

  /** Appending prepared batches of `src` in order until the database rejects one. */
  function AppendAll(src: Source, batches: seq<Frame>, rejects: (string, Frame) -> Option<string>): (t: Trace)
    ensures t.log == []
    ensures |t.appends| <= |batches|
    ensures t.error.None? ==> |t.appends| == |batches|
  {
    if batches == [] then Empty
    else
      var t := AppendAll(src, batches[..|batches| - 1], rejects);
      var b := Prepare(src, batches[|batches| - 1]);
      if t.error.Some? then t
      else match rejects(Table(src), b)
        case Some(e) => Trace(t.appends, [], Some(e))
        case None => Trace(t.appends + [Append(Table(src), b)], [], None)
  }

  /** Every append the loop makes goes to the source's own staging table. */
  lemma {:induction false} AppendAllTables(src: Source, batches: seq<Frame>, rejects: (string, Frame) -> Option<string>)
    ensures forall a :: a in AppendAll(src, batches, rejects).appends ==> a.table == Table(src)
    decreases |batches|
  {
    if batches != [] {
      AppendAllTables(src, batches[..|batches| - 1], rejects);
    }
  }

  /** The batches a chunked source yields; none when the file is missing. */
  function Yielded(rawDir: string, src: Source, file: Option<CsvFile>): seq<Frame> {
    if file.None? then [] else ReadChunked(Path(rawDir, src), file.value).yielded
  }

  /** One `if os.path.exists(...): for chunk in read_csv_chunked(...)` block of `main`. */
  function ChunkedTrace(rawDir: string, src: Source, file: Option<CsvFile>, rejects: (string, Frame) -> Option<string>): Trace {
    if file.None? then Empty
    else
      var c := ReadChunked(Path(rawDir, src), file.value);
      var t := AppendAll(src, c.yielded, rejects);
      if t.error.Some? then t
      else
        var logged := if c.logged.Some? then [c.logged.value] else [];
        match c.raised
        case Some(e) => Trace(t.appends, logged, Some(e))
        case None => Trace(t.appends, logged + [LoadedMsg(src, TotalRows(c.yielded))], None)
  }

  /** The stores block of `main`: stores.csv is read whole and appended as one batch. */
  function StoresTrace(file: Option<CsvFile>, rejects: (string, Frame) -> Option<string>): Trace {
    if file.None? then Empty
    else match file.value.whole
      case Unreadable(e) => Trace([], [], Some(e))
      case Read(w) =>
        var b := Prepare(Stores, w);
        match rejects(StoresStaging, b)
        case Some(e) => Trace([], [], Some(e))
        case None => Trace([Append(StoresStaging, b)], [LoadedMsg(Stores, |w.rows|)], None)
  }

  /** The order in which `main` checks that the raw files exist. */
  const WarnOrder: seq<Source> := [Train, Features, Stores, Test]

  function Warnings(rawDir: string, sources: Sources, order: seq<Source>): seq<string> {
    if order == [] then []
    else
      var src := order[|order| - 1];
      Warnings(rawDir, sources, order[..|order| - 1])
        + (if FileOf(sources, src).None? then [WarningMsg(Path(rawDir, src))] else [])
  }

  /** The part of `main` inside `try`, after truncation succeeded. */
  function LoadTrace(rawDir: string, sources: Sources, rejects: (string, Frame) -> Option<string>): Trace {
    var t1 := ChunkedTrace(rawDir, Train, sources.train, rejects);
    var t2 := Then(t1, ChunkedTrace(rawDir, Test, sources.test, rejects));
    var t3 := Then(t2, ChunkedTrace(rawDir, Features, sources.features, rejects));
    Then(t3, StoresTrace(sources.stores, rejects))
  }

  /** Truncation followed, if it succeeded, by the load blocks. */
  function BodyTrace(rawDir: string, sources: Sources, faults: StagingFaults): Trace {
    if faults.truncate.Some? then Trace([], [], faults.truncate)
    else Then(Trace([], [Truncated], None), LoadTrace(rawDir, sources, faults.rejects))
  }

  /** `main()` of the extractor, as a trace. */
  function ExtractTrace(rawDir: string, sources: Sources, faults: StagingFaults): Trace {
    var head := [Started] + Warnings(rawDir, sources, WarnOrder) + [Truncating];
    var body := BodyTrace(rawDir, sources, faults);
    Trace(body.appends, head + body.log + [if body.error.Some? then DbErrorMsg(body.error.value) else Completed], body.error)
  }

  // ---------- the staging store ----------

  type Store = map<string, seq<Record>>

  function Get(s: Store, table: string): seq<Record> {
    if table in s then s[table] else []
  }

  /** `TRUNCATE TABLE` on the three staging tables. */
  function Truncate(s: Store): (r: Store)
    ensures r.Keys == s.Keys + StagingTables
    ensures forall t :: t in StagingTables ==> r[t] == []
    ensures forall t :: t in s && t !in StagingTables ==> r[t] == s[t]
  {
    s[SalesStaging := []][FeaturesStaging := []][StoresStaging := []]
  }

  /** One append: the batch's records go after the table's current rows. */
  function AppendRecords(s: Store, a: Append): Store {
    s[a.table := Get(s, a.table) + ToRecords(a.batch)]
  }

  function Apply(s: Store, appends: seq<Append>): Store {
    if appends == [] then s else AppendRecords(Apply(s, appends[..|appends| - 1]), appends[|appends| - 1])
  }

  /** The staging store after `main()`: untouched if truncation failed, else truncated and appended to. */
  function StagingAfter(s: Store, rawDir: string, sources: Sources, faults: StagingFaults): Store {
    if faults.truncate.Some? then s else Apply(Truncate(s), ExtractTrace(rawDir, sources, faults).appends)
  }

  // ---------- the extractor, imperatively ----------

  class Extractor {
    var staging: Store
    var log: seq<string>
    const rawDir: string

    constructor (rawDir: string, staging: Store, log: seq<string>)
      ensures this.rawDir == rawDir && this.staging == staging && this.log == log
    {
      this.rawDir := rawDir;
      this.staging := staging;
      this.log := log;
    }

    /** `log(msg)`: one line appended to the log file. */
    method Log(msg: string)
      modifies this
      ensures log == old(log) + [msg] && staging == old(staging)
    {
      log := log + [msg];
    }

    /** `truncate_staging(engine)`: all three tables emptied in one transaction, or none. */
    method TruncateStaging(fault: Option<string>) returns (err: Option<string>)
      modifies this
      ensures err == fault
      ensures fault.Some? ==> staging == old(staging) && log == old(log) + [Truncating]
      ensures fault.None? ==> staging == Truncate(old(staging)) && log == old(log) + [Truncating, Truncated]
    {
      Log(Truncating);
      if fault.Some? {
        return fault;
      }
      staging := Truncate(staging);
      Log(Truncated);
      err := None;
    }

    /** `chunk.to_sql(table, engine, if_exists="append")` */
    method AppendBatch(table: string, batch: Frame, rejects: (string, Frame) -> Option<string>) returns (err: Option<string>)
      modifies this
      ensures err == rejects(table, batch) && log == old(log)
      ensures staging == if err.None? then AppendRecords(old(staging), Append(table, batch)) else old(staging)
    {
      err := rejects(table, batch);
      if err.None? {
        staging := staging[table := Get(staging, table) + ToRecords(batch)];
      }
    }

    /** The `for chunk in ...` loop: prepare and append each batch, counting the rows appended. */
    method AppendChunks(src: Source, batches: seq<Frame>, rejects: (string, Frame) -> Option<string>) returns (err: Option<string>, total: nat)
      modifies this
      ensures var t := AppendAll(src, batches, rejects);
        staging == Apply(old(staging), t.appends) && log == old(log) && err == t.error
      ensures err.None? ==> total == TotalRows(batches)
    {
      total := 0;
      var i := 0;
      ghost var s0 := staging;
      ghost var done := Empty;
      while i < |batches|
        invariant 0 <= i <= |batches|
        invariant total == TotalRows(batches[..i])
        invariant done == AppendAll(src, batches[..i], rejects) && done.error.None?
        invariant staging == Apply(s0, done.appends)
        invariant log == old(log)
      {
        var chunk := Prepare(src, batches[i]);
        err := AppendBatch(Table(src), chunk, rejects);
        if err.Some? {
          AppendAllRejected(src, batches, rejects, i);
          return;
        }
        AppendAllAccepted(s0, src, batches, rejects, i);
        total := total + |chunk.rows|;
        i := i + 1;
        done := AppendAll(src, batches[..i], rejects);
      }
      assert batches[..i] == batches;
      err := None;
    }

    /** One chunked block of `main`: append every batch the reader yields, then log the total. */
    method LoadChunked(src: Source, file: Option<CsvFile>, rejects: (string, Frame) -> Option<string>) returns (err: Option<string>)
      modifies this
      ensures var t := ChunkedTrace(rawDir, src, file, rejects);
        staging == Apply(old(staging), t.appends) && log == old(log) + t.log && err == t.error
    {
      if file.None? {
        return None;
      }
      var chunks := ReadChunked(Path(rawDir, src), file.value);
      var total;
      err, total := AppendChunks(src, chunks.yielded, rejects);
      if err.Some? {
        return;
      }
      if chunks.logged.Some? {
        Log(chunks.logged.value);
      }
      if chunks.raised.Some? {
        return chunks.raised;
      }
      Log(LoadedMsg(src, total));
    }

    /** The stores block of `main`: read whole, normalise, rename, append once. */
    method LoadStores(file: Option<CsvFile>, rejects: (string, Frame) -> Option<string>) returns (err: Option<string>)
      modifies this
      ensures var t := StoresTrace(file, rejects);
        staging == Apply(old(staging), t.appends) && log == old(log) + t.log && err == t.error
    {
      if file.None? {
        return None;
      }
      match file.value.whole
      case Unreadable(e) =>
        return Some(e);
      case Read(w) =>
        var storesDf := Prepare(Stores, w);
        err := AppendBatch(StoresStaging, storesDf, rejects);
        if err.None? {
          assert [Append(StoresStaging, storesDf)][..0] == [];
          Log(LoadedMsg(Stores, |storesDf.rows|));
        }
    }

    /** The existence checks at the start of `main`: one warning per missing file. */
    method WarnMissing(sources: Sources)
      modifies this
      ensures log == old(log) + Warnings(rawDir, sources, WarnOrder) && staging == old(staging)
    {
      var i := 0;
      while i < |WarnOrder|
        invariant 0 <= i <= |WarnOrder|
        invariant log == old(log) + Warnings(rawDir, sources, WarnOrder[..i])
        invariant staging == old(staging)
      {
        assert WarnOrder[..i + 1][..i] == WarnOrder[..i];
        if FileOf(sources, WarnOrder[i]).None? {
          Log(WarningMsg(Path(rawDir, WarnOrder[i])));
        }
        i := i + 1;
      }
      assert WarnOrder[..i] == WarnOrder;
    }

    /** The four load blocks of `main`, in order; the first error skips the rest. */
    method LoadAll(sources: Sources, rejects: (string, Frame) -> Option<string>) returns (err: Option<string>)
      modifies this
      ensures var t := LoadTrace(rawDir, sources, rejects);
        staging == Apply(old(staging), t.appends) && log == old(log) + t.log && err == t.error
    {
      ghost var s0, log0 := staging, log;
      ghost var t := ChunkedTrace(rawDir, Train, sources.train, rejects);
      err := LoadChunked(Train, sources.train, rejects);
      ghost var c := ChunkedTrace(rawDir, Test, sources.test, rejects);
      if err.None? {
        err := LoadChunked(Test, sources.test, rejects);
        ThenStep(s0, log0, t, c);
      }
      t := Then(t, c);
      c := ChunkedTrace(rawDir, Features, sources.features, rejects);
      if err.None? {
        err := LoadChunked(Features, sources.features, rejects);
        ThenStep(s0, log0, t, c);
      }
      t := Then(t, c);
      c := StoresTrace(sources.stores, rejects);
      if err.None? {
        err := LoadStores(sources.stores, rejects);
        ThenStep(s0, log0, t, c);
      }
      t := Then(t, c);
    }

    /** The `try` block of `main`: truncate, then run the load blocks. */
    method TruncateAndLoad(sources: Sources, faults: StagingFaults) returns (err: Option<string>)
      modifies this
      ensures var body := BodyTrace(rawDir, sources, faults);
        log == old(log) + [Truncating] + body.log && err == body.error
      ensures staging == if faults.truncate.Some? then old(staging)
        else Apply(Truncate(old(staging)), BodyTrace(rawDir, sources, faults).appends)
    {
      ghost var truncated := Trace([], [Truncated], None);
      err := TruncateStaging(faults.truncate);
      if err.None? {
        ghost var load := LoadTrace(rawDir, sources, faults.rejects);
        assert log == old(log) + [Truncating] + [Truncated];
        err := LoadAll(sources, faults.rejects);
        ThenStep(staging, old(log) + [Truncating], truncated, load);
        ThenStep(Truncate(old(staging)), old(log) + [Truncating], truncated, load);
      }
    }

    /** `main()` of the extractor. */
    method Run(sources: Sources, faults: StagingFaults) returns (err: Option<string>)
      modifies this
      ensures staging == StagingAfter(old(staging), rawDir, sources, faults)
      ensures log == old(log) + ExtractTrace(rawDir, sources, faults).log
      ensures err == ExtractTrace(rawDir, sources, faults).error
    {
      Log(Started);
      WarnMissing(sources);
      ghost var warnings := Warnings(rawDir, sources, WarnOrder);
      ghost var head := [Started] + warnings + [Truncating];
      ghost var body := BodyTrace(rawDir, sources, faults);
      ghost var warned := log;
      err := TruncateAndLoad(sources, faults);
      assert log == warned + [Truncating] + body.log;
      Regroup(old(log), Started, warnings, Truncating, body.log);
      var last := if err.Some? then DbErrorMsg(err.value) else Completed;
      Log(last);
      assert ExtractTrace(rawDir, sources, faults).log == head + body.log + [last];
      Associate(old(log), head, body.log);
      Associate(old(log), head + body.log, [last]);
    }
  }

  // ---------- lemmas the imperative proof uses ----------

  lemma ApplySnoc(s: Store, a: seq<Append>, x: Append)
    ensures Apply(s, a + [x]) == AppendRecords(Apply(s, a), x)
  {
    assert (a + [x])[..|a + [x]| - 1] == a;
  }

  /** A rejected batch ends the appends with the database's error. */
  lemma AppendAllRejected(src: Source, batches: seq<Frame>, rejects: (string, Frame) -> Option<string>, i: nat)
    requires i < |batches| && AppendAll(src, batches[..i], rejects).error.None?
    requires rejects(Table(src), Prepare(src, batches[i])).Some?
    ensures var t := AppendAll(src, batches, rejects);
      t.appends == AppendAll(src, batches[..i], rejects).appends
      && t.error == rejects(Table(src), Prepare(src, batches[i])) && t.log == []
  {
    assert batches[..i + 1][..i] == batches[..i];
    AppendAllStops(src, batches, rejects, i + 1);
  }

  /** An accepted batch extends both the appends and the staging store by that batch. */
  lemma AppendAllAccepted(s0: Store, src: Source, batches: seq<Frame>, rejects: (string, Frame) -> Option<string>, i: nat)
    requires i < |batches| && AppendAll(src, batches[..i], rejects).error.None?
    requires rejects(Table(src), Prepare(src, batches[i])).None?
    ensures AppendAll(src, batches[..i + 1], rejects).error.None?
    ensures Apply(s0, AppendAll(src, batches[..i + 1], rejects).appends)
      == AppendRecords(Apply(s0, AppendAll(src, batches[..i], rejects).appends), Append(Table(src), Prepare(src, batches[i])))
    ensures TotalRows(batches[..i + 1]) == TotalRows(batches[..i]) + |Prepare(src, batches[i]).rows|
  {
    assert batches[..i + 1][..i] == batches[..i];
    ApplySnoc(s0, AppendAll(src, batches[..i], rejects).appends, Append(Table(src), Prepare(src, batches[i])));
  }

  lemma {:induction false} ApplyConcat(s: Store, a: seq<Append>, b: seq<Append>)
    ensures Apply(s, a + b) == Apply(Apply(s, a), b)
  {
    if b == [] {
      assert a + b == a;
    } else {
      assert (a + b)[..|a + b| - 1] == a + b[..|b| - 1];
      ApplyConcat(s, a, b[..|b| - 1]);
    }
  }

  lemma Regroup<T>(a: seq<T>, x: T, w: seq<T>, y: T, b: seq<T>)
    ensures a + [x] + w + [y] + b == a + ([x] + w + [y]) + b
  {
  }

  /** Sequencing is what the imperative `if err.None?` guards do. */
  lemma ThenStep(s: Store, log: seq<string>, a: Trace, b: Trace)
    ensures a.error.None? ==> Apply(s, Then(a, b).appends) == Apply(Apply(s, a.appends), b.appends)
    ensures a.error.None? ==> log + Then(a, b).log == (log + a.log) + b.log
  {
    if a.error.None? {
      ApplyConcat(s, a.appends, b.appends);
    }
  }

  /** Once an append is rejected, later batches change nothing. */
  lemma {:induction false} AppendAllStops(src: Source, batches: seq<Frame>, rejects: (string, Frame) -> Option<string>, n: nat)
    requires n <= |batches| && AppendAll(src, batches[..n], rejects).error.Some?
    ensures AppendAll(src, batches, rejects) == AppendAll(src, batches[..n], rejects)
  {
    if n < |batches| {
      assert batches[..|batches| - 1][..n] == batches[..n];
      AppendAllStops(src, batches[..|batches| - 1], rejects, n);
      assert batches[..|batches|] == batches;
    } else {
      assert batches[..n] == batches;
    }
  }
}
