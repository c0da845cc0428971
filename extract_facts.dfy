/**
 * What a run of the staging extractor guarantees, stated over the trace
 * specification of module Extract: idempotence, tables it never touches,
 * the exact staged contents and row counts, the log lines that report
 * missing files and completion, and the two ways a failing read changes
 * what is staged.
 */
module ExtractFacts {
  import opened Wrappers
  import opened Text
  import opened Frames
  import opened Extract
  import Transform

  // ---------- tables outside staging ----------

  predicate OnlyStaging(appends: seq<Append>) {
    forall a :: a in appends ==> a.table in StagingTables
  }

  /** Two stores that differ at most in the three staging tables. */
  ghost predicate SameOutsideStaging(s1: Store, s2: Store) {
    forall t :: t !in StagingTables ==> (t in s1 <==> t in s2) && (t in s1 ==> s1[t] == s2[t])
  }

  lemma {:induction false} ApplyOnlyTouchesStaging(s: Store, appends: seq<Append>)
    requires OnlyStaging(appends)
    ensures SameOutsideStaging(s, Apply(s, appends))
  {
    if appends != [] {
      var init := appends[..|appends| - 1];
      assert appends[|appends| - 1] in appends;
      assert OnlyStaging(init) by {
        forall a | a in init ensures a.table in StagingTables {
          assert a in appends;
        }
      }
      ApplyOnlyTouchesStaging(s, init);
    }
  }

  lemma ThenOnlyStaging(a: Trace, b: Trace)
    requires OnlyStaging(a.appends) && OnlyStaging(b.appends)
    ensures OnlyStaging(Then(a, b).appends)
  {
  }

  lemma ChunkedOnlyStaging(rawDir: string, src: Source, file: Option<CsvFile>, rejects: (string, Frame) -> Option<string>)
    ensures OnlyStaging(ChunkedTrace(rawDir, src, file, rejects).appends)
  {
    if file.Some? {
      var c := ReadChunked(Path(rawDir, src), file.value);
      AppendAllTables(src, c.yielded, rejects);
    }
  }

  /** Every append of a run goes to one of the three staging tables. */
  lemma TraceOnlyStaging(rawDir: string, sources: Sources, faults: StagingFaults)
    ensures OnlyStaging(ExtractTrace(rawDir, sources, faults).appends)
  {
    if faults.truncate.None? {
      var rejects := faults.rejects;
      var c1 := ChunkedTrace(rawDir, Train, sources.train, rejects);
      var c2 := ChunkedTrace(rawDir, Test, sources.test, rejects);
      var c3 := ChunkedTrace(rawDir, Features, sources.features, rejects);
      var c4 := StoresTrace(sources.stores, rejects);
      ChunkedOnlyStaging(rawDir, Train, sources.train, rejects);
      ChunkedOnlyStaging(rawDir, Test, sources.test, rejects);
      ChunkedOnlyStaging(rawDir, Features, sources.features, rejects);
      ThenOnlyStaging(c1, c2);
      ThenOnlyStaging(Then(c1, c2), c3);
      ThenOnlyStaging(Then(Then(c1, c2), c3), c4);
      ThenOnlyStaging(Trace([], [Truncated], None), LoadTrace(rawDir, sources, rejects));
    }
  }

  /** A run changes no table other than the three staging tables. */
  lemma ExtractLeavesOtherTables(s: Store, rawDir: string, sources: Sources, faults: StagingFaults)
    ensures SameOutsideStaging(s, StagingAfter(s, rawDir, sources, faults))
  {
    if faults.truncate.None? {
      TraceOnlyStaging(rawDir, sources, faults);
      ApplyOnlyTouchesStaging(Truncate(s), ExtractTrace(rawDir, sources, faults).appends);
    }
  }

  /**
   * Once truncation succeeds, what was staged before does not matter: two
   * stores that agree outside staging end the run identical.
   */
  lemma ExtractForgetsStaging(s1: Store, s2: Store, rawDir: string, sources: Sources, faults: StagingFaults)
    requires faults.truncate.None? && SameOutsideStaging(s1, s2)
    ensures StagingAfter(s1, rawDir, sources, faults) == StagingAfter(s2, rawDir, sources, faults)
  {
    TruncateForgets(s1, s2);
  }

  /** Truncation erases the only difference two such stores have. */
  lemma TruncateForgets(s1: Store, s2: Store)
    requires SameOutsideStaging(s1, s2)
    ensures Truncate(s1) == Truncate(s2)
  {
    var t1, t2 := Truncate(s1), Truncate(s2);
    assert t1.Keys == t2.Keys;
    forall t | t in t1.Keys ensures t1[t] == t2[t] {
      if t !in StagingTables {
        assert t in s1;
      }
    }
    assert t1 == t2;
  }

  /** Running the extractor twice on unchanged files stages exactly what one run does: no duplicated rows. */
  lemma ExtractIdempotent(s: Store, rawDir: string, sources: Sources, faults: StagingFaults)
    ensures var once := StagingAfter(s, rawDir, sources, faults);
      StagingAfter(once, rawDir, sources, faults) == once
  {
    if faults.truncate.None? {
      var once := StagingAfter(s, rawDir, sources, faults);
      ExtractLeavesOtherTables(s, rawDir, sources, faults);
      ExtractForgetsStaging(s, once, rawDir, sources, faults);
    }
  }

  // ---------- staged contents ----------

  /** The records the appends in `appends` add to `table`, in order. */
  function RecordsFor(appends: seq<Append>, table: string): seq<Record> {
    if appends == [] then []
    else
      var a := appends[|appends| - 1];
      RecordsFor(appends[..|appends| - 1], table) + (if a.table == table then ToRecords(a.batch) else [])
  }

  /** The records of `batches` as `src` prepares them, in order. */
  function PreparedRecords(src: Source, batches: seq<Frame>): seq<Record> {
    if batches == [] then []
    else PreparedRecords(src, batches[..|batches| - 1]) + ToRecords(Prepare(src, batches[|batches| - 1]))
  }

  lemma {:induction false} PreparedRecordsCount(src: Source, batches: seq<Frame>)
    ensures |PreparedRecords(src, batches)| == TotalRows(batches)
  {
    if batches != [] {
      PreparedRecordsCount(src, batches[..|batches| - 1]);
    }
  }

  lemma {:induction false} GetApply(s: Store, appends: seq<Append>, table: string)
    ensures Get(Apply(s, appends), table) == Get(s, table) + RecordsFor(appends, table)
  {
    if appends != [] {
      GetApply(s, appends[..|appends| - 1], table);
    }
  }

  lemma {:induction false} RecordsForConcat(a: seq<Append>, b: seq<Append>, table: string)
    ensures RecordsFor(a + b, table) == RecordsFor(a, table) + RecordsFor(b, table)
  {
    if b == [] {
      assert a + b == a;
    } else {
      assert (a + b)[..|a + b| - 1] == a + b[..|b| - 1];
      RecordsForConcat(a, b[..|b| - 1], table);
    }
  }

  lemma {:induction false} AppendAllRecords(src: Source, batches: seq<Frame>, rejects: (string, Frame) -> Option<string>, table: string)
    requires AppendAll(src, batches, rejects).error.None?
    ensures RecordsFor(AppendAll(src, batches, rejects).appends, table)
      == if table == Table(src) then PreparedRecords(src, batches) else []
  {
    if batches != [] {
      var init := batches[..|batches| - 1];
      AppendAllRecords(src, init, rejects, table);
      var t := AppendAll(src, init, rejects);
      var b := Prepare(src, batches[|batches| - 1]);
      assert AppendAll(src, batches, rejects).appends == t.appends + [Append(Table(src), b)];
      assert (t.appends + [Append(Table(src), b)])[..|t.appends|] == t.appends;
    }
  }

  /** The batches a source contributes: the chunked reader's, or the one stores.csv frame. */
  function Staged(rawDir: string, sources: Sources, src: Source): seq<Frame> {
    if src == Stores then
      (if sources.stores.Some? && sources.stores.value.whole.Read? then [sources.stores.value.whole.frame] else [])
    else Yielded(rawDir, src, FileOf(sources, src))
  }

  /** What one load block adds to `table`, when it completes. */
  lemma BlockRecords(rawDir: string, sources: Sources, src: Source, rejects: (string, Frame) -> Option<string>, table: string)
    requires var b := if src == Stores then StoresTrace(sources.stores, rejects) else ChunkedTrace(rawDir, src, FileOf(sources, src), rejects);
      b.error.None?
    ensures var b := if src == Stores then StoresTrace(sources.stores, rejects) else ChunkedTrace(rawDir, src, FileOf(sources, src), rejects);
      RecordsFor(b.appends, table) == if table == Table(src) then PreparedRecords(src, Staged(rawDir, sources, src)) else []
  {
    var file := FileOf(sources, src);
    if file.Some? {
      if src == Stores {
        var w := file.value.whole.frame;
        assert [w][..0] == [];
        assert [Append(StoresStaging, Prepare(Stores, w))][..0] == [];
      } else {
        var c := ReadChunked(Path(rawDir, src), file.value);
        AppendAllRecords(src, c.yielded, rejects, table);
      }
    }
  }

  /** The appends of a run that completed: the four blocks' appends, in order. */
  lemma CompletedAppends(rawDir: string, sources: Sources, faults: StagingFaults)
    requires ExtractTrace(rawDir, sources, faults).error.None?
    ensures faults.truncate.None?
    ensures var rejects := faults.rejects;
      var c1 := ChunkedTrace(rawDir, Train, sources.train, rejects);
      var c2 := ChunkedTrace(rawDir, Test, sources.test, rejects);
      var c3 := ChunkedTrace(rawDir, Features, sources.features, rejects);
      var c4 := StoresTrace(sources.stores, rejects);
      c1.error.None? && c2.error.None? && c3.error.None? && c4.error.None?
      && ExtractTrace(rawDir, sources, faults).appends == c1.appends + c2.appends + c3.appends + c4.appends
  {
  }

  /**
   * After a run that completes, `sales_staging` holds exactly the prepared
   * train rows followed by the prepared test rows, `features_staging` the
   * prepared feature rows and `stores_staging` the prepared stores rows;
   * a missing file contributes nothing.
   */
  lemma ExtractSuccessContents(s: Store, rawDir: string, sources: Sources, faults: StagingFaults)
    requires ExtractTrace(rawDir, sources, faults).error.None?
    ensures var after := StagingAfter(s, rawDir, sources, faults);
      StagingTables <= after.Keys
      && after[SalesStaging] == PreparedRecords(Train, Staged(rawDir, sources, Train)) + PreparedRecords(Test, Staged(rawDir, sources, Test))
      && after[FeaturesStaging] == PreparedRecords(Features, Staged(rawDir, sources, Features))
      && after[StoresStaging] == PreparedRecords(Stores, Staged(rawDir, sources, Stores))
  {
    CompletedAppends(rawDir, sources, faults);
    var rejects := faults.rejects;
    StagingTableIsBlocks(s, rawDir, sources, faults, SalesStaging);
    StagingTableIsBlocks(s, rawDir, sources, faults, FeaturesStaging);
    StagingTableIsBlocks(s, rawDir, sources, faults, StoresStaging);
    BlockSumIsContributions(rawDir, sources, rejects, SalesStaging);
    BlockSumIsContributions(rawDir, sources, rejects, FeaturesStaging);
    BlockSumIsContributions(rawDir, sources, rejects, StoresStaging);
    SalesContributions(rawDir, sources);
    FeaturesContributions(rawDir, sources);
    StoresContributions(rawDir, sources);
  }

  lemma SalesContributions(rawDir: string, sources: Sources)
    ensures Contribution(rawDir, sources, Train, SalesStaging) + Contribution(rawDir, sources, Test, SalesStaging)
        + Contribution(rawDir, sources, Features, SalesStaging) + Contribution(rawDir, sources, Stores, SalesStaging)
      == PreparedRecords(Train, Staged(rawDir, sources, Train)) + PreparedRecords(Test, Staged(rawDir, sources, Test))
  {
    StagingNamesDistinct();
    var a := PreparedRecords(Train, Staged(rawDir, sources, Train)) + PreparedRecords(Test, Staged(rawDir, sources, Test));
    assert a + [] + [] == a;
  }

  lemma FeaturesContributions(rawDir: string, sources: Sources)
    ensures Contribution(rawDir, sources, Train, FeaturesStaging) + Contribution(rawDir, sources, Test, FeaturesStaging)
        + Contribution(rawDir, sources, Features, FeaturesStaging) + Contribution(rawDir, sources, Stores, FeaturesStaging)
      == PreparedRecords(Features, Staged(rawDir, sources, Features))
  {
    StagingNamesDistinct();
    var a := PreparedRecords(Features, Staged(rawDir, sources, Features));
    assert [] + [] + a + [] == a;
  }

  lemma StoresContributions(rawDir: string, sources: Sources)
    ensures Contribution(rawDir, sources, Train, StoresStaging) + Contribution(rawDir, sources, Test, StoresStaging)
        + Contribution(rawDir, sources, Features, StoresStaging) + Contribution(rawDir, sources, Stores, StoresStaging)
      == PreparedRecords(Stores, Staged(rawDir, sources, Stores))
  {
    StagingNamesDistinct();
    var a := PreparedRecords(Stores, Staged(rawDir, sources, Stores));
    assert [] + [] + [] + a == a;
  }

  lemma StagingNamesDistinct()
    ensures SalesStaging != FeaturesStaging && SalesStaging != StoresStaging && FeaturesStaging != StoresStaging
  {
    assert |SalesStaging| == 13 && |FeaturesStaging| == 16 && |StoresStaging| == 14;
  }

  /** What the four load blocks of a run append to `table`, in order. */
  ghost function BlockSum(rawDir: string, sources: Sources, rejects: (string, Frame) -> Option<string>, table: string): seq<Record> {
    RecordsFor(ChunkedTrace(rawDir, Train, sources.train, rejects).appends, table)
      + RecordsFor(ChunkedTrace(rawDir, Test, sources.test, rejects).appends, table)
      + RecordsFor(ChunkedTrace(rawDir, Features, sources.features, rejects).appends, table)
      + RecordsFor(StoresTrace(sources.stores, rejects).appends, table)
  }

  /** The prepared rows `src` contributes to `table`. */
  ghost function Contribution(rawDir: string, sources: Sources, src: Source, table: string): seq<Record> {
    if table == Table(src) then PreparedRecords(src, Staged(rawDir, sources, src)) else []
  }

  lemma StagingTableIsBlocks(s: Store, rawDir: string, sources: Sources, faults: StagingFaults, table: string)
    requires ExtractTrace(rawDir, sources, faults).error.None?
    requires table in StagingTables
    ensures var after := StagingAfter(s, rawDir, sources, faults);
      table in after && after[table] == BlockSum(rawDir, sources, faults.rejects, table)
  {
    CompletedAppends(rawDir, sources, faults);
    var rejects := faults.rejects;
    ApplyFourBlocks(Truncate(s), ChunkedTrace(rawDir, Train, sources.train, rejects).appends,
      ChunkedTrace(rawDir, Test, sources.test, rejects).appends,
      ChunkedTrace(rawDir, Features, sources.features, rejects).appends,
      StoresTrace(sources.stores, rejects).appends, table);
  }

  /** Appending four runs of batches to an emptied table leaves it holding their records in order. */
  lemma ApplyFourBlocks(s: Store, a1: seq<Append>, a2: seq<Append>, a3: seq<Append>, a4: seq<Append>, table: string)
    requires table in s && s[table] == []
    ensures var after := Apply(s, a1 + a2 + a3 + a4);
      table in after
      && after[table] == RecordsFor(a1, table) + RecordsFor(a2, table) + RecordsFor(a3, table) + RecordsFor(a4, table)
  {
    GetApply(s, a1 + a2 + a3 + a4, table);
    RecordsForConcat(a1 + a2 + a3, a4, table);
    RecordsForConcat(a1 + a2, a3, table);
    RecordsForConcat(a1, a2, table);
    ApplyKeepsKeys(s, a1 + a2 + a3 + a4, table);
  }

  lemma BlockSumIsContributions(rawDir: string, sources: Sources, rejects: (string, Frame) -> Option<string>, table: string)
    requires ChunkedTrace(rawDir, Train, sources.train, rejects).error.None?
    requires ChunkedTrace(rawDir, Test, sources.test, rejects).error.None?
    requires ChunkedTrace(rawDir, Features, sources.features, rejects).error.None?
    requires StoresTrace(sources.stores, rejects).error.None?
    ensures BlockSum(rawDir, sources, rejects, table)
      == Contribution(rawDir, sources, Train, table) + Contribution(rawDir, sources, Test, table)
        + Contribution(rawDir, sources, Features, table) + Contribution(rawDir, sources, Stores, table)
  {
    BlockRecords(rawDir, sources, Train, rejects, table);
    BlockRecords(rawDir, sources, Test, rejects, table);
    BlockRecords(rawDir, sources, Features, rejects, table);
    BlockRecords(rawDir, sources, Stores, rejects, table);
  }

  lemma {:induction false} ApplyKeepsKeys(s: Store, appends: seq<Append>, table: string)
    requires table in s
    ensures table in Apply(s, appends)
  {
    if appends != [] {
      ApplyKeepsKeys(s, appends[..|appends| - 1], table);
    }
  }

  /**
   * Row accounting: after a completed run `sales_staging` holds the train
   * rows plus the test rows, and every present file's `Loaded ...` line
   * reports the number of rows its batches added.
   */
  lemma ExtractRowCounts(s: Store, rawDir: string, sources: Sources, faults: StagingFaults, src: Source)
    requires ExtractTrace(rawDir, sources, faults).error.None?
    ensures var after := StagingAfter(s, rawDir, sources, faults);
      |Get(after, SalesStaging)| == TotalRows(Staged(rawDir, sources, Train)) + TotalRows(Staged(rawDir, sources, Test))
      && |Get(after, FeaturesStaging)| == TotalRows(Staged(rawDir, sources, Features))
      && |Get(after, StoresStaging)| == TotalRows(Staged(rawDir, sources, Stores))
    ensures FileOf(sources, src).Some? ==>
      LoadedMsg(src, TotalRows(Staged(rawDir, sources, src))) in ExtractTrace(rawDir, sources, faults).log
  {
    ExtractSuccessContents(s, rawDir, sources, faults);
    PreparedRecordsCount(Train, Staged(rawDir, sources, Train));
    PreparedRecordsCount(Test, Staged(rawDir, sources, Test));
    PreparedRecordsCount(Features, Staged(rawDir, sources, Features));
    PreparedRecordsCount(Stores, Staged(rawDir, sources, Stores));
    if FileOf(sources, src).Some? {
      CompletedAppends(rawDir, sources, faults);
      BlockLogsCount(rawDir, sources, faults.rejects, src);
      LoadTraceHasBlockLog(rawDir, sources, faults.rejects, src);
    }
  }

  /** The block of a present file that completes ends with its `Loaded ...` line. */
  lemma BlockLogsCount(rawDir: string, sources: Sources, rejects: (string, Frame) -> Option<string>, src: Source)
    requires FileOf(sources, src).Some?
    requires var b := if src == Stores then StoresTrace(sources.stores, rejects) else ChunkedTrace(rawDir, src, FileOf(sources, src), rejects);
      b.error.None?
    ensures var b := if src == Stores then StoresTrace(sources.stores, rejects) else ChunkedTrace(rawDir, src, FileOf(sources, src), rejects);
      LoadedMsg(src, TotalRows(Staged(rawDir, sources, src))) in b.log
  {
    if src == Stores {
      var w := sources.stores.value.whole.frame;
      assert [w][..0] == [];
      assert TotalRows([w]) == |w.rows|;
    }
  }

  lemma LoadTraceHasBlockLog(rawDir: string, sources: Sources, rejects: (string, Frame) -> Option<string>, src: Source)
    requires LoadTrace(rawDir, sources, rejects).error.None?
    ensures var b := if src == Stores then StoresTrace(sources.stores, rejects) else ChunkedTrace(rawDir, src, FileOf(sources, src), rejects);
      forall m :: m in b.log ==> m in LoadTrace(rawDir, sources, rejects).log
  {
  }

  // ---------- the log ----------

  /** The lines logged inside the `try` block: truncation done, read errors, row counts. */
  predicate BodyLine(m: string) {
    |m| > 0 && (m[0] == 'S' || m[0] == 'E' || m[0] == 'L')
  }

  predicate BodyLines(t: Trace) {
    forall m :: m in t.log ==> BodyLine(m)
  }

  lemma ThenBodyLines(a: Trace, b: Trace)
    requires BodyLines(a) && BodyLines(b)
    ensures BodyLines(Then(a, b))
  {
  }

  lemma ChunkedBodyLines(rawDir: string, src: Source, file: Option<CsvFile>, rejects: (string, Frame) -> Option<string>)
    ensures BodyLines(ChunkedTrace(rawDir, src, file, rejects))
  {
    if file.Some? {
      var c := ReadChunked(Path(rawDir, src), file.value);
      var logged := if c.logged.Some? then [c.logged.value] else [];
      if c.logged.Some? {
        var e := file.value.fault.reason;
        ReadErrorIsBodyLine(Path(rawDir, src), e);
      }
      LoadedIsBodyLine(src, TotalRows(c.yielded));
      assert forall m :: m in logged + [LoadedMsg(src, TotalRows(c.yielded))] ==> BodyLine(m);
    }
  }

  lemma ReadErrorIsBodyLine(path: string, reason: string)
    ensures BodyLine(ReadErrorMsg(path, reason))
  {
    assert ReadErrorMsg(path, reason)[0] == 'E';
  }

  lemma LoadedIsBodyLine(src: Source, n: nat)
    ensures BodyLine(LoadedMsg(src, n))
  {
    assert LoadedMsg(src, n)[0] == 'L';
  }

  lemma BodyTraceLines(rawDir: string, sources: Sources, faults: StagingFaults)
    ensures BodyLines(BodyTrace(rawDir, sources, faults))
  {
    if faults.truncate.None? {
      var rejects := faults.rejects;
      var c1 := ChunkedTrace(rawDir, Train, sources.train, rejects);
      var c2 := ChunkedTrace(rawDir, Test, sources.test, rejects);
      var c3 := ChunkedTrace(rawDir, Features, sources.features, rejects);
      var c4 := StoresTrace(sources.stores, rejects);
      ChunkedBodyLines(rawDir, Train, sources.train, rejects);
      ChunkedBodyLines(rawDir, Test, sources.test, rejects);
      ChunkedBodyLines(rawDir, Features, sources.features, rejects);
      ThenBodyLines(c1, c2);
      ThenBodyLines(Then(c1, c2), c3);
      ThenBodyLines(Then(Then(c1, c2), c3), c4);
      ThenBodyLines(Trace([], [Truncated], None), LoadTrace(rawDir, sources, rejects));
    }
  }

  lemma {:induction false} WarningLines(rawDir: string, sources: Sources, order: seq<Source>)
    ensures forall m :: m in Warnings(rawDir, sources, order) ==>
      exists src :: src in order && FileOf(sources, src).None? && m == WarningMsg(Path(rawDir, src))
  {
    if order != [] {
      var init := order[..|order| - 1];
      WarningLines(rawDir, sources, init);
      forall m | m in Warnings(rawDir, sources, order)
        ensures exists src :: src in order && FileOf(sources, src).None? && m == WarningMsg(Path(rawDir, src))
      {
        if m in Warnings(rawDir, sources, init) {
          var src :| src in init && FileOf(sources, src).None? && m == WarningMsg(Path(rawDir, src));
          assert src in order;
        } else {
          assert order[|order| - 1] in order;
        }
      }
    }
  }

  lemma {:induction false} WarningsCover(rawDir: string, sources: Sources, order: seq<Source>, src: Source)
    requires src in order && FileOf(sources, src).None?
    ensures WarningMsg(Path(rawDir, src)) in Warnings(rawDir, sources, order)
  {
    if order[|order| - 1] != src {
      var init := order[..|order| - 1];
      assert order == init + [order[|order| - 1]];
      WarningsCover(rawDir, sources, init, src);
    }
  }

  /** Warning lines name their file: the four paths give four different lines. */
  lemma WarningNamesFile(rawDir: string, a: Source, b: Source)
    requires WarningMsg(Path(rawDir, a)) == WarningMsg(Path(rawDir, b))
    ensures a == b
  {
    assert |WarningMsg(Path(rawDir, a))| == |WarningMsg(Path(rawDir, b))|;
  }

  /** `Completed` is the last line of a run that raised nothing; `DB Load Error` the last line of one that did. */
  lemma ExtractLastLine(rawDir: string, sources: Sources, faults: StagingFaults)
    ensures var t := ExtractTrace(rawDir, sources, faults);
      t.log != [] && t.log[|t.log| - 1] == (if t.error.Some? then DbErrorMsg(t.error.value) else Completed)
  {
  }

  /** The shape of a run's log: start, warnings, truncation notice, the `try` block's lines, last line. */
  lemma LogShape(rawDir: string, sources: Sources, faults: StagingFaults)
    ensures var t := ExtractTrace(rawDir, sources, faults);
      var last := t.log[|t.log| - 1];
      t.log == [Started] + Warnings(rawDir, sources, WarnOrder) + [Truncating] + BodyTrace(rawDir, sources, faults).log + [last]
      && BodyLines(BodyTrace(rawDir, sources, faults))
      && |last| > 0 && (last == Completed <==> t.error.None?) && (last[0] == '=' || last[0] == 'D')
  {
    BodyTraceLines(rawDir, sources, faults);
    var t := ExtractTrace(rawDir, sources, faults);
    if t.error.Some? {
      assert DbErrorMsg(t.error.value)[0] == 'D';
    }
  }

  lemma {:induction false} WarningsStartWithW(rawDir: string, sources: Sources, order: seq<Source>)
    ensures forall m :: m in Warnings(rawDir, sources, order) ==> |m| > 0 && m[0] == 'W'
  {
    if order != [] {
      WarningsStartWithW(rawDir, sources, order[..|order| - 1]);
    }
  }

  lemma CompletedOnlyLast(warnings: seq<string>, bodyLog: seq<string>, last: string)
    requires forall m :: m in warnings ==> |m| > 0 && m[0] == 'W'
    requires forall m :: m in bodyLog ==> BodyLine(m)
    ensures Completed in [Started] + warnings + [Truncating] + bodyLog + [last] <==> last == Completed
  {
    assert Completed[0] == '=' && !BodyLine(Completed);
    assert Completed !in warnings;
    assert Completed != Started by { assert |Completed| != |Started|; }
    assert Completed != Truncating by { assert Truncating[0] == 'T'; }
  }

  /** `EXTRACT STEP COMPLETED` is logged iff the run raised nothing. */
  lemma ExtractCompletedIffNoError(rawDir: string, sources: Sources, faults: StagingFaults)
    ensures var t := ExtractTrace(rawDir, sources, faults);
      Completed in t.log <==> t.error.None?
  {
    LogShape(rawDir, sources, faults);
    var t := ExtractTrace(rawDir, sources, faults);
    WarningsStartWithW(rawDir, sources, WarnOrder);
    CompletedOnlyLast(Warnings(rawDir, sources, WarnOrder), BodyTrace(rawDir, sources, faults).log, t.log[|t.log| - 1]);
  }

  lemma WarnedIffMissing(rawDir: string, sources: Sources, bodyLog: seq<string>, last: string, src: Source)
    requires forall m :: m in bodyLog ==> BodyLine(m)
    requires |last| > 0 && (last[0] == '=' || last[0] == 'D')
    ensures WarningMsg(Path(rawDir, src)) in [Started] + Warnings(rawDir, sources, WarnOrder) + [Truncating] + bodyLog + [last]
      <==> FileOf(sources, src).None?
  {
    var w := WarningMsg(Path(rawDir, src));
    var warnings := Warnings(rawDir, sources, WarnOrder);
    assert w[0] == 'W' && !BodyLine(w);
    if FileOf(sources, src).None? {
      assert src in WarnOrder;
      WarningsCover(rawDir, sources, WarnOrder, src);
    } else {
      WarningLines(rawDir, sources, WarnOrder);
      forall other | other in WarnOrder && FileOf(sources, other).None?
        ensures w != WarningMsg(Path(rawDir, other))
      {
        if w == WarningMsg(Path(rawDir, other)) {
          WarningNamesFile(rawDir, src, other);
        }
      }
      assert w !in warnings;
      assert w != Started by { assert Started[0] == '='; }
      assert w != Truncating by { assert w[0] == 'W' && Truncating[0] == 'T'; }
      assert w != last;
      assert w !in bodyLog;
      assert w !in [Started] + warnings + [Truncating] + bodyLog + [last];
    }
  }

  /** A file is reported missing iff it does not exist. */
  lemma ExtractWarnsIffMissing(rawDir: string, sources: Sources, faults: StagingFaults, src: Source)
    ensures WarningMsg(Path(rawDir, src)) in ExtractTrace(rawDir, sources, faults).log
      <==> FileOf(sources, src).None?
  {
    LogShape(rawDir, sources, faults);
    var t := ExtractTrace(rawDir, sources, faults);
    WarnedIffMissing(rawDir, sources, BodyTrace(rawDir, sources, faults).log, t.log[|t.log| - 1], src);
  }

  // ---------- failing reads ----------

  /** The database accepts every append. */
  ghost predicate AcceptsAll(rejects: (string, Frame) -> Option<string>) {
    forall t, b :: rejects(t, b).None?
  }

  /** Reading the file raises nothing: the only read error that escapes is a failing whole-file fallback. */
  predicate ReadRaisesNothing(file: Option<CsvFile>) {
    file.Some? && file.value.fault.ValueErrorAt? ==> file.value.whole.Read?
  }

  /** Truncation succeeds, every append is accepted and no read escapes the chunked reader or the stores read. */
  ghost predicate NothingRaises(sources: Sources, faults: StagingFaults) {
    && faults.truncate.None? && AcceptsAll(faults.rejects)
    && ReadRaisesNothing(sources.train) && ReadRaisesNothing(sources.test) && ReadRaisesNothing(sources.features)
    && (sources.stores.Some? ==> sources.stores.value.whole.Read?)
  }

  lemma {:induction false} AppendAllUnrejected(src: Source, batches: seq<Frame>, rejects: (string, Frame) -> Option<string>)
    requires AcceptsAll(rejects)
    ensures AppendAll(src, batches, rejects).error.None?
  {
    if batches != [] {
      AppendAllUnrejected(src, batches[..|batches| - 1], rejects);
      assert rejects(Table(src), Prepare(src, batches[|batches| - 1])).None?;
    }
  }

  /** A read error other than ValueError raises nothing of its own: only a rejected append can end the block. */
  lemma OtherErrorRaisesNothing(rawDir: string, src: Source, batches: seq<Frame>, k: nat, reason: string, whole: ReadResult,
                                rejects: (string, Frame) -> Option<string>)
    ensures ChunkedTrace(rawDir, src, Some(CsvFile(batches, OtherErrorAt(k, reason), whole)), rejects).error
      == AppendAll(src, batches[..Min(k, |batches|)], rejects).error
  {
  }

  lemma ChunkedRaisesNothing(rawDir: string, src: Source, file: Option<CsvFile>, rejects: (string, Frame) -> Option<string>)
    requires AcceptsAll(rejects) && ReadRaisesNothing(file)
    ensures ChunkedTrace(rawDir, src, file, rejects).error.None?
  {
    if file.Some? {
      AppendAllUnrejected(src, ReadChunked(Path(rawDir, src), file.value).yielded, rejects);
    }
  }

  /** Under those conditions the run completes: nothing is raised and the completion line is logged. */
  lemma RunCompletes(rawDir: string, sources: Sources, faults: StagingFaults)
    requires NothingRaises(sources, faults)
    ensures ExtractTrace(rawDir, sources, faults).error.None?
    ensures Completed in ExtractTrace(rawDir, sources, faults).log
  {
    ChunkedRaisesNothing(rawDir, Train, sources.train, faults.rejects);
    ChunkedRaisesNothing(rawDir, Test, sources.test, faults.rejects);
    ChunkedRaisesNothing(rawDir, Features, sources.features, faults.rejects);
    if sources.stores.Some? {
      assert faults.rejects(StoresStaging, Prepare(Stores, sources.stores.value.whole.frame)).None?;
    }
    ExtractCompletedIffNoError(rawDir, sources, faults);
  }

  /**
   * A read error other than ValueError ends its file early but not the run:
   * when nothing else raises, the error is logged, the step completes, the
   * file stages exactly the batches before the failing one and its count
   * line reports only their rows.
   */
  lemma ReadErrorEndsSilently(rawDir: string, sources: Sources, faults: StagingFaults, src: Source,
                              batches: seq<Frame>, k: nat, reason: string, whole: ReadResult)
    requires src != Stores && FileOf(sources, src) == Some(CsvFile(batches, OtherErrorAt(k, reason), whole)) && k <= |batches|
    requires NothingRaises(sources, faults)
    ensures var t := ExtractTrace(rawDir, sources, faults);
      t.error.None? && Completed in t.log && ReadErrorMsg(Path(rawDir, src), reason) in t.log
    ensures Staged(rawDir, sources, src) == batches[..k]
    ensures LoadedMsg(src, TotalRows(batches[..k])) in ExtractTrace(rawDir, sources, faults).log
  {
    RunCompletes(rawDir, sources, faults);
    ReadErrorLogged(rawDir, sources, faults, src, batches, k, reason, whole);
    StagedBeforeReadError(rawDir, sources, src, batches, k, reason, whole);
    ExtractRowCounts(map[], rawDir, sources, faults, src);
  }

  lemma ReadErrorLogged(rawDir: string, sources: Sources, faults: StagingFaults, src: Source,
                        batches: seq<Frame>, k: nat, reason: string, whole: ReadResult)
    requires src != Stores && FileOf(sources, src) == Some(CsvFile(batches, OtherErrorAt(k, reason), whole)) && k <= |batches|
    requires ExtractTrace(rawDir, sources, faults).error.None?
    ensures ReadErrorMsg(Path(rawDir, src), reason) in ExtractTrace(rawDir, sources, faults).log
  {
    CompletedAppends(rawDir, sources, faults);
    var c := ChunkedTrace(rawDir, src, FileOf(sources, src), faults.rejects);
    assert ReadErrorMsg(Path(rawDir, src), reason) in c.log;
    LoadTraceHasBlockLog(rawDir, sources, faults.rejects, src);
  }

  /** After such an error in train.csv, `sales_staging` falls short of the file's rows by exactly the rows after the failing batch. */
  lemma TrainReadErrorCount(s: Store, rawDir: string, sources: Sources, faults: StagingFaults,
                            batches: seq<Frame>, k: nat, reason: string, whole: ReadResult)
    requires sources.train == Some(CsvFile(batches, OtherErrorAt(k, reason), whole)) && k <= |batches|
    requires NothingRaises(sources, faults)
    ensures |Get(StagingAfter(s, rawDir, sources, faults), SalesStaging)| + TotalRows(batches[k..])
      == TotalRows(batches) + TotalRows(Staged(rawDir, sources, Test))
  {
    RunCompletes(rawDir, sources, faults);
    ExtractRowCounts(s, rawDir, sources, faults, Train);
    StagedBeforeReadError(rawDir, sources, Train, batches, k, reason, whole);
    TotalRowsPrefix(batches, k);
  }

  lemma StagedBeforeReadError(rawDir: string, sources: Sources, src: Source, batches: seq<Frame>, k: nat, reason: string, whole: ReadResult)
    requires src != Stores && FileOf(sources, src) == Some(CsvFile(batches, OtherErrorAt(k, reason), whole)) && k <= |batches|
    ensures Staged(rawDir, sources, src) == batches[..k]
  {
  }

  /**
   * A ValueError part-way through a file falls back to reading the whole
   * file: when that read sees the batches' rows under their header, the
   * records of the batches before the error are staged twice, once from
   * the chunks and once more at the head of the whole file's records.
   */
  lemma ValueErrorStagesPrefixTwice(path: string, src: Source, batches: seq<Frame>, k: nat, w: Frame)
    requires k <= |batches|
    requires w.rows == AllRows(batches) && forall i :: 0 <= i < |batches| ==> batches[i].columns == w.columns
    ensures var c := ReadChunked(path, CsvFile(batches, ValueErrorAt(k), Read(w)));
      c.raised.None? && c.logged.None?
      && PreparedRecords(src, c.yielded) == PreparedRecords(src, batches[..k]) + PreparedRecords(src, batches)
      && TotalRows(c.yielded) == TotalRows(batches) + TotalRows(batches[..k])
  {
    var c := ReadChunked(path, CsvFile(batches, ValueErrorAt(k), Read(w)));
    assert c.yielded == batches[..k] + [w];
    assert (batches[..k] + [w])[..k] == batches[..k];
    PreparedWhole(src, batches, w.columns);
    assert w == Frame(w.columns, AllRows(batches));
    AllRowsCount(batches);
    TotalRowsAppend(batches[..k], [w]);
    assert [w][..0] == [];
  }

  /** Preparing a frame row by row: the records of two blocks of rows under one header are the two blocks' records. */
  lemma PreparedRowsSplit(src: Source, cs: seq<string>, r1: seq<Row>, r2: seq<Row>)
    ensures ToRecords(Prepare(src, Frame(cs, r1 + r2)))
      == ToRecords(Prepare(src, Frame(cs, r1))) + ToRecords(Prepare(src, Frame(cs, r2)))
  {
    var whole, p1, p2 := Prepare(src, Frame(cs, r1 + r2)), Prepare(src, Frame(cs, r1)), Prepare(src, Frame(cs, r2));
    assert whole.columns == p1.columns == p2.columns;
    assert whole.rows == p1.rows + p2.rows;
  }

  /** The records of batches sharing one header are those of the whole file that holds their rows. */
  lemma {:induction false} PreparedWhole(src: Source, batches: seq<Frame>, cs: seq<string>)
    requires forall i :: 0 <= i < |batches| ==> batches[i].columns == cs
    ensures PreparedRecords(src, batches) == ToRecords(Prepare(src, Frame(cs, AllRows(batches))))
  {
    if batches != [] {
      var init, last := batches[..|batches| - 1], batches[|batches| - 1];
      PreparedWhole(src, init, cs);
      PreparedRowsSplit(src, cs, AllRows(init), last.rows);
      assert last == Frame(cs, last.rows);
    } else {
      assert ToRecords(Prepare(src, Frame(cs, []))) == [];
    }
  }

  /** A file whose first fetch fails with ValueError is read whole, once. */
  lemma SmallFileReadOnce(path: string, batches: seq<Frame>, w: Frame)
    ensures ReadChunked(path, CsvFile(batches, ValueErrorAt(0), Read(w))).yielded == [w]
  {
  }

  // ---------- batch preparation ----------

  /** Every prepared test batch has `weekly_sales`; one that lacked it gets nulls there. */
  lemma TestBatchesGetWeeklySales(b: Frame)
    ensures "weekly_sales" in Prepare(Test, b).columns
    ensures var renamed := Rename(NormalizeColumns(b), TestRenames);
      "weekly_sales" !in renamed.columns ==>
        Prepare(Test, b).columns == renamed.columns + ["weekly_sales"]
        && forall i :: 0 <= i < |b.rows| ==> CellAt(Prepare(Test, b).rows[i], |b.columns|) == Null
  {
    var renamed := Rename(NormalizeColumns(b), TestRenames);
    if "weekly_sales" in renamed.columns {
    } else {
      assert Prepare(Test, b).columns[|renamed.columns|] == "weekly_sales";
    }
  }

  /** Batches of the other sources keep exactly their columns, stripped and renamed: nothing is added. */
  lemma OtherBatchesKeepColumns(src: Source, b: Frame)
    requires src != Test
    ensures |Prepare(src, b).columns| == |b.columns|
    ensures forall i :: 0 <= i < |b.columns| ==>
      Prepare(src, b).columns[i] == Renamed(Strip(b.columns[i]), Renames(src))
  {
  }

  /** Every label a rename map of the extractor names is trimmed. */
  lemma RenameKeysTrimmed(src: Source)
    ensures forall k :: k in Renames(src) ==> Trimmed(k)
  {
    match src
    case Train => KeysTrimmed(TrainRenames);
    case Test => KeysTrimmed(TestRenames);
    case Features => FeatureKeysTrimmed();
    case Stores => KeysTrimmed(StoreRenames);
  }

  /** The keys of a map none of whose keys starts or ends with whitespace. */
  lemma KeysTrimmed(renames: map<string, string>)
    requires renames == TrainRenames || renames == TestRenames || renames == StoreRenames
    ensures forall k :: k in renames ==> Trimmed(k)
  {
  }

  lemma FeatureKeysTrimmed()
    ensures forall k :: k in FeatureRenames ==> Trimmed(k)
  {
  }

  /**
   * The extractor strips any whitespace padding before renaming: a header
   * that a rename map names, padded with whitespace, gets that map's label.
   */
  lemma ExtractStripsBeforeRenaming(src: Source, front: string, k: string, back: string)
    requires AllSpace(front) && AllSpace(back) && k in Renames(src)
    ensures Renamed(Strip(front + k + back), Renames(src)) == Renames(src)[k]
  {
    RenameKeysTrimmed(src);
    StripRemovesPadding(front, k, back);
  }

  /**
   * The extractor's renaming is exact and case-sensitive: a train header
   * spelling `store` in any case other than `Store` is not renamed, whereas
   * the transformer lower-cases it to `store`.
   */
  lemma ExtractRenameIsCaseSensitive(s: string)
    requires Lower(s) == "store" && s != "Store"
    ensures Renamed(s, TrainRenames) == s
    ensures Transform.CleanLabel(s, Transform.SalesRenames) == "store"
  {
    assert |s| == |Lower(s)| == 5;
    NotTrainKey(s);
    Transform.SalesHeadersCanonical([], s, []);
    assert [] + s + [] == s;
  }

  lemma NotTrainKey(s: string)
    requires |s| == 5 && s != "Store"
    ensures s !in TrainRenames
  {
  }

}
