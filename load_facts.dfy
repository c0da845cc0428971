/**
 * What a run of the loader guarantees, stated over module Load's
 * specification: tables other than the four clean tables are untouched,
 * a second run gives the same database, a successful run holds exactly
 * the files' rows, and the exact state a failure part-way leaves behind.
 */
module LoadFacts {
  import opened Wrappers
  import opened Frames
  import opened Load

  ghost predicate SameOutsideClean(a: Db, b: Db) {
    forall t :: t !in CleanTables ==> (t in a <==> t in b) && (t in a ==> a[t] == b[t])
  }

  lemma {:induction false} ReplacedOnlyClean(d: Db, frames: seq<Frame>, k: nat)
    requires k <= |frames| <= |CleanTables|
    ensures SameOutsideClean(d, Replaced(d, frames, k))
  {
    if k > 0 {
      ReplacedOnlyClean(d, frames, k - 1);
      assert CleanTables[k - 1] in CleanTables;
    }
  }

  lemma WrittenOnlyClean(d: Db, frames: seq<Frame>, rejects: (string, Frame) -> Option<WriteFault>)
    requires |frames| == |CleanTables|
    ensures SameOutsideClean(d, Written(d, frames, rejects))
  {
    var k := WriteCount(frames, rejects, 0);
    ReplacedOnlyClean(d, frames, k);
    if k < |CleanTables| {
      assert CleanTables[k] in CleanTables;
    }
  }

  /** A run changes no table other than the four clean tables. */
  lemma LoadLeavesOtherTables(db: Db, files: CleanFiles, faults: DbFaults)
    ensures SameOutsideClean(db, DbAfter(db, files, faults))
  {
    if DropError(faults).None? && ReadError(files).None? {
      WrittenOnlyClean(Dropped(db), FramesOf(files), faults.rejects);
    }
  }

  lemma DroppedForgets(a: Db, b: Db)
    requires SameOutsideClean(a, b)
    ensures Dropped(a) == Dropped(b)
  {
    assert Dropped(a).Keys == Dropped(b).Keys;
  }

  /** Running the loader twice on unchanged files gives the database one run gives. */
  lemma LoadIdempotent(db: Db, files: CleanFiles, faults: DbFaults)
    ensures var once := DbAfter(db, files, faults);
      DbAfter(once, files, faults) == once
  {
    if DropError(faults).None? {
      var once := DbAfter(db, files, faults);
      LoadLeavesOtherTables(db, files, faults);
      DroppedForgets(db, once);
    }
  }

  /** The four table names are different. */
  lemma CleanTablesDistinct(i: nat, j: nat)
    requires i < j < |CleanTables|
    ensures CleanTables[i] != CleanTables[j]
  {
    assert |CleanTables[0]| == 11 && |CleanTables[1]| == 14 && |CleanTables[2]| == 12 && |CleanTables[3]| == 10;
  }

  /** After `k` writes into a dropped database, tables before `k` hold their frames and the rest are absent. */
  lemma {:induction false} ReplacedContents(d: Db, frames: seq<Frame>, k: nat, i: nat)
    requires k <= |frames| == |CleanTables| && i < |CleanTables|
    requires forall t :: t in CleanTables ==> t !in d
    ensures i < k ==> CleanTables[i] in Replaced(d, frames, k) && Replaced(d, frames, k)[CleanTables[i]] == ToRecords(frames[i])
    ensures i >= k ==> CleanTables[i] !in Replaced(d, frames, k)
  {
    if k > 0 {
      ReplacedContents(d, frames, k - 1, i);
      if i < k - 1 {
        CleanTablesDistinct(i, k - 1);
      } else if i > k - 1 {
        CleanTablesDistinct(k - 1, i);
      }
    } else {
      assert CleanTables[i] in CleanTables;
    }
  }

  /** After a successful run each clean table holds exactly its file's rows. */
  lemma LoadSuccessContents(db: Db, files: CleanFiles, faults: DbFaults, i: nat)
    requires LoadError(files, faults).None? && i < |CleanTables|
    ensures ReadError(files).None?
    ensures var after := DbAfter(db, files, faults);
      CleanTables[i] in after && after[CleanTables[i]] == ToRecords(FramesOf(files)[i])
  {
    var frames := FramesOf(files);
    ReplacedContents(Dropped(db), frames, WriteCount(frames, faults.rejects, 0), i);
  }

  /** On success the row-count line of each table reports what the table now holds. */
  lemma LoadLogsTableSizes(db: Db, files: CleanFiles, faults: DbFaults, i: nat)
    requires LoadError(files, faults).None? && i < |CleanTables|
    ensures var after := DbAfter(db, files, faults);
      CleanTables[i] in after && LoadedMsg(CleanTables[i], |after[CleanTables[i]]|) in LoadLog(files, faults)
  {
    LoadSuccessContents(db, files, faults, i);
    var lines := LoadedLines(FramesOf(files));
    assert lines[i] in lines;
  }

  /** The drops are committed before the reads: a failed read leaves all four tables absent. */
  lemma LoadReadFailure(db: Db, files: CleanFiles, faults: DbFaults)
    requires DropError(faults).None? && ReadError(files).Some?
    ensures forall t :: t in CleanTables ==> t !in DbAfter(db, files, faults)
    ensures LoadError(files, faults) == ReadError(files)
  {
  }

  /**
   * When write `k` is the first one rejected, the tables before it are new,
   * table `k` is empty if the write had created it and absent otherwise,
   * and the tables after it are absent.
   */
  lemma LoadWriteFailure(db: Db, files: CleanFiles, faults: DbFaults, k: nat, i: nat)
    requires DropError(faults).None? && ReadError(files).None? && k < |CleanTables| && i < |CleanTables|
    requires forall j :: 0 <= j < k ==> faults.rejects(CleanTables[j], FramesOf(files)[j]).None?
    requires faults.rejects(CleanTables[k], FramesOf(files)[k]).Some?
    ensures var fault := faults.rejects(CleanTables[k], FramesOf(files)[k]).value;
      LoadError(files, faults) == Some(fault.reason)
    ensures var after := DbAfter(db, files, faults);
      var fault := faults.rejects(CleanTables[k], FramesOf(files)[k]).value;
      (i < k ==> CleanTables[i] in after && after[CleanTables[i]] == ToRecords(FramesOf(files)[i]))
      && (i == k ==> (CleanTables[i] in after <==> fault.created) && (fault.created ==> after[CleanTables[i]] == []))
      && (i > k ==> CleanTables[i] !in after)
  {
    var frames := FramesOf(files);
    WriteCountIsFirstRejected(frames, faults.rejects, 0, k);
    ReplacedContents(Dropped(db), frames, k, i);
    if i != k {
      if i < k {
        CleanTablesDistinct(i, k);
      } else {
        CleanTablesDistinct(k, i);
      }
    }
  }

  lemma {:induction false} WriteCountIsFirstRejected(frames: seq<Frame>, rejects: (string, Frame) -> Option<WriteFault>, i: nat, k: nat)
    requires |frames| == |CleanTables| && i <= k < |CleanTables|
    requires forall j :: i <= j < k ==> rejects(CleanTables[j], frames[j]).None?
    requires rejects(CleanTables[k], frames[k]).Some?
    ensures WriteCount(frames, rejects, i) == k
    decreases k - i
  {
    if i < k {
      WriteCountIsFirstRejected(frames, rejects, i + 1, k);
    }
  }

  /**
   * A failure to connect or a failed drop transaction changes nothing, and
   * a failure to connect is raised before any drop is attempted.
   */
  lemma LoadDropFailure(db: Db, files: CleanFiles, faults: DbFaults)
    requires faults.connect.Some? || faults.drop.Some?
    ensures DbAfter(db, files, faults) == db
    ensures LoadError(files, faults) == if faults.connect.Some? then faults.connect else faults.drop
  {
  }

  /**
   * The log policy: the drop notice is logged iff the connection opened; an
   * error is logged as the last line, with no row-count line before it;
   * `LOAD STEP COMPLETED` appears iff nothing was raised.
   */
  lemma LoadLogPolicy(files: CleanFiles, faults: DbFaults)
    ensures var log := LoadLog(files, faults);
      (Completed in log <==> LoadError(files, faults).None?)
      && (Dropping in log <==> faults.connect.None?)
      && (LoadError(files, faults).Some? ==>
            log == [Started] + (if faults.connect.Some? then [] else [Dropping]) + [ErrorMsg(LoadError(files, faults).value)])
      && (LoadError(files, faults).None? ==> log == [Started, Dropping] + LoadedLines(FramesOf(files)) + [Completed])
  {
    match LoadError(files, faults)
    case Some(e) =>
      ErrorLog(faults.connect, e);
    case None =>
      SuccessLog(FramesOf(files));
  }

  /** The fixed lines tell themselves apart by their first character or their length. */
  lemma FixedLines()
    ensures Started[0] == '=' && Completed[0] == '=' && Dropping[0] == 'D' && |Completed| != |Started|
  {
  }

  lemma ErrorLog(connect: Option<string>, e: string)
    ensures var log := [Started] + (if connect.Some? then [] else [Dropping]) + [ErrorMsg(e)];
      Completed !in log && (Dropping in log <==> connect.None?)
  {
    FixedLines();
    assert ErrorMsg(e)[0] == 'L';
  }

  lemma SuccessLog(frames: seq<Frame>)
    requires |frames| == |CleanTables|
    ensures var log := [Started] + [Dropping] + (LoadedLines(frames) + [Completed]);
      Completed in log && Dropping in log && log == [Started, Dropping] + LoadedLines(frames) + [Completed]
  {
    var log := [Started] + [Dropping] + (LoadedLines(frames) + [Completed]);
    assert log[1] == Dropping && log[6] == Completed;
  }
}
