/**
 * The loader (scripts/load.py). A run drops the four clean tables in one
 * transaction, reads the four clean files, replaces the four tables one
 * after the other and logs a row count per table. The drops are committed
 * before any file is read, so an error after them leaves the tables it has
 * not yet rewritten absent rather than as they were. The drop notice is
 * logged inside the transaction block, so a failure to open the connection
 * is logged without it.
 */
module Load {
  import opened Wrappers
  import opened Text
  import opened Frames

  /** Reading one clean file with `pd.read_csv`: its frame, or the exception it raises. */
  datatype CleanRead = Parsed(frame: Frame) | ReadFailed(reason: string)

  /** The four clean files, in the order `main` reads them. */
  datatype CleanFiles = CleanFiles(sales: CleanRead, features: CleanRead, stores: CleanRead, full: CleanRead)

  /**
   * How a rejected `to_sql(..., if_exists="replace")` fails: before it has
   * created the table, or while inserting into the table it has just
   * created. MySQL commits a `CREATE TABLE` at once, so in the second case
   * the table stays behind, empty.
   */
  datatype WriteFault = WriteFault(reason: string, created: bool)

  /**
   * How the database answers: whether `engine.begin()` cannot open the
   * connection, whether a statement of the drop transaction raises, and
   * which replace writes it rejects.
   */
  datatype DbFaults = DbFaults(connect: Option<string>, drop: Option<string>, rejects: (string, Frame) -> Option<WriteFault>)

  /** The tables written, in order; file i of `CleanFiles` goes to table i. */
  const CleanTables: seq<string> := ["sales_clean", "features_clean", "stores_clean", "fact_sales"]

  type Db = map<string, seq<Record>>

  const Started := "==== LOAD STEP STARTED ===="
  const Completed := "==== LOAD STEP COMPLETED ===="
  const Dropping := "Dropping clean tables " + "(idempotent run)..."

  function LoadedMsg(table: string, n: nat): string {
    "Loaded " + table + " (" + NatToString(n) + " rows)"
  }

  function ErrorMsg(reason: string): string {
    "LOAD ERROR: " + reason
  }

  /** `DROP TABLE IF EXISTS` on the four clean tables; every other table is kept. */
  function Dropped(db: Db): (r: Db)
    ensures forall t :: t in r <==> t in db && t !in CleanTables
    ensures forall t :: t in r ==> r[t] == db[t]
  {
    map t | t in db && t !in CleanTables :: db[t]
  }

  /** The exception of the first clean file that cannot be read, if any. */
  function ReadError(files: CleanFiles): Option<string> {
    if files.sales.ReadFailed? then Some(files.sales.reason)
    else if files.features.ReadFailed? then Some(files.features.reason)
    else if files.stores.ReadFailed? then Some(files.stores.reason)
    else if files.full.ReadFailed? then Some(files.full.reason)
    else None
  }

  /** The four frames read, when every read succeeded. */
  function FramesOf(files: CleanFiles): (fs: seq<Frame>)
    requires ReadError(files).None?
    ensures |fs| == |CleanTables|
  {
    [files.sales.frame, files.features.frame, files.stores.frame, files.full.frame]
  }

  /** The index of the first write the database rejects, from write `i` on; 4 if it accepts them all. */
  function WriteCount(frames: seq<Frame>, rejects: (string, Frame) -> Option<WriteFault>, i: nat): (k: nat)
    requires |frames| == |CleanTables| && i <= |CleanTables|
    ensures i <= k <= |CleanTables|
    ensures forall j :: i <= j < k ==> rejects(CleanTables[j], frames[j]).None?
    ensures k < |CleanTables| ==> rejects(CleanTables[k], frames[k]).Some?
    decreases |CleanTables| - i
  {
    if i == |CleanTables| then i
    else if rejects(CleanTables[i], frames[i]).Some? then i
    else WriteCount(frames, rejects, i + 1)
  }

  /** What a rejected replace write leaves of `table`: an empty table if it was created, else what was there. */
  function Failed(d: Db, table: string, fault: WriteFault): Db {
    if fault.created then d[table := []] else d
  }

  /** The first `k` tables replaced by the first `k` frames. */
  function Replaced(d: Db, frames: seq<Frame>, k: nat): Db
    requires k <= |frames| <= |CleanTables|
  {
    if k == 0 then d else Replaced(d, frames, k - 1)[CleanTables[k - 1] := ToRecords(frames[k - 1])]
  }

  /** The exception of the first rejected write, if any. */
  function WriteError(frames: seq<Frame>, rejects: (string, Frame) -> Option<WriteFault>): Option<string>
    requires |frames| == |CleanTables|
  {
    var k := WriteCount(frames, rejects, 0);
    if k < |CleanTables| then Some(rejects(CleanTables[k], frames[k]).value.reason) else None
  }

  /** The database after the four writes: tables before the first rejected write replaced, that one as it failed. */
  function Written(d: Db, frames: seq<Frame>, rejects: (string, Frame) -> Option<WriteFault>): Db
    requires |frames| == |CleanTables|
  {
    var k := WriteCount(frames, rejects, 0);
    var done := Replaced(d, frames, k);
    if k < |CleanTables| then Failed(done, CleanTables[k], rejects(CleanTables[k], frames[k]).value) else done
  }

  /** The exception raised after the drops: the first failed read, else the first rejected write. */
  function FilesError(files: CleanFiles, rejects: (string, Frame) -> Option<WriteFault>): Option<string> {
    if ReadError(files).Some? then ReadError(files) else WriteError(FramesOf(files), rejects)
  }

  /** The database after the reads and writes, starting from the dropped database `d`. */
  function AfterDrop(d: Db, files: CleanFiles, rejects: (string, Frame) -> Option<WriteFault>): Db {
    if ReadError(files).Some? then d else Written(d, FramesOf(files), rejects)
  }

  /** The exception of the `with engine.begin()` block: opening the connection, else a drop. */
  function DropError(faults: DbFaults): Option<string> {
    if faults.connect.Some? then faults.connect else faults.drop
  }

  /** The exception `main` re-raises, if any. */
  function LoadError(files: CleanFiles, faults: DbFaults): Option<string> {
    if DropError(faults).Some? then DropError(faults) else FilesError(files, faults.rejects)
  }

  /** The database after `main`. */
  function DbAfter(db: Db, files: CleanFiles, faults: DbFaults): Db {
    if DropError(faults).Some? then db else AfterDrop(Dropped(db), files, faults.rejects)
  }

  /** The row-count lines, one per table, in write order. */
  function LoadedLines(frames: seq<Frame>): (lines: seq<string>)
    requires |frames| == |CleanTables|
    ensures |lines| == |CleanTables|
  {
    [LoadedMsg(CleanTables[0], |frames[0].rows|), LoadedMsg(CleanTables[1], |frames[1].rows|),
     LoadedMsg(CleanTables[2], |frames[2].rows|), LoadedMsg(CleanTables[3], |frames[3].rows|)]
  }

  /** The lines `main` logs. */
  function LoadLog(files: CleanFiles, faults: DbFaults): seq<string> {
    [Started] + (if faults.connect.Some? then [] else [Dropping])
      + match LoadError(files, faults)
        case Some(e) => [ErrorMsg(e)]
        case None => LoadedLines(FramesOf(files)) + [Completed]
  }

  class Loader {
    var db: Db
    var log: seq<string>

    constructor (db: Db, log: seq<string>)
      ensures this.db == db && this.log == log
    {
      this.db := db;
      this.log := log;
    }

    /** `log(msg)`: one line appended to the log file. */
    method Log(msg: string)
      modifies this
      ensures log == old(log) + [msg] && db == old(db)
    {
      log := log + [msg];
    }

    /**
     * The `with engine.begin()` block: opening the connection, then the
     * notice, then four drops committed together, or none.
     */
    method DropCleanTables(connect: Option<string>, drop: Option<string>) returns (err: Option<string>)
      modifies this
      ensures err == if connect.Some? then connect else drop
      ensures log == old(log) + if connect.Some? then [] else [Dropping]
      ensures db == if err.None? then Dropped(old(db)) else old(db)
    {
      if connect.Some? {
        return connect;
      }
      Log(Dropping);
      err := drop;
      if drop.None? {
        db := map t | t in db && t !in CleanTables :: db[t];
      }
    }

    /** `df.to_sql(table, engine, if_exists="replace")` */
    method ReplaceTable(table: string, frame: Frame, rejects: (string, Frame) -> Option<WriteFault>) returns (err: Option<string>)
      modifies this
      ensures log == old(log)
      ensures match rejects(table, frame)
        case None => err.None? && db == old(db)[table := ToRecords(frame)]
        case Some(fault) => err == Some(fault.reason) && db == Failed(old(db), table, fault)
    {
      var fault := rejects(table, frame);
      if fault.None? {
        db := db[table := ToRecords(frame)];
        err := None;
      } else {
        if fault.value.created {
          db := db[table := []];
        }
        err := Some(fault.value.reason);
      }
    }

    /** The four replace writes of `main`; the first rejected one raises. */
    method WriteAll(frames: seq<Frame>, rejects: (string, Frame) -> Option<WriteFault>) returns (err: Option<string>)
      requires |frames| == |CleanTables|
      modifies this
      ensures db == Written(old(db), frames, rejects) && log == old(log) && err == WriteError(frames, rejects)
    {
      ghost var k := WriteCount(frames, rejects, 0);
      err := ReplaceTable(CleanTables[0], frames[0], rejects);
      if err.Some? {
        assert k == 0;
        return;
      }
      assert db == Replaced(old(db), frames, 1);
      err := ReplaceTable(CleanTables[1], frames[1], rejects);
      if err.Some? {
        assert k == 1;
        return;
      }
      assert db == Replaced(old(db), frames, 2);
      err := ReplaceTable(CleanTables[2], frames[2], rejects);
      if err.Some? {
        assert k == 2;
        return;
      }
      assert db == Replaced(old(db), frames, 3);
      err := ReplaceTable(CleanTables[3], frames[3], rejects);
      if err.Some? {
        assert k == 3;
        return;
      }
      assert k == 4;
    }

    /** Everything after the drops: the four reads, the four writes and the row-count lines. */
    method LoadFiles(files: CleanFiles, rejects: (string, Frame) -> Option<WriteFault>) returns (err: Option<string>)
      modifies this
      ensures db == AfterDrop(old(db), files, rejects) && err == FilesError(files, rejects)
      ensures log == old(log) + if err.None? then LoadedLines(FramesOf(files)) else []
    {
      err := ReadError(files);
      if err.Some? {
        return;
      }
      var frames := [files.sales.frame, files.features.frame, files.stores.frame, files.full.frame];
      err := WriteAll(frames, rejects);
      if err.None? {
        Log(LoadedMsg(CleanTables[0], |frames[0].rows|));
        Log(LoadedMsg(CleanTables[1], |frames[1].rows|));
        Log(LoadedMsg(CleanTables[2], |frames[2].rows|));
        Log(LoadedMsg(CleanTables[3], |frames[3].rows|));
      }
    }

    /** `main()` of the loader. */
    method Run(files: CleanFiles, faults: DbFaults) returns (err: Option<string>)
      modifies this
      ensures db == DbAfter(old(db), files, faults)
      ensures log == old(log) + LoadLog(files, faults)
      ensures err == LoadError(files, faults)
    {
      Log(Started);
      err := DropCleanTables(faults.connect, faults.drop);
      if err.None? {
        err := LoadFiles(files, faults.rejects);
      }
      if err.Some? {
        Log(ErrorMsg(err.value));
      } else {
        Log(Completed);
      }
    }
  }
}
