/**
 * Tabular data as the pipeline sees it: a data frame is a header of column
 * labels over rows of opaque cells; a row written to a database table is a
 * record that pairs each label with its cell.
 */
module Frames {

  /** A cell's content is opaque to the pipeline; `Null` is pandas' missing value. */
  datatype Cell = Null | Value(text: string)

  type Row = seq<Cell>

  datatype Frame = Frame(columns: seq<string>, rows: seq<Row>)

  datatype Field = Field(column: string, value: Cell)

  /** One row as an SQL insert sees it: column label and value, in header order. */
  type Record = seq<Field>

  /** The cell under column position `i`; missing when the row is shorter than the header. */
  function CellAt(row: Row, i: nat): Cell {
    if i < |row| then row[i] else Null
  }

  /** Position of the first column labelled `name`, or `|columns|` when there is none. */
  function IndexOf(columns: seq<string>, name: string): (k: nat)
    ensures k <= |columns|
    ensures k < |columns| <==> name in columns
    ensures k < |columns| ==> columns[k] == name && name !in columns[..k]
  {
    if columns == [] then 0
    else if columns[0] == name then 0
    else 1 + IndexOf(columns[1..], name)
  }

  /** How many columns carry the label `name`. */
  function Occurrences(columns: seq<string>, name: string): (n: nat)
    ensures n <= |columns|
    ensures n == 0 <==> name !in columns
  {
    if columns == [] then 0
    else (if columns[0] == name then 1 else 0) + Occurrences(columns[1..], name)
  }

  /** The label a column gets from pandas' `DataFrame.rename(columns=renames)`. */
  function Renamed(column: string, renames: map<string, string>): string {
    if column in renames then renames[column] else column
  }

  /** `DataFrame.rename(columns=renames)`: relabels columns, keeps rows, count and order. */
  function Rename(f: Frame, renames: map<string, string>): (r: Frame)
    ensures r.rows == f.rows && |r.columns| == |f.columns|
    ensures forall i :: 0 <= i < |f.columns| ==> r.columns[i] == Renamed(f.columns[i], renames)
  {
    Frame(seq(|f.columns|, i requires 0 <= i < |f.columns| => Renamed(f.columns[i], renames)), f.rows)
  }

  /** Applies `relabel` to every column label, as an assignment to `df.columns` does. */
  function MapColumns(f: Frame, relabel: string -> string): (r: Frame)
    ensures r.rows == f.rows && |r.columns| == |f.columns|
    ensures forall i :: 0 <= i < |f.columns| ==> r.columns[i] == relabel(f.columns[i])
  {
    Frame(seq(|f.columns|, i requires 0 <= i < |f.columns| => relabel(f.columns[i])), f.rows)
  }

  /** The row stretched or cut to `width` cells, as it stands under a header of that width. */
  function Fit(row: Row, width: nat): (r: Row)
    ensures |r| == width
  {
    seq(width, i requires 0 <= i < width => CellAt(row, i))
  }

  /** `df[name] = None` for a column the frame does not have yet. */
  function AddNullColumn(f: Frame, name: string): (r: Frame)
    ensures r.columns == f.columns + [name]
    ensures |r.rows| == |f.rows|
    ensures forall i :: 0 <= i < |f.rows| ==> CellAt(r.rows[i], |f.columns|) == Null
    ensures forall i, j :: 0 <= i < |f.rows| && 0 <= j < |f.columns| ==> CellAt(r.rows[i], j) == CellAt(f.rows[i], j)
  {
    Frame(f.columns + [name],
          seq(|f.rows|, i requires 0 <= i < |f.rows| => Fit(f.rows[i], |f.columns|) + [Null]))
  }

  /** One row as an insert: field `j` carries label `j` and the row's cell under it. */
  function ToRecord(columns: seq<string>, row: Row): (r: Record)
    ensures |r| == |columns|
    ensures forall j :: 0 <= j < |columns| ==> r[j].column == columns[j] && r[j].value == CellAt(row, j)
  {
    seq(|columns|, j requires 0 <= j < |columns| => Field(columns[j], CellAt(row, j)))
  }

  /** The records `DataFrame.to_sql` inserts: one per row, labelled by the header. */
  function ToRecords(f: Frame): (rs: seq<Record>)
    ensures |rs| == |f.rows|
    ensures forall i :: 0 <= i < |f.rows| ==> rs[i] == ToRecord(f.columns, f.rows[i])
  {
    seq(|f.rows|, i requires 0 <= i < |f.rows| => ToRecord(f.columns, f.rows[i]))
  }

  /** The number of rows in a sequence of batches: `sum(len(chunk) for chunk in batches)`. */
  function TotalRows(batches: seq<Frame>): nat {
    if batches == [] then 0 else TotalRows(batches[..|batches| - 1]) + |batches[|batches| - 1].rows|
  }

  /** The rows of all batches, in batch order: what reading the whole file at once sees. */
  function AllRows(batches: seq<Frame>): seq<Row> {
    if batches == [] then [] else AllRows(batches[..|batches| - 1]) + batches[|batches| - 1].rows
  }

  lemma {:induction false} AllRowsCount(batches: seq<Frame>)
    ensures |AllRows(batches)| == TotalRows(batches)
  {
    if batches != [] {
      AllRowsCount(batches[..|batches| - 1]);
    }
  }

  /** The records of all batches, in batch order. */
  function AllRecords(batches: seq<Frame>): seq<Record> {
    if batches == [] then [] else AllRecords(batches[..|batches| - 1]) + ToRecords(batches[|batches| - 1])
  }

  /** Writing a sequence of batches writes exactly as many records as the batches hold rows. */
  lemma {:induction false} AllRecordsCount(batches: seq<Frame>)
    ensures |AllRecords(batches)| == TotalRows(batches)
  {
    if batches != [] {
      AllRecordsCount(batches[..|batches| - 1]);
    }
  }

  lemma {:induction false} TotalRowsAppend(a: seq<Frame>, b: seq<Frame>)
    ensures TotalRows(a + b) == TotalRows(a) + TotalRows(b)
  {
    if b != [] {
      assert (a + b)[..|a + b| - 1] == a + b[..|b| - 1];
      TotalRowsAppend(a, b[..|b| - 1]);
    } else {
      assert a + b == a;
    }
  }

  lemma {:induction false} AllRecordsAppend(a: seq<Frame>, b: seq<Frame>)
    ensures AllRecords(a + b) == AllRecords(a) + AllRecords(b)
  {
    if b != [] {
      assert (a + b)[..|a + b| - 1] == a + b[..|b| - 1];
      AllRecordsAppend(a, b[..|b| - 1]);
    } else {
      assert a + b == a;
    }
  }

  /** Splitting the batches anywhere splits their row count the same way. */
  lemma {:induction false} TotalRowsPrefix(batches: seq<Frame>, k: nat)
    requires k <= |batches|
    ensures TotalRows(batches[..k]) + TotalRows(batches[k..]) == TotalRows(batches)
  {
    assert batches[..k] + batches[k..] == batches;
    TotalRowsAppend(batches[..k], batches[k..]);
  }
}
