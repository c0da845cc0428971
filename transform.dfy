/**
 * The transformer (scripts/transform.py): reads the raw sales, features and
 * stores files, normalises and renames their columns, writes one clean file
 * per source and builds the fact dataset with two left joins.
 */
module Transform {
  import opened Wrappers
  import opened Text
  import opened Frames
  import Join

  /** `df.columns.str.strip().str.lower()` applied to one label. */
  function NormalizeLabel(c: string): string {
    Lower(Strip(c))
  }

  /** `normalize(df)`: every label trimmed and lower-cased; rows, count and order kept. */
  function Normalize(f: Frame): (r: Frame)
    ensures r.rows == f.rows && |r.columns| == |f.columns|
    ensures forall i :: 0 <= i < |f.columns| ==> r.columns[i] == Lower(Strip(f.columns[i]))
    ensures forall i :: 0 <= i < |r.columns| ==> Trimmed(r.columns[i]) && NoUpper(r.columns[i])
  {
    var r := MapColumns(f, NormalizeLabel);
    forall i | 0 <= i < |r.columns| ensures Trimmed(r.columns[i]) {
      LowerKeepsTrimmed(Strip(f.columns[i]));
    }
    r
  }

  const SalesRenames: map<string, string> := map[
    "store" := "store",
    "dept" := "dept",
    "date" := "sale_date",
    "weekly_sales" := "weekly_sales",
    "isholiday" := "is_holiday"
  ]

  const FeatureRenames: map<string, string> := map[
    "store" := "store",
    "date" := "feature_date",
    "temperature" := "temperature",
    "fuel_price" := "fuel_price",
    "markdown1" := "markdown1",
    "markdown2" := "markdown2",
    "markdown3" := "markdown3",
    "markdown4" := "markdown4",
    "markdown5" := "markdown5",
    "cpi" := "cpi",
    "unemployment" := "unemployment",
    "isholiday" := "is_holiday"
  ]

  const StoreRenames: map<string, string> := map[
    "store" := "store",
    "type" := "store_type",
    "size" := "size"
  ]

  /** The clean label a raw header gets: normalised, then renamed. */
  function CleanLabel(c: string, renames: map<string, string>): string {
    Renamed(NormalizeLabel(c), renames)
  }

  function CleanSales(raw: Frame): Frame { Rename(Normalize(raw), SalesRenames) }

  function CleanFeatures(raw: Frame): Frame { Rename(Normalize(raw), FeatureRenames) }

  function CleanStores(raw: Frame): Frame { Rename(Normalize(raw), StoreRenames) }

  /** A label of the canonical schema: no surrounding whitespace and no upper-case letter. */
  predicate Canonical(c: string) {
    Trimmed(c) && NoUpper(c)
  }

  predicate CanonicalTargets(renames: map<string, string>) {
    forall k :: k in renames ==> Canonical(renames[k])
  }

  lemma RenameMapsAreCanonical()
    ensures CanonicalTargets(SalesRenames)
    ensures CanonicalTargets(FeatureRenames)
    ensures CanonicalTargets(StoreRenames)
  {
    SalesTargetsCanonical();
    FeatureTargetsCanonical();
    StoreTargetsCanonical();
  }

  lemma SalesTargetsCanonical()
    ensures CanonicalTargets(SalesRenames)
  {
    forall k | k in SalesRenames ensures SalesRenames[k] in {"store", "dept", "sale_date", "weekly_sales", "is_holiday"} {
    }
    assert Canonical("store") && Canonical("dept") && Canonical("sale_date");
    assert Canonical("weekly_sales") && Canonical("is_holiday");
  }

  lemma FeatureTargetsCanonical()
    ensures CanonicalTargets(FeatureRenames)
  {
    FeatureTargetsCanonicalA();
    FeatureTargetsCanonicalB();
    forall k | k in FeatureRenames ensures Canonical(FeatureRenames[k]) {
    }
  }

  lemma FeatureTargetsCanonicalA()
    ensures Canonical("store") && Canonical("feature_date") && Canonical("temperature")
    ensures Canonical("fuel_price") && Canonical("markdown1") && Canonical("markdown2")
  {
  }

  lemma FeatureTargetsCanonicalB()
    ensures Canonical("markdown3") && Canonical("markdown4") && Canonical("markdown5")
    ensures Canonical("cpi") && Canonical("unemployment") && Canonical("is_holiday")
  {
  }

  lemma StoreTargetsCanonical()
    ensures CanonicalTargets(StoreRenames)
  {
    forall k | k in StoreRenames ensures StoreRenames[k] in {"store", "store_type", "size"} {
    }
    assert Canonical("store") && Canonical("store_type") && Canonical("size");
  }

  /**
   * Whatever the raw header, a clean label is canonical: the renaming maps
   * only produce lower-case trimmed names and every other label is already
   * normalised.
   */
  lemma CleanLabelsCanonical(raw: Frame)
    ensures forall i :: 0 <= i < |CleanSales(raw).columns| ==> Canonical(CleanSales(raw).columns[i])
    ensures forall i :: 0 <= i < |CleanFeatures(raw).columns| ==> Canonical(CleanFeatures(raw).columns[i])
    ensures forall i :: 0 <= i < |CleanStores(raw).columns| ==> Canonical(CleanStores(raw).columns[i])
  {
    RenameMapsAreCanonical();
    var n := Normalize(raw);
    assert forall i :: 0 <= i < |n.columns| ==> Canonical(n.columns[i]);
  }

  /** A header differs from its clean label only by padding and letter case. */
  lemma {:induction false} CleanLabelIgnoresCaseAndPadding(front: string, s: string, back: string, renames: map<string, string>)
    requires AllSpace(front) && AllSpace(back) && Trimmed(s)
    ensures CleanLabel(front + s + back, renames) == Renamed(Lower(s), renames)
  {
    StripRemovesPadding(front, s, back);
  }

  lemma {:induction false} LowerOfLetterIsTrimmed(s: string)
    requires |s| >= 1 && 'a' <= Lower(s)[0] <= 'z' && 'a' <= Lower(s)[|s| - 1] <= 'z'
    ensures Trimmed(s)
  {
    assert Lower(s)[0] == LowerChar(s[0]);
    assert Lower(s)[|s| - 1] == LowerChar(s[|s| - 1]);
  }

  /**
   * Canonical renaming: a sales header spelling `store` or `date` in any
   * letter case and with any surrounding whitespace ends up as `store` and
   * `sale_date` in the clean sales file.
   */
  lemma SalesHeadersCanonical(front: string, s: string, back: string)
    requires AllSpace(front) && AllSpace(back)
    requires Lower(s) == "store" || Lower(s) == "date" || Lower(s) == "isholiday"
    ensures Lower(s) == "store" ==> CleanLabel(front + s + back, SalesRenames) == "store"
    ensures Lower(s) == "date" ==> CleanLabel(front + s + back, SalesRenames) == "sale_date"
    ensures Lower(s) == "isholiday" ==> CleanLabel(front + s + back, SalesRenames) == "is_holiday"
  {
    SalesRenamesLookups();
    LowerOfLetterIsTrimmed(s);
    CleanLabelIgnoresCaseAndPadding(front, s, back, SalesRenames);
  }

  lemma SalesRenamesLookups()
    ensures "store" in SalesRenames && SalesRenames["store"] == "store"
    ensures "date" in SalesRenames && SalesRenames["date"] == "sale_date"
    ensures "isholiday" in SalesRenames && SalesRenames["isholiday"] == "is_holiday"
  {
  }

  /** The same for `date` in the features file ... */
  lemma FeatureHeadersCanonical(front: string, s: string, back: string)
    requires AllSpace(front) && AllSpace(back)
    requires Lower(s) == "date"
    ensures CleanLabel(front + s + back, FeatureRenames) == "feature_date"
  {
    LowerOfLetterIsTrimmed(s);
    CleanLabelIgnoresCaseAndPadding(front, s, back, FeatureRenames);
    assert FeatureRenames["date"] == "feature_date";
  }

  /** ... and for `type` in the stores file. */
  lemma StoreHeadersCanonical(front: string, s: string, back: string)
    requires AllSpace(front) && AllSpace(back)
    requires Lower(s) == "type"
    ensures CleanLabel(front + s + back, StoreRenames) == "store_type"
  {
    LowerOfLetterIsTrimmed(s);
    CleanLabelIgnoresCaseAndPadding(front, s, back, StoreRenames);
  }

  /** Labels that no renaming map names keep their normalised form. */
  lemma UnmappedLabelsKept(c: string)
    requires NormalizeLabel(c) !in SalesRenames
    ensures CleanLabel(c, SalesRenames) == NormalizeLabel(c)
  {
  }

  // ---------- the fact dataset ----------

  datatype TransformError =
    | MissingRawFile(file: string)
    | MissingKey(frame: string, column: string)
    | DuplicateKey(frame: string, column: string)

  /** The cell of `row` under the first column labelled `name`. */
  function ColumnValue(columns: seq<string>, row: Row, name: string): Cell {
    CellAt(row, IndexOf(columns, name))
  }

  /** The join key of a row: its values under the key columns, in key order. */
  function KeyOf(columns: seq<string>, names: seq<string>, row: Row): (k: seq<Cell>)
    ensures |k| == |names|
    ensures forall j :: 0 <= j < |names| ==> k[j] == ColumnValue(columns, row, names[j])
  {
    seq(|names|, j requires 0 <= j < |names| => ColumnValue(columns, row, names[j]))
  }

  function KeyFn(columns: seq<string>, names: seq<string>): Row -> seq<Cell> {
    row => KeyOf(columns, names, row)
  }

  const SalesKey: seq<string> := ["store", "sale_date"]
  const FeatureKey: seq<string> := ["store", "feature_date"]
  const StoreKey: seq<string> := ["store"]

  /** pandas refuses a merge key that is absent (KeyError) or not unique (ValueError). */
  function KeyCheck(frame: string, f: Frame, column: string): (e: Option<TransformError>)
    ensures e.None? <==> Occurrences(f.columns, column) == 1
  {
    var n := Occurrences(f.columns, column);
    if n == 0 then Some(MissingKey(frame, column))
    else if n > 1 then Some(DuplicateKey(frame, column))
    else None
  }

  /** Every key column the two merges use is present exactly once. */
  predicate KeysUsable(sales: Frame, features: Frame, stores: Frame) {
    && Occurrences(sales.columns, "store") == 1
    && Occurrences(sales.columns, "sale_date") == 1
    && Occurrences(features.columns, "store") == 1
    && Occurrences(features.columns, "feature_date") == 1
    && Occurrences(stores.columns, "store") == 1
  }

  /**
   * The first unusable key column, in the order pandas looks them up: for
   * each key pair of a merge the right frame's label before the left
   * frame's, so features.store, sales.store, features.feature_date,
   * sales.sale_date, and then stores.store for the second merge.
   */
  function KeyProblem(sales: Frame, features: Frame, stores: Frame): (e: Option<TransformError>)
    ensures e.None? <==> KeysUsable(sales, features, stores)
  {
    var checks := [
      KeyCheck("features", features, "store"), KeyCheck("sales", sales, "store"),
      KeyCheck("features", features, "feature_date"), KeyCheck("sales", sales, "sale_date"),
      KeyCheck("stores", stores, "store")];
    if checks[0].Some? then checks[0]
    else if checks[1].Some? then checks[1]
    else if checks[2].Some? then checks[2]
    else if checks[3].Some? then checks[3]
    else checks[4]
  }

  /** One row of the fact dataset: the sales row and the feature and store rows joined to it. */
  datatype FactRow = FactRow(sale: Row, feature: Option<Row>, store: Option<Row>)

  /** First merge: sales × features on (store, sale_date = feature_date), how="left". */
  function FeatureJoin(sales: Frame, features: Frame): seq<(Row, Option<Row>)> {
    Join.LeftJoin(sales.rows, KeyFn(sales.columns, SalesKey), features.rows, KeyFn(features.columns, FeatureKey))
  }

  /** The store key of a merged row is the sales row's `store` (pandas keeps one `store` column). */
  function MergedStoreKey(salesColumns: seq<string>): ((Row, Option<Row>)) -> seq<Cell> {
    (p: (Row, Option<Row>)) => KeyOf(salesColumns, StoreKey, p.0)
  }

  /** Second merge: (sales × features) × stores on `store`, how="left". */
  function StoreJoin(sales: Frame, merged: seq<(Row, Option<Row>)>, stores: Frame): seq<((Row, Option<Row>), Option<Row>)> {
    Join.LeftJoin(merged, MergedStoreKey(sales.columns), stores.rows, KeyFn(stores.columns, StoreKey))
  }

  function ToFacts(joined: seq<((Row, Option<Row>), Option<Row>)>): (facts: seq<FactRow>)
    ensures |facts| == |joined|
  {
    seq(|joined|, i requires 0 <= i < |joined| => FactRow(joined[i].0.0, joined[i].0.1, joined[i].1))
  }

  /** `build_full_dataset(sales, features, stores)` */
  function BuildFullDataset(sales: Frame, features: Frame, stores: Frame): (r: Result<seq<FactRow>, TransformError>)
    ensures r.Success? <==> KeysUsable(sales, features, stores)
    ensures r.Failure? ==> Some(r.error) == KeyProblem(sales, features, stores)
  {
    match KeyProblem(sales, features, stores)
    case Some(e) => Failure(e)
    case None => Success(ToFacts(StoreJoin(sales, FeatureJoin(sales, features), stores)))
  }

  /**
   * pandas looks up the features frame's `store` first, so a features frame
   * without it fails with that KeyError whatever is wrong with the sales keys.
   */
  lemma FeatureStoreLookedUpFirst(sales: Frame, features: Frame, stores: Frame)
    requires Occurrences(features.columns, "store") == 0
    ensures BuildFullDataset(sales, features, stores) == Failure(MissingKey("features", "store"))
  {
  }

  /** A feature row matches a sales row iff the stores agree and `sale_date == feature_date`. */
  predicate FeatureMatches(sales: Frame, features: Frame, s: Row, f: Row) {
    && ColumnValue(sales.columns, s, "store") == ColumnValue(features.columns, f, "store")
    && ColumnValue(sales.columns, s, "sale_date") == ColumnValue(features.columns, f, "feature_date")
  }

  /** A store row matches a sales row iff the stores agree. */
  predicate StoreMatches(sales: Frame, stores: Frame, s: Row, t: Row) {
    ColumnValue(sales.columns, s, "store") == ColumnValue(stores.columns, t, "store")
  }

  lemma FeatureKeyMeaning(sales: Frame, features: Frame, s: Row, f: Row)
    ensures KeyFn(sales.columns, SalesKey)(s) == KeyFn(features.columns, FeatureKey)(f) <==> FeatureMatches(sales, features, s, f)
  {
    var a, b := KeyOf(sales.columns, SalesKey, s), KeyOf(features.columns, FeatureKey, f);
    assert KeyFn(sales.columns, SalesKey)(s) == a && KeyFn(features.columns, FeatureKey)(f) == b;
    assert SalesKey[0] == FeatureKey[0] == "store" && SalesKey[1] == "sale_date" && FeatureKey[1] == "feature_date";
    if FeatureMatches(sales, features, s, f) {
      assert a[0] == b[0] && a[1] == b[1];
      assert a == b;
    }
  }

  lemma StoreKeyMeaning(sales: Frame, stores: Frame, s: Row, t: Row)
    ensures KeyOf(sales.columns, StoreKey, s) == KeyFn(stores.columns, StoreKey)(t) <==> StoreMatches(sales, stores, s, t)
  {
    var a, b := KeyOf(sales.columns, StoreKey, s), KeyOf(stores.columns, StoreKey, t);
    assert KeyFn(stores.columns, StoreKey)(t) == b;
    assert StoreKey[0] == "store";
    if StoreMatches(sales, stores, s, t) {
      assert a[0] == b[0];
      assert a == b;
    }
  }

  /** The features file has at most one row per (store, feature_date). */
  predicate FeaturesUnique(features: Frame) {
    Join.UniqueKeys(features.rows, KeyFn(features.columns, FeatureKey))
  }

  /** The stores file has at most one row per store. */
  predicate StoresUnique(stores: Frame) {
    Join.UniqueKeys(stores.rows, KeyFn(stores.columns, StoreKey))
  }

  function Sales(facts: seq<FactRow>): (ss: seq<Row>)
    ensures |ss| == |facts|
  {
    seq(|facts|, i requires 0 <= i < |facts| => facts[i].sale)
  }

  /** Every sales row survives both left joins, so the fact dataset is never shorter than the sales data. */
  lemma FactKeepsEverySale(sales: Frame, features: Frame, stores: Frame)
    requires BuildFullDataset(sales, features, stores).Success?
    ensures |BuildFullDataset(sales, features, stores).value| >= |sales.rows|
    ensures forall s :: s in sales.rows ==> s in Sales(BuildFullDataset(sales, features, stores).value)
  {
    var j1 := FeatureJoin(sales, features);
    var j2 := StoreJoin(sales, j1, stores);
    var full := ToFacts(j2);
    Join.JoinAtLeastLeft(sales.rows, KeyFn(sales.columns, SalesKey), features.rows, KeyFn(features.columns, FeatureKey));
    Join.JoinAtLeastLeft(j1, MergedStoreKey(sales.columns), stores.rows, KeyFn(stores.columns, StoreKey));
    Join.JoinComplete(sales.rows, KeyFn(sales.columns, SalesKey), features.rows, KeyFn(features.columns, FeatureKey));
    Join.JoinComplete(j1, MergedStoreKey(sales.columns), stores.rows, KeyFn(stores.columns, StoreKey));
    forall s | s in sales.rows ensures s in Sales(full) {
      var a :| 0 <= a < |j1| && Join.Lefts(j1)[a] == s;
      assert j1[a] in j1;
      var b :| 0 <= b < |j2| && Join.Lefts(j2)[b] == j1[a];
      assert Sales(full)[b] == s;
    }
  }

  /**
   * Join cardinality: with features unique per (store, feature_date) and
   * stores unique per store, the fact dataset has exactly one row per sales
   * row, in sales order.
   */
  lemma FactCountUnderUniqueKeys(sales: Frame, features: Frame, stores: Frame)
    requires BuildFullDataset(sales, features, stores).Success?
    requires FeaturesUnique(features) && StoresUnique(stores)
    ensures |BuildFullDataset(sales, features, stores).value| == |sales.rows|
    ensures Sales(BuildFullDataset(sales, features, stores).value) == sales.rows
  {
    var j1 := FeatureJoin(sales, features);
    var j2 := StoreJoin(sales, j1, stores);
    var full := ToFacts(j2);
    Join.UniqueJoinKeepsLeft(sales.rows, KeyFn(sales.columns, SalesKey), features.rows, KeyFn(features.columns, FeatureKey));
    Join.UniqueJoinKeepsLeft(j1, MergedStoreKey(sales.columns), stores.rows, KeyFn(stores.columns, StoreKey));
    forall i | 0 <= i < |full| ensures Sales(full)[i] == sales.rows[i] {
      assert Join.Lefts(j2)[i] == j1[i];
      assert Join.Lefts(j1)[i] == sales.rows[i];
    }
  }

  /**
   * The fan-out is observable: a sales row matching two feature rows, or two
   * store rows, makes the fact dataset strictly longer than the sales data.
   */
  lemma FactFanOutDetectable(sales: Frame, features: Frame, stores: Frame, i: nat, a: nat, b: nat)
    requires BuildFullDataset(sales, features, stores).Success?
    requires i < |sales.rows|
    requires || (a < b < |features.rows| && FeatureMatches(sales, features, sales.rows[i], features.rows[a])
                                          && FeatureMatches(sales, features, sales.rows[i], features.rows[b]))
             || (a < b < |stores.rows| && StoreMatches(sales, stores, sales.rows[i], stores.rows[a])
                                        && StoreMatches(sales, stores, sales.rows[i], stores.rows[b]))
    ensures |BuildFullDataset(sales, features, stores).value| > |sales.rows|
  {
    var lk1, rk1 := KeyFn(sales.columns, SalesKey), KeyFn(features.columns, FeatureKey);
    var lk2, rk2 := MergedStoreKey(sales.columns), KeyFn(stores.columns, StoreKey);
    var j1 := FeatureJoin(sales, features);
    Join.JoinAtLeastLeft(sales.rows, lk1, features.rows, rk1);
    Join.JoinAtLeastLeft(j1, lk2, stores.rows, rk2);
    if a < b < |features.rows| && FeatureMatches(sales, features, sales.rows[i], features.rows[a])
                               && FeatureMatches(sales, features, sales.rows[i], features.rows[b]) {
      FeatureKeyMeaning(sales, features, sales.rows[i], features.rows[a]);
      FeatureKeyMeaning(sales, features, sales.rows[i], features.rows[b]);
      Join.FanOutGrowsJoin(sales.rows, lk1, features.rows, rk1, i, a, b);
    } else {
      StoreKeyMeaning(sales, stores, sales.rows[i], stores.rows[a]);
      StoreKeyMeaning(sales, stores, sales.rows[i], stores.rows[b]);
      Join.JoinComplete(sales.rows, lk1, features.rows, rk1);
      assert sales.rows[i] in sales.rows;
      var c :| 0 <= c < |j1| && Join.Lefts(j1)[c] == sales.rows[i];
      assert lk2(j1[c]) == KeyOf(sales.columns, StoreKey, sales.rows[i]);
      Join.FanOutGrowsJoin(j1, lk2, stores.rows, rk2, c, a, b);
    }
  }

  /**
   * Every fact row joins a sales row with a feature row that matches it, or
   * with nothing when no feature row matches; likewise for the store row.
   */
  lemma FactRowsMatch(sales: Frame, features: Frame, stores: Frame)
    requires BuildFullDataset(sales, features, stores).Success?
    ensures forall r :: r in BuildFullDataset(sales, features, stores).value ==>
      && r.sale in sales.rows
      && (r.feature.Some? ==> r.feature.value in features.rows && FeatureMatches(sales, features, r.sale, r.feature.value))
      && (r.feature.None? ==> forall f :: f in features.rows ==> !FeatureMatches(sales, features, r.sale, f))
      && (r.store.Some? ==> r.store.value in stores.rows && StoreMatches(sales, stores, r.sale, r.store.value))
      && (r.store.None? ==> forall t :: t in stores.rows ==> !StoreMatches(sales, stores, r.sale, t))
  {
    var j1 := FeatureJoin(sales, features);
    var j2 := StoreJoin(sales, j1, stores);
    var full := ToFacts(j2);
    forall r | r in full
      ensures r.sale in sales.rows
      ensures r.feature.Some? ==> r.feature.value in features.rows && FeatureMatches(sales, features, r.sale, r.feature.value)
      ensures r.feature.None? ==> forall f :: f in features.rows ==> !FeatureMatches(sales, features, r.sale, f)
      ensures r.store.Some? ==> r.store.value in stores.rows && StoreMatches(sales, stores, r.sale, r.store.value)
      ensures r.store.None? ==> forall t :: t in stores.rows ==> !StoreMatches(sales, stores, r.sale, t)
    {
      var k :| 0 <= k < |full| && full[k] == r;
      var q := j2[k];
      assert q in j2;
      StoreSide(sales, j1, stores, q);
      FeatureSide(sales, features, q.0);
      assert r.sale == q.0.0 && r.feature == q.0.1 && r.store == q.1;
    }
  }

  /** A row of the first merge: a sales row with a matching feature row, or with none when no feature row matches. */
  lemma FeatureSide(sales: Frame, features: Frame, p: (Row, Option<Row>))
    requires p in FeatureJoin(sales, features)
    ensures p.0 in sales.rows
    ensures p.1.Some? ==> p.1.value in features.rows && FeatureMatches(sales, features, p.0, p.1.value)
    ensures p.1.None? ==> forall f :: f in features.rows ==> !FeatureMatches(sales, features, p.0, f)
  {
    Join.JoinSound(sales.rows, KeyFn(sales.columns, SalesKey), features.rows, KeyFn(features.columns, FeatureKey));
    if p.1.Some? {
      FeatureKeyMeaning(sales, features, p.0, p.1.value);
    }
    forall f | f in features.rows ensures p.1.None? ==> !FeatureMatches(sales, features, p.0, f) {
      FeatureKeyMeaning(sales, features, p.0, f);
    }
  }

  /** A row of the second merge: a merged row with a store row matching its sale, or with none when no store row matches. */
  lemma StoreSide(sales: Frame, merged: seq<(Row, Option<Row>)>, stores: Frame, q: ((Row, Option<Row>), Option<Row>))
    requires q in StoreJoin(sales, merged, stores)
    ensures q.0 in merged
    ensures q.1.Some? ==> q.1.value in stores.rows && StoreMatches(sales, stores, q.0.0, q.1.value)
    ensures q.1.None? ==> forall t :: t in stores.rows ==> !StoreMatches(sales, stores, q.0.0, t)
  {
    Join.JoinSound(merged, MergedStoreKey(sales.columns), stores.rows, KeyFn(stores.columns, StoreKey));
    assert MergedStoreKey(sales.columns)(q.0) == KeyOf(sales.columns, StoreKey, q.0.0);
    if q.1.Some? {
      StoreKeyMeaning(sales, stores, q.0.0, q.1.value);
    }
    forall t | t in stores.rows ensures q.1.None? ==> !StoreMatches(sales, stores, q.0.0, t) {
      StoreKeyMeaning(sales, stores, q.0.0, t);
    }
  }

  /** A sales row that no feature row matches still appears, with the feature side missing. */
  lemma UnmatchedSaleKept(sales: Frame, features: Frame, stores: Frame, s: Row)
    requires BuildFullDataset(sales, features, stores).Success?
    requires s in sales.rows
    requires forall f :: f in features.rows ==> !FeatureMatches(sales, features, s, f)
    ensures exists r :: r in BuildFullDataset(sales, features, stores).value && r.sale == s && r.feature.None?
  {
    var lk1, rk1 := KeyFn(sales.columns, SalesKey), KeyFn(features.columns, FeatureKey);
    var lk2, rk2 := MergedStoreKey(sales.columns), KeyFn(stores.columns, StoreKey);
    var j1 := FeatureJoin(sales, features);
    var j2 := StoreJoin(sales, j1, stores);
    var full := ToFacts(j2);
    forall f | f in features.rows ensures rk1(f) != lk1(s) {
      FeatureKeyMeaning(sales, features, s, f);
    }
    Join.JoinComplete(sales.rows, lk1, features.rows, rk1);
    var i :| 0 <= i < |sales.rows| && sales.rows[i] == s;
    assert (s, None) in j1;
    Join.JoinComplete(j1, lk2, stores.rows, rk2);
    var b :| 0 <= b < |j2| && Join.Lefts(j2)[b] == (s, None);
    assert full[b] in full;
  }

  /** A sales row that no store row matches still appears, with the store side missing. */
  lemma UnmatchedStoreKept(sales: Frame, features: Frame, stores: Frame, s: Row)
    requires BuildFullDataset(sales, features, stores).Success?
    requires s in sales.rows
    requires forall t :: t in stores.rows ==> !StoreMatches(sales, stores, s, t)
    ensures exists r :: r in BuildFullDataset(sales, features, stores).value && r.sale == s && r.store.None?
  {
    var lk1, rk1 := KeyFn(sales.columns, SalesKey), KeyFn(features.columns, FeatureKey);
    var lk2, rk2 := MergedStoreKey(sales.columns), KeyFn(stores.columns, StoreKey);
    var j1 := FeatureJoin(sales, features);
    var j2 := StoreJoin(sales, j1, stores);
    var full := ToFacts(j2);
    Join.JoinComplete(sales.rows, lk1, features.rows, rk1);
    var a :| 0 <= a < |j1| && Join.Lefts(j1)[a] == s;
    assert lk2(j1[a]) == KeyOf(sales.columns, StoreKey, s);
    forall t | t in stores.rows ensures rk2(t) != lk2(j1[a]) {
      StoreKeyMeaning(sales, stores, s, t);
    }
    Join.JoinComplete(j1, lk2, stores.rows, rk2);
    assert (j1[a], None) in j2;
    var b :| 0 <= b < |j2| && j2[b] == (j1[a], None);
    assert full[b] in full;
  }

  // ---------- the transform step ----------

  /** What a clean file holds: a renamed source frame, or the fact dataset. */
  datatype CleanFile = TableFile(frame: Frame) | FactFile(facts: seq<FactRow>)

  function Rows(c: CleanFile): nat {
    match c
    case TableFile(f) => |f.rows|
    case FactFile(facts) => |facts|
  }

  /** The files written, in write order, and the error that ended the step, if any. */
  datatype TransformRun = TransformRun(written: seq<(string, CleanFile)>, error: Option<TransformError>)

  /**
   * `main()` of the transformer. A raw file that cannot be read (None)
   * raises before anything is written; the three clean files are written
   * before the fact dataset is built, so a failing merge leaves them behind.
   */
  function TransformMain(train: Option<Frame>, features: Option<Frame>, stores: Option<Frame>): TransformRun {
    if train.None? then TransformRun([], Some(MissingRawFile("train.csv")))
    else if features.None? then TransformRun([], Some(MissingRawFile("features.csv")))
    else if stores.None? then TransformRun([], Some(MissingRawFile("stores.csv")))
    else SaveAndBuild(CleanSales(train.value), CleanFeatures(features.value), CleanStores(stores.value))
  }

  /** The rest of `main()` once the three frames are renamed: save them, then build and save the fact dataset. */
  function SaveAndBuild(s: Frame, f: Frame, t: Frame): TransformRun {
    var clean := [("sales_clean.csv", TableFile(s)), ("features_clean.csv", TableFile(f)), ("stores_clean.csv", TableFile(t))];
    match BuildFullDataset(s, f, t)
    case Failure(e) => TransformRun(clean, Some(e))
    case Success(full) => TransformRun(clean + [("full_dataset_clean.csv", FactFile(full))], None)
  }

  /** The clean files come first, exactly as renamed; the fact file follows iff the merges succeed. */
  lemma SaveAndBuildWrites(s: Frame, f: Frame, t: Frame)
    ensures var run := SaveAndBuild(s, f, t);
      && |run.written| >= 3
      && run.written[0] == ("sales_clean.csv", TableFile(s))
      && run.written[1] == ("features_clean.csv", TableFile(f))
      && run.written[2] == ("stores_clean.csv", TableFile(t))
      && (|run.written| == 4 <==> run.error.None?)
      && (run.error.None? <==> BuildFullDataset(s, f, t).Success?)
      && (run.error.None? ==> run.written[3] == ("full_dataset_clean.csv", FactFile(BuildFullDataset(s, f, t).value)))
  {
  }

  /**
   * The write sequence: nothing is written unless all three raw files load;
   * then the three clean files, holding exactly the renamed frames, come
   * first, and the fact file is written last and only when the merges succeed.
   */
  lemma TransformWriteOrder(train: Option<Frame>, features: Option<Frame>, stores: Option<Frame>)
    ensures var run := TransformMain(train, features, stores);
      && (train.None? || features.None? || stores.None? <==> run.written == [])
      && (train.Some? && features.Some? && stores.Some? ==>
        && |run.written| >= 3
        && run.written[0] == ("sales_clean.csv", TableFile(CleanSales(train.value)))
        && run.written[1] == ("features_clean.csv", TableFile(CleanFeatures(features.value)))
        && run.written[2] == ("stores_clean.csv", TableFile(CleanStores(stores.value)))
        && (|run.written| == 4 <==> run.error.None?)
        && (run.error.None? ==>
          && BuildFullDataset(CleanSales(train.value), CleanFeatures(features.value), CleanStores(stores.value)).Success?
          && run.written[3] == ("full_dataset_clean.csv",
            FactFile(BuildFullDataset(CleanSales(train.value), CleanFeatures(features.value), CleanStores(stores.value)).value))))
  {
    if train.Some? && features.Some? && stores.Some? {
      SaveAndBuildWrites(CleanSales(train.value), CleanFeatures(features.value), CleanStores(stores.value));
    }
  }

  /**
   * The fact file of a successful run has at least as many rows as the clean
   * sales file, and exactly as many when the features and stores are unique
   * on their join keys.
   */
  lemma TransformFactCardinality(train: Frame, features: Frame, stores: Frame)
    requires TransformMain(Some(train), Some(features), Some(stores)).error.None?
    ensures var w := TransformMain(Some(train), Some(features), Some(stores)).written;
      && |w| == 4
      && Rows(w[3].1) >= Rows(w[0].1)
      && (FeaturesUnique(CleanFeatures(features)) && StoresUnique(CleanStores(stores)) ==> Rows(w[3].1) == Rows(w[0].1))
  {
    var s, f, t := CleanSales(train), CleanFeatures(features), CleanStores(stores);
    SaveAndBuildWrites(s, f, t);
    var w := TransformMain(Some(train), Some(features), Some(stores)).written;
    var full := BuildFullDataset(s, f, t).value;
    assert Rows(w[0].1) == |s.rows| && Rows(w[3].1) == |full|;
    FactKeepsEverySale(s, f, t);
    if FeaturesUnique(f) && StoresUnique(t) {
      FactCountUnderUniqueKeys(s, f, t);
    }
  }

}
