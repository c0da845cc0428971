# Retail ETL pipeline: a verified model

This project models the extract → transform → load path of a retail ETL
repository whose scripts are written in Python with pandas and SQLAlchemy.
Four scripts form the path:

- **Staging extractor** (`scripts/extract.py`).
  - It truncates `sales_staging`, `features_staging` and `stores_staging` in one transaction.
  - It appends the batches of `train.csv` and `test.csv` to `sales_staging`, after stripping and renaming their column labels.
  - It appends the batches of `features.csv` to `features_staging`.
  - It appends the whole of `stores.csv` to `stores_staging`.
  - It logs a warning for every missing file, a row count per file, and a completion line or a `DB Load Error` line.
- **Transformer** (`scripts/transform.py`).
  - It trims and lower-cases the column labels of the raw sales, features and stores files and renames them.
  - It writes one clean file per source.
  - It builds the fact dataset with two pandas left joins: sales × features on `(store, sale_date = feature_date)`, then × stores on `store`.
- **Loader** (`scripts/load.py`).
  - It drops the four clean tables in one transaction.
  - It reads the four clean files and replaces the tables one after the other.
  - It logs one row count per table, or `LOAD ERROR` followed by a re-raise.
- **Orchestrator** (`scripts/etl_pipeline.py`). It runs the three scripts in order as subprocesses and stops at the first one that is missing or exits with a nonzero code.

Files and databases are values in the model:

- A data frame is a header of labels over rows of opaque cells (`Frames`).
- A CSV file read in chunks is a given sequence of batches, plus the point at which reading fails, if it does.
- A database is a map from table name to its records.
- How the database answers each statement, and how each subprocess ends, are inputs.

Each script whose source changes state step by step is a class:

- `Extract.Extractor` holds the staging store and the log.
- `Load.Loader` holds the database and the log.
- `Pipeline.Orchestrator` holds the log and the list of started scripts.

Every method of these classes is proved to produce exactly what a specification function computes from the inputs and the old state. The extractor's specification is a *trace*: the appends, the log lines and the error of a run. The trace never depends on what staging held before. The staging store after a run is the truncated store with the trace's appends applied. The properties of a run are lemmas about these functions, in `ExtractFacts` and `LoadFacts`. The transformer is pure, so it is modelled by functions (`Transform`) over a generic left join (`Join`).

Modules, one per file: `Wrappers` (Option, Result), `Seqs` (regrouping concatenations), `Text` (Python `str.strip`, ASCII `str.lower`, decimal rendering of a count), `Frames`, `Join`, `Transform`, `Extract`, `ExtractFacts`, `Load`, `LoadFacts` and `Pipeline`.

Points where the code behaves differently from what its comments or surrounding design suggest. The model follows the code in each case:

- **ValueError fallback duplicates rows.** `read_csv_chunked` falls back to reading the whole file on a `ValueError`, even after batches were already yielded. When the error comes after `k` batches, the records of those `k` batches are staged twice: once from the chunks and once more at the head of the whole file's records (`ExtractFacts.ValueErrorStagesPrefixTwice`).
- **Other read errors end silently.** Any other read error is logged and silently ends that file. When nothing else raises, the step still logs its completion line, and the file's count line reports only the rows before the failing batch (`ExtractFacts.ReadErrorEndsSilently`).
- **Extractor renames are case-sensitive.** The extractor's renaming is exact: `STORE` is not renamed. The transformer lower-cases labels before renaming, so it maps `STORE` to `store` (`ExtractFacts.ExtractRenameIsCaseSensitive`).
- **Later tables end up absent.** The loader commits its drops before it reads any file. A later failure therefore leaves the tables it had not yet rewritten absent, not as they were. A write rejected while inserting leaves its table present and empty, because MySQL has already committed the `CREATE TABLE` (`LoadFacts.LoadReadFailure`, `LoadFacts.LoadWriteFailure`).
- **No drop notice without a connection.** The loader logs its drop notice inside the `engine.begin()` block, so a run that cannot connect logs only its start line and `LOAD ERROR` (`LoadFacts.LoadLogPolicy`).
- **The transformer ignores `test.csv`.** It reads only `train.csv` as sales data.
- **Failure does not reach the exit status.** The orchestrator's `main` returns normally after a failing step. No exit status reports the failure (`Pipeline.Orchestrator.RunPipeline` has no error result).

## Model

| member | source | states |
|---|---|---|
| Text.Strip | scripts/extract.py:62 | `str.strip()`: the result is no longer than the input and has no whitespace at either end |
| Text.StripRemovesPadding | scripts/extract.py:60-63 | any whitespace padding around a trimmed label is exactly what stripping removes |
| Text.StripUnchangedIffTrimmed | scripts/extract.py:62 | stripping leaves a label unchanged iff neither end is whitespace |
| Text.StripIdempotent | scripts/extract.py:62 | stripping twice is stripping once |
| Text.Lower | scripts/transform.py:29 | `str.lower()` keeps the length and leaves no upper-case letter |
| Text.LowerUnchangedIffNoUpper | scripts/transform.py:29 | lower-casing changes a label iff it holds an upper-case letter |
| Text.LowerKeepsTrimmed | scripts/transform.py:29 | lower-casing a trimmed label keeps it trimmed |
| Text.NatToString | scripts/extract.py:101 | the f-string rendering of a row count: non-empty, all digits, no leading zero |
| Text.NatToStringValue | scripts/extract.py:101 | the rendering of a count denotes that count: `int(str(n)) == n` |
| Text.NatToStringInjective | scripts/load.py:55-58 | different counts are rendered differently, so a count line names exactly one count |
| Frames.Rename | scripts/extract.py:92-98 | `DataFrame.rename(columns=...)` keeps the rows and the column count and relabels each column through the map, leaving unmapped labels alone |
| Frames.MapColumns | scripts/transform.py:29 | assigning `df.columns` relabels each column in place and keeps the rows |
| Frames.AddNullColumn | scripts/extract.py:114-115 | `df[name] = None` adds the column last, every row holds null there and keeps every cell it had under the old header |
| Frames.ToRecord | scripts/extract.py:99 | an inserted record pairs each header label with the row's cell under it, in header order |
| Frames.ToRecords | scripts/extract.py:99 | `to_sql` inserts one record per row, in row order, each the record of that row |
| Frames.AllRowsCount | scripts/extract.py:43-45 | the whole file holds as many rows as its batches together |
| Frames.AllRecordsCount | scripts/extract.py:99-100 | appending a sequence of batches inserts as many records as the batches have rows |
| Frames.TotalRowsAppend | scripts/extract.py:100 | the running `total += len(chunk)` sum is additive over concatenated batch sequences |
| Frames.TotalRowsPrefix | scripts/extract.py:100 | the rows of a prefix and of the rest of the batches add up to all rows |
| Join.Matches | scripts/transform.py:35-40 | the right rows matching a key are exactly the right rows with that key |
| Join.MatchesCount | scripts/transform.py:35-40 | there is one match per right row with the key: the number of matches is the number of positions holding that key, duplicates included |
| Join.TwoMatches | scripts/transform.py:35-40 | two different right rows with the key give at least two matches |
| Join.JoinLength | scripts/transform.py:35-43 | a left join has, per left row, max(1, number of matching right rows) rows |
| Join.JoinAtLeastLeft | scripts/transform.py:35-43 | a left join is never shorter than its left side |
| Join.MatchesUnique | scripts/transform.py:35-43 | with unique right-hand keys a key matches at most one right row |
| Join.UniqueJoinKeepsLeft | scripts/transform.py:35-43 | with unique right-hand keys the join has one row per left row, in left order |
| Join.FanOutGrowsJoin | scripts/transform.py:35-43 | a left row whose key two different right rows carry makes the join strictly longer than its left side |
| Join.ManyMatchesGrowJoin | scripts/transform.py:35-43 | a left row with two or more matches makes the join strictly longer than its left side |
| Join.JoinSound | scripts/transform.py:35-43 | every output row pairs a left row with a right row of equal key, or with nothing when no right row has that key |
| Join.JoinComplete | scripts/transform.py:35-43 | every left row appears, paired with each right row of equal key, or with nothing when none matches |
| Transform.Normalize | scripts/transform.py:28-30 | `normalize(df)` keeps the rows, turns label `i` into the lower-cased stripped label `i`, in order, and so leaves every label trimmed and without upper case |
| Transform.RenameMapsAreCanonical | scripts/transform.py:62-89 | the three rename maps only produce trimmed lower-case labels |
| Transform.SalesTargetsCanonical | scripts/transform.py:62-68 | every target of the sales rename map is trimmed and lower-case |
| Transform.FeatureTargetsCanonical | scripts/transform.py:70-83 | every target of the features rename map is trimmed and lower-case |
| Transform.StoreTargetsCanonical | scripts/transform.py:85-89 | every target of the stores rename map is trimmed and lower-case |
| Transform.CleanLabelsCanonical | scripts/transform.py:57-89 | whatever the raw header, every clean label of the three frames is trimmed and lower-case |
| Transform.CleanLabelIgnoresCaseAndPadding | scripts/transform.py:29 | a padded header gets the clean label of its lower-cased core |
| Transform.SalesHeadersCanonical | scripts/transform.py:62-68 | sales headers spelling `store`, `date` or `isholiday` in any case and padding become `store`, `sale_date` and `is_holiday` |
| Transform.FeatureHeadersCanonical | scripts/transform.py:70-83 | a features header spelling `date` in any case and padding becomes `feature_date` |
| Transform.StoreHeadersCanonical | scripts/transform.py:85-89 | a stores header spelling `type` in any case and padding becomes `store_type` |
| Transform.UnmappedLabelsKept | scripts/transform.py:62-68 | a label the sales map does not name keeps its normalised form |
| Transform.KeyOf | scripts/transform.py:37-38 | a row's join key holds its values under the key columns, in key order |
| Transform.KeyCheck | scripts/transform.py:37-38 | a merge key column raises unless it occurs exactly once |
| Transform.KeyProblem | scripts/transform.py:35-43 | no key error is raised iff all five key columns of the two merges occur exactly once; otherwise the error is that of the first bad column in pandas' lookup order (per key pair the right frame before the left) |
| Transform.BuildFullDataset | scripts/transform.py:33-44 | `build_full_dataset` succeeds iff the key columns are usable, and otherwise fails with the first key problem in pandas' lookup order |
| Transform.FeatureStoreLookedUpFirst | scripts/transform.py:35-40 | a features frame without `store` makes the first merge raise KeyError on it, whatever the sales keys are |
| Transform.FeatureKeyMeaning | scripts/transform.py:37-38 | the feature join keys are equal iff the stores agree and `sale_date == feature_date` |
| Transform.StoreKeyMeaning | scripts/transform.py:43 | the store join keys are equal iff the stores agree |
| Transform.FactKeepsEverySale | scripts/transform.py:35-43 | every sales row appears in the fact dataset, which is never shorter than the sales data |
| Transform.FactCountUnderUniqueKeys | scripts/transform.py:35-43 | with features unique per (store, feature_date) and stores unique per store, the fact dataset has exactly the sales rows, in order |
| Transform.FactFanOutDetectable | scripts/transform.py:35-43 | a sales row matched by two different feature rows (same store and date) or two different store rows makes the fact dataset longer than the sales data |
| Transform.FeatureSide | scripts/transform.py:35-40 | a row of the first merge pairs a sales row with a matching feature row, or with nothing when none matches |
| Transform.StoreSide | scripts/transform.py:43 | a row of the second merge pairs a merged row with a store row matching its sale, or with nothing when none matches |
| Transform.FactRowsMatch | scripts/transform.py:35-43 | each fact row pairs its sales row with a matching feature and store row, or with nothing when none matches |
| Transform.UnmatchedSaleKept | scripts/transform.py:39 | a sales row no feature row matches still appears, with the feature side absent |
| Transform.UnmatchedStoreKept | scripts/transform.py:43 | a sales row no store row matches still appears, with the store side absent |
| Transform.SaveAndBuildWrites | scripts/transform.py:92-99 | the three clean files are saved first, exactly as renamed; the fact file, holding the merge result, follows iff the merges succeed |
| Transform.TransformWriteOrder | scripts/transform.py:48-99 | nothing is written unless the three raw files load; the three clean files hold exactly the renamed frames and come before the fact file, which is written iff the merges succeed and holds the merge result |
| Transform.TransformFactCardinality | scripts/transform.py:92-99 | the written fact file has at least as many rows as the clean sales file, and exactly as many under unique keys |
| Extract.NormalizeColumns | scripts/extract.py:60-63 | `normalize_columns` keeps rows and column count and strips every label |
| Extract.Table | scripts/extract.py:99-152 | every source is appended to one of the three staging tables |
| Extract.Prepare | scripts/extract.py:105-116 | preparing a batch keeps its row count |
| Extract.Truncate | scripts/extract.py:51-57 | truncation empties exactly the three staging tables and keeps every other table |
| Extract.Then | scripts/extract.py:83-157 | a sequence of blocks raises iff one of its parts raises |
| Extract.AppendAll | scripts/extract.py:90-100 | the append loop logs nothing, appends at most one batch per input batch and all of them when nothing is rejected |
| Extract.AppendAllTables | scripts/extract.py:90-100 | every append the loop makes goes to the source's own staging table |
| Extract.AppendAllStops | scripts/extract.py:155-157 | once an append is rejected, later batches change nothing |
| Extract.Extractor.Log | scripts/extract.py:17-21 | `log` appends one line and leaves staging alone |
| Extract.Extractor.TruncateStaging | scripts/extract.py:51-57 | logs the notice, then empties the three tables and logs `truncated`, or changes nothing when the transaction raises |
| Extract.Extractor.AppendBatch | scripts/extract.py:99 | `to_sql(append)` adds the batch's records after the table's rows unless the database rejects it |
| Extract.Extractor.AppendChunks | scripts/extract.py:90-100 | the loop leaves staging as the append trace says, and its total equals the rows of all batches when none is rejected |
| Extract.Extractor.LoadChunked | scripts/extract.py:88-101 | one chunked block produces exactly its trace: appends, read-error line, row-count line, error |
| Extract.Extractor.LoadStores | scripts/extract.py:144-153 | the stores block produces exactly its trace |
| Extract.Extractor.WarnMissing | scripts/extract.py:79-81 | logs one warning per missing file, in the order train, features, stores, test |
| Extract.Extractor.LoadAll | scripts/extract.py:87-153 | the four load blocks in order; the first error skips the rest |
| Extract.Extractor.TruncateAndLoad | scripts/extract.py:83-153 | the `try` block: truncation, then the load blocks, with the store and log the trace gives |
| Extract.Extractor.Run | scripts/extract.py:66-162 | `main()` leaves exactly the specified staging store and log and raises exactly the trace's error |
| ExtractFacts.TraceOnlyStaging | scripts/extract.py:99-152 | every append of a run goes to a staging table |
| ExtractFacts.ExtractLeavesOtherTables | scripts/extract.py:51-57 | a run changes no table other than the three staging tables |
| ExtractFacts.ExtractForgetsStaging | scripts/extract.py:84-85 | once truncation succeeds, what staging held before makes no difference to the result |
| ExtractFacts.TruncateForgets | scripts/extract.py:51-57 | truncating erases every difference two stores have only in the staging tables |
| ExtractFacts.ExtractIdempotent | scripts/extract.py:85 | running the extractor twice on unchanged files stages exactly what one run does |
| ExtractFacts.AppendAllRecords | scripts/extract.py:90-100 | a completed append loop adds exactly the prepared records of its batches, in order |
| ExtractFacts.CompletedAppends | scripts/extract.py:83-153 | a run that completes ran all four blocks without error, and its appends are theirs in order |
| ExtractFacts.ExtractSuccessContents | scripts/extract.py:88-153 | after a completed run `sales_staging` holds the train records then the test records, and the other two tables hold their file's records |
| ExtractFacts.ExtractRowCounts | scripts/extract.py:88-153 | after a completed run `sales_staging` holds train rows plus test rows, and every present file's count line reports the rows it added |
| ExtractFacts.LogShape | scripts/extract.py:66-162 | the log is the start line, warnings, truncation notice, the `try` block's lines and a last line that is the completion line iff nothing was raised |
| ExtractFacts.ExtractLastLine | scripts/extract.py:155-162 | the last line is `DB Load Error` on an error and the completion line otherwise |
| ExtractFacts.ExtractCompletedIffNoError | scripts/extract.py:155-162 | the completion line is logged iff the run raised nothing |
| ExtractFacts.ExtractWarnsIffMissing | scripts/extract.py:79-81 | a file's warning is logged iff that file is missing |
| ExtractFacts.WarningNamesFile | scripts/extract.py:81 | the warnings of two different files are different lines |
| ExtractFacts.AppendAllUnrejected | scripts/extract.py:90-100 | when the database accepts every append, appending the batches raises nothing |
| ExtractFacts.OtherErrorRaisesNothing | scripts/extract.py:46-48 | a non-ValueError read error raises nothing of its own: the block ends with whatever its appends raised |
| ExtractFacts.ChunkedRaisesNothing | scripts/extract.py:38-48 | a chunked block whose appends are accepted and whose fallback read, if any, succeeds raises nothing |
| ExtractFacts.RunCompletes | scripts/extract.py:83-162 | when truncation succeeds, every append is accepted and no fallback or stores read fails, the run raises nothing and logs its completion line |
| ExtractFacts.ReadErrorEndsSilently | scripts/extract.py:46-48 | under those conditions a non-ValueError read error in any chunked file is logged, the run completes, the file stages exactly the batches before the failing one and its count line reports only their rows |
| ExtractFacts.ReadErrorLogged | scripts/extract.py:46-47 | a non-ValueError read error puts its `ERROR reading CSV` line in the log of a run that completes |
| ExtractFacts.TrainReadErrorCount | scripts/extract.py:46-48 | under the same conditions, after such an error in train.csv `sales_staging` falls short of the file's rows by exactly the rows after the failing batch |
| ExtractFacts.StagedBeforeReadError | scripts/extract.py:46-48 | such an error leaves the file contributing exactly the batches before the failing one |
| ExtractFacts.ValueErrorStagesPrefixTwice | scripts/extract.py:43-45 | when the whole-file read holds the batches' rows under their header, a ValueError after `k` batches stages the records of those `k` batches, then the whole file's records, so the first `k` batches' records appear twice |
| ExtractFacts.PreparedWhole | scripts/extract.py:43-45 | preparing the whole file gives the same records as preparing its batches one by one |
| ExtractFacts.PreparedRowsSplit | scripts/extract.py:106-115 | preparing a frame works row by row: two blocks of rows under one header give their records in order |
| ExtractFacts.SmallFileReadOnce | scripts/extract.py:43-45 | a ValueError on the first fetch reads the file whole, once |
| ExtractFacts.TestBatchesGetWeeklySales | scripts/extract.py:113-115 | every prepared test batch has `weekly_sales`; one that lacked it gets the column last, null in every row |
| ExtractFacts.OtherBatchesKeepColumns | scripts/extract.py:91-98 | batches of other sources keep exactly their columns, stripped and renamed |
| ExtractFacts.RenameKeysTrimmed | scripts/extract.py:92-151 | every header label the extractor's rename maps name is trimmed |
| ExtractFacts.ExtractStripsBeforeRenaming | scripts/extract.py:91-151 | a header any of the four rename maps names, padded with any whitespace, gets that map's label |
| ExtractFacts.ExtractRenameIsCaseSensitive | scripts/extract.py:92-98 | a train header spelling `store` in any case other than `Store` (e.g. `STORE`) is not renamed by the extractor, whereas the transformer maps it to `store` |
| Load.Dropped | scripts/load.py:37-42 | the drops remove exactly the four clean tables and keep every other table as it was |
| Load.WriteCount | scripts/load.py:50-53 | the writes before the returned index are accepted and the write at it, if any, is rejected |
| Load.FramesOf | scripts/load.py:45-48 | the four reads give one frame per clean table |
| Load.Loader.Log | scripts/load.py:15-19 | `log` appends one line and leaves the database alone |
| Load.Loader.DropCleanTables | scripts/load.py:37-42 | a failure to connect raises before the notice and changes nothing; otherwise it logs the notice and drops the four tables, or changes nothing when a drop raises |
| Load.Loader.ReplaceTable | scripts/load.py:50 | `to_sql(replace)` sets the table to the frame's records; a rejection raises its reason and leaves the table empty if it was already created, else unchanged |
| Load.Loader.WriteAll | scripts/load.py:50-53 | the four writes replace the tables before the first rejected one, leave that one as its rejection left it and raise its error |
| Load.Loader.LoadFiles | scripts/load.py:45-58 | reads, writes and row-count lines after the drops, as specified |
| Load.Loader.Run | scripts/load.py:30-64 | `main()` leaves exactly the specified database and log (the drop notice only once connected) and raises exactly the specified error |
| LoadFacts.LoadLeavesOtherTables | scripts/load.py:39-53 | a run changes no table other than the four clean tables |
| LoadFacts.DroppedForgets | scripts/load.py:37-42 | after the drops, what the clean tables held before makes no difference |
| LoadFacts.LoadIdempotent | scripts/load.py:37-53 | a second run with unchanged files and database answers leaves the database as one run does |
| LoadFacts.CleanTablesDistinct | scripts/load.py:50-53 | the four target tables are different tables |
| LoadFacts.LoadSuccessContents | scripts/load.py:45-53 | after a successful run each clean table holds exactly its file's records, `fact_sales` those of the full dataset |
| LoadFacts.LoadLogsTableSizes | scripts/load.py:55-58 | each row-count line reports the number of records its table now holds |
| LoadFacts.LoadReadFailure | scripts/load.py:37-48 | a failed read leaves all four tables dropped and raises the read's error |
| LoadFacts.LoadWriteFailure | scripts/load.py:50-53 | when write `k` is the first rejected, tables before it hold their new rows, table `k` is empty if the write had created it and absent otherwise, and later tables are absent |
| LoadFacts.WriteCountIsFirstRejected | scripts/load.py:50-53 | the failing write is the first rejected one |
| LoadFacts.LoadDropFailure | scripts/load.py:37-42 | when the connection or the drop transaction fails the database is unchanged, and a connection failure is the error raised |
| LoadFacts.LoadLogPolicy | scripts/load.py:31-64 | the completion line appears iff nothing was raised; the drop notice appears iff the connection opened; an error logs only `LOAD ERROR` after those lines; success logs exactly the start line, the notice, the four count lines in table order, then completion |
| Pipeline.FirstFailure | scripts/etl_pipeline.py:41-45 | the index of the first failing step: every step before it succeeds |
| Pipeline.Orchestrator.Log | scripts/etl_pipeline.py:12-16 | `log` appends one line |
| Pipeline.Orchestrator.RunScript | scripts/etl_pipeline.py:18-34 | a step succeeds iff its script exists and returns 0; a missing script is not started; the lines logged are the step's lines |
| Pipeline.Orchestrator.RunSteps | scripts/etl_pipeline.py:41-47 | the loop logs and starts exactly what the run specification gives, stopping at the first failure |
| Pipeline.Orchestrator.RunPipeline | scripts/etl_pipeline.py:36-47 | `main()` logs the start line and then the run of the three steps, and starts exactly the specified scripts |
| Pipeline.RunLogSplit | scripts/etl_pipeline.py:41-45 | once the first `i` steps succeed, the log is their two lines each followed by the run of the rest |
| Pipeline.LaunchedSplit | scripts/etl_pipeline.py:41-45 | once the first `i` steps succeed, they are the first scripts started |
| Pipeline.StepLogShape | scripts/etl_pipeline.py:20-33 | a step logs its running line and then exactly one verdict line, the success line iff it succeeded |
| Pipeline.PipelineLogShape | scripts/etl_pipeline.py:36-47 | the exact log: start line, two lines per step before the first failure, then that step's lines and the failure line, or the completion line |
| Pipeline.PipelineFailFast | scripts/etl_pipeline.py:39-45 | the started scripts are the steps up to the first failure, in order, plus the failing one if it exists |
| Pipeline.PipelineCompletedIffAllSucceed | scripts/etl_pipeline.py:43-47 | the completion line is logged iff all three steps succeed; otherwise the last line is the failure line |
| Pipeline.PipelineStopsAfterFailure | scripts/etl_pipeline.py:41-45 | after the first failing step no later step is started or announced |

## Left out

- Database configuration, engine creation and `engine.dispose()` are not modelled (`scripts/extract.py:24-35`, `scripts/load.py:21-28`). Database answers are inputs instead: a connection, truncate or drop that may raise, and a function saying which appends or replace writes the database rejects.
- CSV parsing and the chunk boundaries of `pd.read_csv` are not modelled. A file is a given sequence of batches, the point where chunked reading fails, and the outcome of reading it whole.
- The `subprocess.run` call is not modelled. Its outcome is the input `outcome`: a missing script, or a return code with its stderr.
- Log timestamps, the files that log lines go to, and every console `print` are not modelled. The transformer logs only to the console, so its log lines are not modelled at all.
- The orchestrator's process exit status is not modelled, because `main` returns normally in every case.
- The truncate fault is an input independent of the store: the model does not derive it from a staging table being missing, which makes MySQL's `TRUNCATE` raise.
- MySQL commits each `TRUNCATE` and `DROP` implicitly. The model treats the three truncates and the four drops each as one atomic transaction, as the code's `engine.begin()` blocks intend. A failure half-way through them is not modelled.
- pandas' suffixing of clashing merge columns (`is_holiday_x`, `is_holiday_y`) is not modelled. A fact row is the triple (sales row, feature row or none, store row or none).
- Cell values are opaque. Numeric parsing, dtypes and the NaN-equality rules of merge keys are not modelled: two missing key values match.
- Writing the transformer's clean files and reading them back in the loader is not modelled. The loader's four files are inputs, and failures of `to_csv` are not modelled.
- Text.Lower: lower-cases ASCII letters only; Python's `str.lower()` also lower-cases non-ASCII letters.
- The dashboard, the archiving script and the unused staging writer are not part of this model.
