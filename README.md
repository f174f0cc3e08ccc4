# DAC_PAC: a verified model of the MongoDB to SQL Server migration script

`DAC_PAC.py` copies every collection of a MongoDB database into SQL Server.
For each collection it runs `mongoexport` into `<collection>.json`. It derives
a table from the first document and creates that table if it is absent. It then
inserts every document as one row inside one transaction. It deletes the staging
file when the load returns `True`: after a commit, or when the payload is neither a
list nor a dict. Finally it asks SqlPackage for a `.bacpac` of the database,
with a bounded number of retries.

This project models the rules that script applies, in Dafny:

- `identifiers.dfy` (module `Identifiers`): the table-name sanitiser, `re.sub(r'[^A-Za-z0-9_]', '_', name)`.
- `documents.dfy` (module `Documents`): parsed JSON values as `json.load` returns them.
  A dict is an ordered list of (key, value) pairs.
- `bson.dfy` (module `Bson`): the ObjectId converter. It works in place on a
  `Document` object and returns that same object.
- `driver.dfy` (module `Driver`): the cursor and connection, as a `Database` class. The class holds:
  - the catalog of tables;
  - the rows of the open transaction;
  - the committed rows;
  - the ordered log of calls made to it.

  Whether the engine accepts an INSERT is an oracle, `accepts`, fixed when the connection is made.
- `schema.dfy` (module `Schema`): the column-type classifier, the loop that builds the column list,
  and the conditional `CREATE TABLE`.
- `loader.dfy` (module `Loader`): SQL literal rendering, the insert loop with rollback on the
  first failure and one commit at the end, and `process_json_file` as a whole.
- `migration.dfy` (module `Migration`): the per-collection loop body of `migrate_mongo_to_sql` and the loop.
  It deletes a staging file only after a load that returned `True`.
- `packaging.dfy` (module `Packaging`): the retry loop of `create_dacpac_using_sql_driver`.
  Each SqlPackage run becomes a success or failure outcome, and each `time.sleep(5)` becomes one counted delay.

Python's `str()` is the parameter `toText`. Float formatting and the repr of
nested values are not modelled.

Facts about the code that the model follows and that a reader might not expect:

- Sanitising replaces each invalid character by its own underscore, so a run of invalid
  characters becomes a run of underscores of the same length (`Identifiers.NoCollapsing`:
  `"a--b"` gives `"a__b"`).
- `isinstance(value, int)` is tested before `bool`. A Python bool is an int, so booleans
  are typed `INT`. The `BIT` branch at DAC_PAC.py:97-98 shows that booleans were meant to
  be `BIT`, but it is never taken (`Schema.ColumnType`).
- Column names in `CREATE TABLE` and in `INSERT` are the raw dict keys; they are not sanitised.
  The INSERT column list comes from each document's own keys, not from the table's schema.
- The table is created from the first document before its ObjectIds are converted.
  `Schema.SchemaIgnoresConversion` shows that this gives the same columns as the converted document.
- A payload that is neither a list nor a dict makes `process_json_file` return `True` with no
  database call. The loop then deletes that staging file.
- `create_dacpac_using_sql_driver` returns nothing. The model reports what it did:
  the number of runs, the number of delays, and whether a package was written.

## Model

| member | source | states |
|---|---|---|
| `Identifiers.SanitizeTableName` | DAC_PAC.py:25-28 | the result is as long as the name; characters in [A-Za-z0-9_] are kept; each other character becomes exactly one `_`; every output character is in [A-Za-z0-9_] |
| `Identifiers.SanitizeFixedPoints` | DAC_PAC.py:25-28 | sanitising leaves a name unchanged if and only if it is already made of [A-Za-z0-9_] |
| `Identifiers.SanitizeIdempotent` | DAC_PAC.py:25-28 | sanitising twice equals sanitising once |
| `Identifiers.NoCollapsing` | DAC_PAC.py:27 | two adjacent invalid characters give two underscores (`"a--b"` becomes `"a__b"`) |
| `Documents.Lookup` | DAC_PAC.py:19-20 | `"$oid" in value` holds exactly when the key is among the dict's keys, and `value["$oid"]` is the value paired with it |
| `Bson.NormalizedEntries` | DAC_PAC.py:16-23 | conversion keeps the keys and their order; a dict holding `$oid` becomes the text of that value; a list keeps its length and only its `$oid`-dict elements become text; every other value is unchanged |
| `Bson.NormalizeIdempotent` | DAC_PAC.py:16-23 | converting an already converted dict changes nothing |
| `Bson.ConvertBsonToSqlFriendly` | DAC_PAC.py:16-23 | the loop rewrites the dict in place to `NormalizedEntries` of its old items and returns the same object |
| `Driver.EnsureTable` | DAC_PAC.py:105-111 | the conditional CREATE leaves an existing table's columns alone; otherwise the table exists afterwards with exactly the given columns; no other table changes |
| `Driver.EnsureTableIdempotent` | DAC_PAC.py:105-111 | issuing the conditional CREATE again, with any columns, leaves the catalog as after the first |
| `Driver.Database.ExecuteCreateIfAbsent` | DAC_PAC.py:111 | executing the IF NOT EXISTS … CREATE statement updates the catalog as `EnsureTable` says and logs the call |
| `Driver.Database.ExecuteInsert` | DAC_PAC.py:52 | `cursor.execute` of an INSERT succeeds exactly when the engine accepts the row; an accepted row joins the open transaction; the attempt is logged either way |
| `Driver.Database.CommitTransaction` | DAC_PAC.py:58 | `conn.commit()` appends the open transaction's rows to the committed rows and empties the transaction |
| `Driver.Database.RollbackTransaction` | DAC_PAC.py:55 | `conn.rollback()` discards the open transaction's rows and leaves the committed rows alone |
| `Schema.ColumnType` | DAC_PAC.py:92-100 | ints and bools are typed INT, floats FLOAT, everything else (null, text, dict, list) VARCHAR(MAX); BIT is never chosen |
| `Schema.SchemaOf` | DAC_PAC.py:90-102 | one column per key of the document, in key order, named by the key and typed by `ColumnType` |
| `Schema.ColumnsWithTypes` | DAC_PAC.py:90-102 | the appending loop yields exactly `SchemaOf` of the document: one column per key, in order, never BIT |
| `Schema.CreateTableIfNotExists` | DAC_PAC.py:87-111 | the catalog becomes `EnsureTable` of the old catalog with the document's derived columns, one CREATE call is logged, and no rows change |
| `Schema.SchemaIgnoresConversion` | DAC_PAC.py:42-45 | the columns derived from a document equal those derived from its converted form |
| `Loader.EscapeBackslashes` | DAC_PAC.py:48 | the escaped text is longer than the original by exactly its number of backslashes; a text without backslashes is unchanged. With `HalveInvertsEscape` this fixes the result: every backslash doubled, nothing else changed |
| `Loader.HalveInvertsEscape` | DAC_PAC.py:48 | halving the doubled backslashes gives back the original text |
| `Loader.RenderLiteral` | DAC_PAC.py:48 | the literal is `NULL` exactly when the value is None; any other value gives `'…'`, two characters plus `str(value)` plus one per backslash in it, and halving the backslashes between the quotes recovers `str(value)`: each backslash appears doubled |
| `Loader.RenderValues` | DAC_PAC.py:67 | one literal per value of the document, in key order |
| `Loader.BuildRow` | DAC_PAC.py:47-50 | the INSERT names the table it is given, uses the document's own keys as columns, and has one literal per key: the key's value rendered by `RenderLiteral`, so `NULL` exactly where the value is None |
| `Loader.FirstRejected` | DAC_PAC.py:44-56 | the index of the first row the engine rejects: every earlier row is accepted, and the row at that index (if any) is rejected |
| `Loader.LoadCalls` | DAC_PAC.py:44-58 | the insert loop's calls: one INSERT per row in order up to the first rejected row (or every row), then one last call, a COMMIT exactly when every row was accepted and a ROLLBACK otherwise |
| `Loader.LoadSucceedsIff` | DAC_PAC.py:44-58 | the batch commits if and only if every row is accepted |
| `Loader.LoadCallsShape` | DAC_PAC.py:44-58 | inserts are issued in list order and none after the first failure; on failure the last insert is the rejected row, followed by exactly one rollback and no commit; on success every row is inserted, followed by exactly one commit and no rollback |
| `Loader.BatchRows` | DAC_PAC.py:44-50 | one INSERT per document, in order, each built from the converted document |
| `Loader.ProcessResult` | DAC_PAC.py:30-84 | `process_json_file` returns True exactly when the file decoded and, for a list or dict, the engine accepted every row of its batch; any other decoded value gives True |
| `Loader.ProcessCalls` | DAC_PAC.py:39-78 | nothing is called unless the payload is a list or a dict; then the first call is the conditional CREATE for the sanitised table from the first, unconverted document, then the batch's INSERTs in order, every row when the result is True and up to and including the first rejected row otherwise, and the last call is a COMMIT exactly when the result is True, else a ROLLBACK |
| `Loader.PrepareInsert` | DAC_PAC.py:45-50 | the dict is converted, then one INSERT is built from it: its own keys as the columns, its rendered values as the literals, in the table it is given |
| `Loader.InsertEntries` | DAC_PAC.py:44-59 | the insert loop makes exactly the calls of `LoadCalls`, returns whether every row was accepted, commits the whole batch or nothing, and leaves no open transaction |
| `Loader.InsertDocument` | DAC_PAC.py:64-78 | the dict branch makes the same calls, and has the same result and committed rows, as a one-element batch |
| `Loader.LoadList` | DAC_PAC.py:41-59 | a list creates the table from its first, unconverted element, then loads every element all or nothing; result, calls, catalog and committed rows are those the payload functions give for that list |
| `Loader.LoadDict` | DAC_PAC.py:61-78 | a dict creates the table from itself, then is loaded alone all or nothing; result, calls, catalog and committed rows are those the payload functions give for that dict |
| `Loader.ProcessJsonFile` | DAC_PAC.py:30-84 | a decode error returns False with no database call; a list or dict returns whether its batch was committed; any other value returns True with no call; the result is `ProcessResult`, the call log grows by `ProcessCalls`, the catalog follows `ProcessTables` and the committed rows grow by the batch exactly when the result is True |
| `Migration.MigrateCollection` | DAC_PAC.py:134-156 | an export failure or a missing or empty file leaves the database untouched and deletes nothing; otherwise the file is loaded and deleted exactly when the load returned True |
| `Migration.MigrateMongoToSql` | DAC_PAC.py:134-156 | collections are handled in order, each on its own; the deleted files, the call log, the catalog and the committed rows are those of the collections one after another |
| `Migration.RemovedFiles` | DAC_PAC.py:134-156 | the staging files deleted by a run: no more files than collections; which files is fixed by `RemovedFilesExactly`; their order and count come from the definition, one file per removing collection in collection order |
| `Migration.RemovedFilesExactly` | DAC_PAC.py:149-153 | `<collection>.json` is deleted if and only if that collection was exported, its file was there and non-empty, and its load returned True |
| `Migration.RunCallsSplit` | DAC_PAC.py:134-147 | the call log of a run splits at any point: it is the log of the first collections followed by the log of the rest, run on their own |
| `Packaging.Budget` | DAC_PAC.py:177-178 | the loop allows max_retries runs, or none when max_retries is not positive |
| `Packaging.FirstSuccess` | DAC_PAC.py:177-182 | the index of the first successful run within the budget: every earlier run failed |
| `Packaging.RetryTrace` | DAC_PAC.py:161-190 | a missing tool means no run and no delay; runs never exceed the budget and stop at the first success; delays are one fewer than runs; all runs fail only when the budget is used up |
| `Packaging.CreateDacpac` | DAC_PAC.py:161-190 | the loop's runs, delays and outcome are exactly `RetryTrace` |
| `Packaging.DefaultRetryScenarios` | DAC_PAC.py:161-190 | with the default of 3: fail, fail, succeed gives 3 runs and 2 delays; three failures give 3 runs, 2 delays and no package; a missing tool gives nothing |
| `Packaging.NoBudgetNoRuns` | DAC_PAC.py:177-178 | max_retries ≤ 0 means no run and no delay |

## Left out

- MongoDB access (`MongoClient`, `list_collection_names`) and `pyodbc.connect` / `close`.
  These are network and driver plumbing. The model receives the list of collections
  with their export results and an open `Database`.
- The `mongoexport` and SqlPackage processes, the PowerShell command line, `shell=True`
  and the connection string are not modelled. Each run is reduced to its exit status:
  `Export.exported` for mongoexport, `succeeds(j)` for SqlPackage.
- `json.load`, `open`, `os.path.exists`, `os.path.getsize`, `os.remove` and `os.makedirs`
  are not modelled. The parsed value or the decode error is an input (`Payload`), and so is
  "exists and non-empty" (`Export.present`). A deletion is the file name in the returned sequence.
- Python's `str()` is the parameter `toText`. Float formatting and the repr of nested dicts
  and lists are not modelled.
- `time.sleep(5)` is counted as delays, not as elapsed time.
- The statement text (`INSERT INTO [t] (…) VALUES (…)`, `', '.join`, the `CREATE TABLE`
  text) is kept as structured `Row` and `Call` values. A value containing `'` therefore
  does not break a statement in the model, as it would in SQL Server.
- `Driver.Database.ExecuteCreateIfAbsent` always succeeds. In the script the CREATE
  statement is not inside a `try`, so a failing CREATE (for instance `CREATE TABLE [t] ()`
  from a first document `{}`) raises out of `process_json_file` and ends the whole run.
  The model instead creates a table with no columns and goes on to the inserts.
- `Driver.Database.accepts` is one fixed verdict per row and ignores the database's state:
  its catalog and earlier commits. In SQL Server an INSERT's fate depends on that state.
  For example, collections `a-b` and `a.b` both load into table `a_b`, so the second one's
  INSERTs run against the columns the first one created. `Migration.RunCallsSplit` holds
  because of this simplification.
- SQL Server semantics are not modelled. That covers whether a CREATE TABLE survives a
  later rollback (the catalog changes at once here), implicit conversion of quoted
  literals, and why an INSERT fails (the `accepts` oracle decides).
- `Loader.ProcessJsonFile` requires a list payload to be non-empty and to hold only dicts,
  and `Loader.LoadList` requires the same of its list.
  On other lists the script raises (`data[0]`, `.items()`) and the run ends. Exceptions
  other than `JSONDecodeError` from reading the file are not modelled either.
- `Migration.MigrateMongoToSql` requires an empty open transaction at the start: the
  connection is freshly opened just before the loop.
- `Bson.ConvertBsonToSqlFriendly` works on a `Document` object made from each parsed dict.
  That the parsed list's own dicts are mutated is not modelled. Nothing reads them afterwards.
- `Documents.Lookup` returns the first pair with the key. A dict built by `json.load` has
  each key once.
- Hard-coded credentials, URIs and paths, the module-level calls at the end of the
  script, and all `print` logging are not modelled.
