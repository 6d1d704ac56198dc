# pydb connectors in Dafny

This project models `pydb`, a small Python toolkit that wraps four storage back ends behind connector classes, and proves properties of the model. The back ends are MariaDB/MySQL (through pymysql and a DBUtils pool), MongoDB (pymongo), Azure Table Storage and SQLite. There is also a facade, `databaseConnect`. It chooses a connector from a logical database name ("signal", "record", "sequence", "azure") and forwards `select`, `insert` and `close` to it. A codec, `formatConversion`, cuts long nucleotide sequences into compressed, numbered chunks and merges them back.

Each connector is a Dafny `class`. Its fields are the state the Python object updates in place:
- the MariaDB connection and the requests completed on its cursor;
- the MongoDB client count, the selected database and collection, and the documents the server holds;
- the tables of the Azure storage account;
- the statements sent to SQLite.

Pure parts are datatypes and functions, with lemmas about them:
- statement text and its binding to rows;
- collections and ordered bulk writes;
- batch formatting and transactions;
- chunk splitting and merging.

What the server, the driver or the network does during one call is a parameter of that call. This covers:
- a refused connection;
- a failing statement;
- the rows a query returns;
- the `ObjectId`s pymongo assigns;
- a refused transaction.

Python values passed as arguments are modelled by `PyObjects.Obj` (list, dict or scalar). That way the source's type checks and truthiness tests are real branches. Every exception is an `Err` of `PyObjects.Error` carrying the exception class and its message.

Files:
- `python_objects.dfy`: Python values, errors, dict lookup, truthiness.
- `text.dfy`: join and split, lower-casing, integer printing.
- `chunk_codec.dfy`: `formatConversion`.
- `pooled_db.dfy`: `pooledDB`.
- `percent_format.dfy`: Python's `%` formatting with a mapping, which pymysql uses to bind rows.
- `sql_text.dfy`: the MariaDB statements and their binding.
- `mysql_driver.dfy`: what the MariaDB connectors see of pymysql.
- `maria_connect.dfy`: `mariaConnect`, current revision.
- `maria_connect_legacy.dfy`: `mariaConnect`, older revision.
- `mongo_store.dfy`: MongoDB collections, lookups, ordered bulk writes, the merge handler.
- `mongo_connect.dfy`: `mongoConnect`.
- `azure_table.dfy`: `AzureTable`.
- `sqlite_connector.dfy`: `SQLiteConnector`.
- `database.dfy`: `databaseConnect`.

The two copies of `create_db_pool.py`, `src/main/func/` and `src/pydb/main/func/`, are identical. The table cites the second.

## Model

| member | source | states |
|---|---|---|
| ChunkCodec.ChunkSizeFor | src/main/functions/format_conversion.py:14-24 | the chunk size is 300000 exactly for the target "mongodb", and 60000 for every other target |
| ChunkCodec.FormatConversion.constructor | src/main/functions/format_conversion.py:11-13 | before `set` runs, the class has no `n_size` |
| ChunkCodec.FormatConversion.Set | src/main/functions/format_conversion.py:14-24 | after `set(target)`, `n_size` holds the chunk size for that target |
| ChunkCodec.FormatConversion.Split | src/main/functions/format_conversion.py:26-60 | the loop over `range(0, len, size)` yields exactly the chunks `SplitChunks` defines; a zero step fails as `ValueError`; a negative step yields no chunk |
| ChunkCodec.SplitCount | src/main/functions/format_conversion.py:49-57 | a split has ceil(len/size) chunks, and none only for the empty sequence |
| ChunkCodec.SplitChunkSlice | src/main/functions/format_conversion.py:49-57 | chunk j holds number j, the `_id` `identifier_j`, the accession, and the compressed slice `[j*size, j*size+size)` clipped to the sequence, so every chunk but the last is full |
| ChunkCodec.SplitIdsDistinct | src/main/functions/format_conversion.py:53 | the `_id`s of one split are pairwise distinct |
| ChunkCodec.Merge | src/main/functions/format_conversion.py:62-83 | merging an empty list fails with `list index out of range`; every failure is a `ValueError`; the accession comes from a chunk of least number |
| ChunkCodec.MergeOrderIndependent | src/main/functions/format_conversion.py:73-77 | once numbers identify chunks, merging gives the same result for any order of the input |
| ChunkCodec.MergeSplitRoundTrip | src/main/functions/format_conversion.py:26-83 | with a lossless compressor, merging the chunks of a split gives back the accession and the whole sequence |
| ChunkCodec.FormatConversion.Modification | src/main/functions/format_conversion.py:85-125 | `modification` fails before `set`, dispatches "merge" to `_merge_` and "split" to `_split_` after its type checks, rejects any other mode, and wraps every error as `ValueError("Error: ...")` |
| PooledDb.PooledDB | src/pydb/main/func/create_db_pool.py:14-50 | the pool exists exactly when host, user, password and port are given; it allows 5 connections, pings when a connection is taken, and has autocommit on; its credential copies those four keys and `database` when present, and nothing else |
| PercentFormat.FormatPlaceholder | src/pydb/util/mysql/main.py:198 | `%(f)s` binds to the row's literal under `f`, and raises `KeyError` when the row lacks `f` |
| PercentFormat.FormatBareKeyFails | src/util/mysql/main.py:189 | `%(f)` followed by anything but `s` never binds |
| SqlText.PyIn | src/pydb/util/mysql/main.py:264 | `x in targets` on a list is element membership, and fails only on a target that is not iterable |
| SqlText.FieldsInMeans | src/pydb/util/mysql/main.py:264 | the kept fields are exactly those `in update_targets`, in field order; all fields are kept when all are targets; the comprehension fails only on a non-iterable target |
| SqlText.StatementBinds | src/pydb/util/mysql/main.py:197-206 | binding a row to the current statement keeps the text and puts the row's literals in field order, and fails exactly when a field is missing from the row |
| SqlText.BareKeysNeverBind | src/util/mysql/main.py:188-197 | no row binds to the older revision's statement |
| SqlText.SameKeysBind | src/pydb/util/mysql/main.py:186-187 | a row with the first row's keys has a value for every field of the statement |
| MysqlDriver.Connect | src/pydb/util/mysql/main.py:27 | a connection opens exactly when the medium suits the pool flag and the server accepts; a refusal is a `MySQLError`; the wrong medium fails before reaching the server |
| MysqlDriver.WithDatabase | src/pydb/util/mysql/main.py:80-81 | setting the database changes only the `database` attribute, and only when a database is given |
| MysqlDriver.Page | src/pydb/util/mysql/main.py:153 | `fetchmany(size)` returns a prefix of the pending rows, full unless the rows run out |
| MysqlDriver.PagesBound | src/pydb/util/mysql/main.py:152-158 | the select loop fetches at least one page, fills every page before the last, and stops at the first short page |
| MysqlDriver.KeysAgreeMeans | src/pydb/util/mysql/main.py:186-187 | the key check passes exactly when every row is a dict with the first row's key set |
| MysqlDriver.BindError | src/pydb/util/mysql/main.py:205-206 | `executemany` raises no binding error exactly when every row binds |
| MysqlDriver.SameKeysNoBindError | src/pydb/util/mysql/main.py:186-206 | rows that pass the key check all bind to the current insert statement |
| MariaConnector.Rewrap | src/pydb/util/mysql/main.py:88-91 | a driver error gets the operation's prefix and any other error gets the generic one; both become `RuntimeError` |
| MariaConnector.Refresh | src/pydb/util/mysql/main.py:145-146 | the connection is replaced by a fresh one exactly when it is missing, or closed without a pool |
| MariaConnector.UpdateClause | src/pydb/util/mysql/main.py:253-273 | increment mode needs a string target and yields `t=t+1`; otherwise the clause names the listed fields in field order, or all fields when no target is given; a wrongly typed target fails its assertion |
| MariaConnector.MariaConnect.constructor | src/pydb/util/mysql/main.py:22-29 | a connector starts with its medium, its pool flag, an open connection and no requests |
| MariaConnector.MariaConnect.Open | src/pydb/util/mysql/main.py:25-31 | construction succeeds exactly when the connection opens; a driver refusal becomes `RuntimeError("Error connection to the database: ...")` |
| MariaConnector.MariaConnect.Close | src/pydb/util/mysql/main.py:53-58 | after `close` there is no connection; no request is made |
| MariaConnector.MariaConnect.Ping | src/pydb/util/mysql/main.py:60-65 | `ping` replaces the connection with a new open one, or fails and keeps the old one |
| MariaConnector.MariaConnect.CursorExecute | src/pydb/util/mysql/main.py:84 | a statement runs only over an open connection, and is recorded only when the server completes it |
| MariaConnector.MariaConnect.CursorExecuteMany | src/pydb/util/mysql/main.py:205-206 | `executemany` binds every row before sending; it succeeds exactly when all rows bind, the connection is open and the server accepts |
| MariaConnector.MariaConnect.Delete | src/pydb/util/mysql/main.py:67-91 | an empty query, or one that is not a delete, is refused before anything else; otherwise the database is set and the query runs once; errors are wrapped with the delete prefix |
| MariaConnector.MariaConnect.Truncate | src/pydb/util/mysql/main.py:93-118 | `TRUNCATE TABLE db.table;` when a database is given, otherwise `TRUNCATE TABLE table;`; an empty table name is refused |
| MariaConnector.MariaConnect.Select | src/pydb/util/mysql/main.py:120-165 | the result is every row the query returns, in order; the loop fetches exactly the pages `PagesBound` describes; each failure on the way has its own error |
| MariaConnector.MariaConnect.Insert | src/pydb/util/mysql/main.py:167-214 | it succeeds exactly when the data is a non-empty list of dicts sharing the first row's keys, the connection is usable, every row binds and the server accepts; then one `INSERT IGNORE` over all rows is recorded; past the list checks every failure is `TypeError("All fields must be identical.")` |
| MariaConnector.MariaConnect.Merge | src/pydb/util/mysql/main.py:216-282 | the list and key checks raise as they are; with no connection and no pool it raises `AttributeError`; a failed reconnect raises the driver's error; an update-clause or binding failure is rewrapped; a closed connection and a refused statement become `RuntimeError` with the insert prefix; on success one `INSERT ... ON DUPLICATE KEY UPDATE` over all rows is recorded; the connection is the refreshed one with the database set exactly when the rows agree and it could be refreshed; a failure records nothing |
| LegacyMariaConnector.LegacyUpdateClause | src/util/mysql/main.py:245-250 | the clause names exactly the fields `in update_targets` (substring, element or key), or all fields without a target; it fails only on a non-iterable target |
| LegacyMariaConnector.MariaConnect.constructor | src/util/mysql/main.py:22-34 | a connector starts with its medium, its pool flag, an open connection and no requests |
| LegacyMariaConnector.MariaConnect.Open | src/util/mysql/main.py:25-36 | construction succeeds exactly when the connection opens; a driver refusal becomes `RuntimeError` |
| LegacyMariaConnector.MariaConnect.Close | src/util/mysql/main.py:38-43 | after `close` there is no connection |
| LegacyMariaConnector.MariaConnect.Ping | src/util/mysql/main.py:45-50 | `ping(reconnect=True)` reopens the existing connection and keeps its database; without a connection it raises `AttributeError` |
| LegacyMariaConnector.MariaConnect.CursorExecute | src/util/mysql/main.py:69 | a statement runs only over an open connection |
| LegacyMariaConnector.MariaConnect.CursorExecuteMany | src/util/mysql/main.py:196-197 | `executemany` succeeds exactly when all rows bind, the connection is open and the server accepts |
| LegacyMariaConnector.MariaConnect.Delete | src/util/mysql/main.py:52-78 | it succeeds exactly for a delete query over an open connection the server accepts; every failure is `ValueError("Please set your query")` |
| LegacyMariaConnector.MariaConnect.Truncate | src/util/mysql/main.py:80-107 | it truncates `db.table` or `table`; every failure is `ValueError("Please set your table name")` |
| LegacyMariaConnector.MariaConnect.Select | src/util/mysql/main.py:109-156 | it returns every row of a select query over an open connection; every failure is `ValueError("Please set your query")` |
| LegacyMariaConnector.MariaConnect.Insert | src/util/mysql/main.py:158-208 | it succeeds exactly when well-shaped rows bind to the `%(f)` statement; such rows have no fields; every failure is `ValueError("Input data != type(list) or empty")` |
| LegacyMariaConnector.MariaConnect.Merge | src/util/mysql/main.py:210-272 | as the older `insert`, with the update clause; a successful merge had rows without fields |
| LegacyMariaConnector.NoBareKeyRowBinds | src/util/mysql/main.py:188-197 | rows that all bind to the older statement have no fields |
| MongoStore.Filter | src/pydb/util/mongo/main.py:120-125 | `find` returns exactly the documents matching the query, in collection order |
| MongoStore.Without | src/pydb/util/mongo/main.py:224-225 | `delete_many` keeps exactly the documents not matching the query, in order |
| MongoStore.FindDeletePartition | src/pydb/util/mongo/main.py:120-225 | what `find` returns and what `delete_many` keeps together make up the collection |
| MongoStore.InsertManyOutcome | src/pydb/util/mongo/main.py:166 | an ordered `insert_many` writes the rows before the first duplicate `_id` and reports whether it stopped |
| MongoStore.FoundMeans | src/pydb/util/mongo/main.py:171-173 | the handler's set holds exactly the batch `_id`s now stored in the collection |
| MongoStore.ClassifiedWriteStoresRows | src/pydb/util/mongo/main.py:176-186 | replacing found rows and inserting the others stores every row under its `_id`, keeps `_id`s unique and leaves other documents unchanged |
| MongoStore.FreshBatchInserts | src/pydb/util/mongo/main.py:166 | a batch of new, distinct `_id`s is appended in full |
| MongoStore.InsertManyKeeps | src/pydb/util/mongo/main.py:166-168 | the rows `insert_many` wrote before failing keep `_id`s unique and are found again by the handler |
| MongoStore.MergeHandlerStoresRows | src/pydb/util/mongo/main.py:168-186 | after a failed `insert_many`, the handler's bulk write stores every row |
| MongoStore.MergeInsertStoresRows | src/pydb/util/mongo/main.py:161-186 | a merge-mode insert of distinct `_id`s never fails and leaves every row stored under its `_id` and every other document as it was |
| MongoStore.ThreeRowMerge | src/pydb/util/mongo/main.py:161-186 | with the second of three rows already stored: `insert_many` writes the first and stops; the handler replaces the first two and inserts the third |
| MongoConnector.FaultError | src/pydb/util/mongo/main.py:129-132 | an `OperationFailure` gets the operation's prefix and any other `PyMongoError` the generic one |
| MongoConnector.Route | src/pydb/util/mongo/main.py:107-118 | the checks pass exactly when the ping is answered and the database (named, or last selected) and the collection exist; each failure has its own error |
| MongoConnector.AsDocs | src/pydb/util/mongo/main.py:166 | the batch reaches the server as documents only when every item is a dict |
| MongoConnector.WithId | src/pydb/util/mongo/main.py:166 | a stored document keeps its `_id`, or gets the one pymongo assigns |
| MongoConnector.AssignIdsDistinct | src/pydb/util/mongo/main.py:166 | a row that carries an `_id` keeps it; when carried `_id`s are distinct and differ from the assigned `ObjectId`s, the batch has distinct `_id`s |
| MongoConnector.InsertOutcomeMeans | src/pydb/util/mongo/main.py:161-192 | without merge mode an insert succeeds exactly when every `_id` is new and distinct, and a duplicate leaves a prefix inserted; with merge mode and distinct `_id`s it succeeds and stores every row |
| MongoConnector.MergeRequests | src/pydb/util/mongo/main.py:171-183 | the handler's two loops give one replace per found `_id` and one insert per other row, in row order |
| MongoConnector.MongoConnect.constructor | src/pydb/util/mongo/main.py:17-29 | a connector starts with one client, open, with no database or collection selected |
| MongoConnector.MongoConnect.Open | src/pydb/util/mongo/main.py:17-29 | a refused client becomes `RuntimeError("Error connection to the database: ...")` |
| MongoConnector.MongoConnect.Close | src/pydb/util/mongo/main.py:50-54 | `close` closes the client and changes nothing else |
| MongoConnector.MongoConnect.Ping | src/pydb/util/mongo/main.py:56-65 | a lost connection builds a new client; a refused command raises `RuntimeError`; the selection is kept |
| MongoConnector.MongoConnect.CheckDatabase | src/pydb/util/mongo/main.py:67-76 | it passes exactly when the database exists |
| MongoConnector.MongoConnect.CheckCollection | src/pydb/util/mongo/main.py:78-90 | it passes in create mode, or when the selected database holds the collection; with no database selected it raises `AttributeError` |
| MongoConnector.Selected | src/pydb/util/mongo/main.py:107-118 | after the shared steps `db` is the named database once its check passes, and stays as it was when the ping fails or no database is named |
| MongoConnector.MongoConnect.Target | src/pydb/util/mongo/main.py:107-118 | the shared steps select the database and collection exactly when `Route` allows; `db` becomes `Selected`, and a lost connection adds one client |
| MongoConnector.MongoConnect.Find | src/pydb/util/mongo/main.py:93-132 | an empty query is refused and changes nothing; otherwise the result is the matching documents in collection order, `db` and `col` are those the shared steps select, and a lost connection adds one client; the data is unchanged |
| MongoConnector.MongoConnect.Insert | src/pydb/util/mongo/main.py:134-192 | a non-list or empty batch is refused and changes nothing; otherwise the collection and the result are those of `InsertOutcome`, `db` and `col` are those the shared steps select, and a lost connection adds one client |
| MongoConnector.MongoConnect.WriteBatch | src/pydb/util/mongo/main.py:161-188 | the collection becomes what `insert_many` and the merge handler leave; no other collection changes, and the client, `db` and `col` stay as they were |
| MongoConnector.MongoConnect.Delete | src/pydb/util/mongo/main.py:194-230 | an empty query is refused and changes nothing; without `override` nothing is removed; with it exactly the matching documents go; `db` and `col` are those the shared steps select, and a lost connection adds one client |
| MongoConnector.InsertAsWrittenNeverRuns | src/pydb/util/mongo/main.py:134-139 | as written, `rows` is var-positional: a keyword `rows` raises `TypeError` and a positional one arrives as a tuple and fails the list check, so no insert reaches the server |
| MongoConnector.DeleteAsWrittenNeverDeletes | src/pydb/util/mongo/main.py:194-199 | as written, `query` is var-positional: only a call without `override` returns normally, and with `override` pymongo refuses the tuple as a filter |
| AzureConnector.ConnectionStringParts | src/pydb/util/azure/main.py:31-36 | the connection string splits on `;` into protocol, account name, account key and suffix |
| AzureConnector.FormattedBatchEntries | src/pydb/util/azure/main.py:42-57 | the formatted batch has one entry per entity, in order, exactly when every entity carries both keys and all share the first entity's partition |
| AzureConnector.KeyOf | src/pydb/util/azure/main.py:116-117 | an entity has a key exactly when it is a dict with PartitionKey and RowKey |
| AzureConnector.Untouched | src/pydb/util/azure/main.py:117 | the stored properties the new entity does not set |
| AzureConnector.OverlayGet | src/pydb/util/azure/main.py:117 | after a MERGE upsert, a property comes from the new entity when it sets it, and otherwise from the stored one |
| AzureConnector.UpsertOne | src/pydb/util/azure/main.py:117 | a single upsert stores the merged entity under its key and changes nothing else |
| AzureConnector.DeleteOne | src/pydb/util/azure/main.py:151 | a single delete removes exactly the entity's key |
| AzureConnector.EntryOf | src/pydb/util/azure/main.py:120-122 | the client adds an entity to a batch exactly when it has both keys and its PartitionKey is the first entity's; with both keys present the only refusal is `ValueError("Partition Keys must all be the same")` |
| AzureConnector.BatchEntriesMeans | src/pydb/util/azure/main.py:120-122 | a batch has entries exactly when every entity has both keys and all share one partition; the entries are those keys and properties, in order |
| AzureConnector.KeyedBatchError | src/pydb/util/azure/main.py:120-122 | when every entity of a batch has both keys, the client's only error is the mixed-partition `ValueError` |
| AzureConnector.Transact | src/pydb/util/azure/main.py:122 | a transaction is applied in full exactly when the client can assemble it and the service accepts it, and otherwise not at all; the client refuses it exactly when an entity lacks a key or lies outside the first entity's partition |
| AzureConnector.ApplyAllUpserts | src/pydb/util/azure/main.py:120-122 | after an upsert batch every entity is stored merged and every other entity is untouched |
| AzureConnector.ApplyAllDeletes | src/pydb/util/azure/main.py:154-156 | after a delete batch exactly the batch's entities are gone |
| AzureConnector.Plan | src/pydb/util/azure/main.py:116-122 | a dict, or a one-element list's element, goes to the single call; any other list becomes one transaction |
| AzureConnector.OneElementListFails | src/pydb/util/azure/main.py:116-117 | as written, a one-element list is passed whole to the single call, which raises `TypeError` |
| AzureConnector.OneElementListIsItsElement | src/pydb/util/azure/main.py:150-151 | as corrected, a one-element list does what its element does |
| AzureConnector.FiveEntitiesOneMalformed | src/pydb/util/azure/main.py:120-122 | a five-entity batch whose third entity has no RowKey writes nothing |
| AzureConnector.AzureTable.constructor | src/pydb/util/azure/main.py:23-40 | the connection string is built from the storage name and the account key |
| AzureConnector.KeysRead | src/pydb/util/azure/main.py:116-122 | the client prepares the request without error exactly when the single entity carries both keys, or every entity of the batch does and all share one partition; a keyed batch in two partitions fails with the mixed-partition `ValueError` |
| AzureConnector.MixedPartitionsFailInClient | src/pydb/util/azure/main.py:120-127 | a batch of keyed entities in two partitions fails with `RuntimeError` behind the generic prefix and the client's message, whatever the service's state and whether the table exists; no table changes |
| AzureConnector.SubmitOutcomeMeans | src/pydb/util/azure/main.py:109-161 | a write or delete succeeds exactly when the arguments pass, the client can read every key (and finds one partition in a batch), the service is reachable and, on an existing table, the operation or transaction goes through; on a missing table only a single delete succeeds, changing nothing; a failure leaves every table as it was and is a `RuntimeError` behind one of the two prefixes |
| AzureConnector.MissingTableOutcome | src/pydb/util/azure/main.py:109-161 | on a missing table a transaction fails behind the operation's transaction prefix, a single upsert behind the generic prefix, and a single delete succeeds; no table changes |
| AzureConnector.AzureTable.Submit | src/pydb/util/azure/main.py:109-161 | the result and the new tables are those of `SubmitOutcome` |
| AzureConnector.AzureTable.InsertEntity | src/pydb/util/azure/main.py:96-127 | the result and the new tables are those of `SubmitOutcome` for an upsert, with `Error while updating entity: ` for a failed transaction (a batch on a missing table included) and no prefix otherwise; on success a dict is merged into its key, and a batch is applied in full after the service accepted it; on failure nothing changes |
| AzureConnector.AzureTable.DeleteEntity | src/pydb/util/azure/main.py:129-161 | the result and the new tables are those of `SubmitOutcome` for a delete, with `Error while deleting entity: ` for a failed transaction (a batch on a missing table included) and `Error: ` otherwise; a single delete on a missing table succeeds and changes nothing; on an existing table a dict's key is gone, and a batch is applied in full; on failure nothing changes |
| AzureConnector.QueryPager | src/pydb/util/azure/main.py:163-197 | as intended, table name, select, parameters and filter are checked in that order, and the pager over those arguments is returned exactly when all four are given |
| AzureConnector.QueryEntityNeverReturns | src/pydb/util/azure/main.py:182-202 | as written, `query_entity` fails with the argument errors of `QueryPager`, and wherever `QueryPager` returns a pager it raises `RuntimeError` from awaiting it; it never returns |
| SqliteConnector.ColumnsMatchPlaceholders | src/pydb/util/sqlite/main.py:74-77 | the insert statement has exactly as many `?` as columns, and its column list reads back as the bracketed keys |
| SqliteConnector.CreateTableColumns | src/pydb/util/sqlite/main.py:54-55 | the column definitions read back in the map's order |
| SqliteConnector.Params | src/pydb/util/sqlite/main.py:78 | the parameters are each row's own values; when an item is not a dict, every item before it is one and the error is the `AttributeError` for it |
| SqliteConnector.BindingMismatch | src/pydb/util/sqlite/main.py:78 | there is no binding error exactly when every parameter row has as many values as the statement has `?`; otherwise the first row that differs raises sqlite3's `ProgrammingError` |
| SqliteConnector.WriteOutcomeMeans | src/pydb/util/sqlite/main.py:60-101 | an insert or merge succeeds exactly when the values are a non-empty list of dicts as long as the first and the statement runs; it then sends every row's values once and commits; the argument checks fail in the source's order without any call, and a failure never commits |
| SqliteConnector.SQLiteConnector.constructor | src/pydb/util/sqlite/main.py:24-27 | a connector starts with its database path and no statements |
| SqliteConnector.SQLiteConnector.CreateTable | src/pydb/util/sqlite/main.py:44-57 | `CREATE TABLE IF NOT EXISTS` runs and is committed, or the error is raised |
| SqliteConnector.SQLiteConnector.Write | src/pydb/util/sqlite/main.py:70-79 | the result and the recorded calls are those of `WriteOutcome` |
| SqliteConnector.SQLiteConnector.Insert | src/pydb/util/sqlite/main.py:60-79 | the result and the recorded calls are those of `WriteOutcome` with `INSERT OR IGNORE` |
| SqliteConnector.SQLiteConnector.Merge | src/pydb/util/sqlite/main.py:82-101 | the result and the recorded calls are those of `WriteOutcome` with `INSERT OR REPLACE` |
| SqliteConnector.SQLiteConnector.Select | src/pydb/util/sqlite/main.py:110-126 | the select runs and `fetchall` returns the rows |
| DatabaseDispatch.KindOf | src/pydb/main/database.py:34-47 | "signal" and "record" select MariaDB, "sequence" selects MongoDB and "azure" selects Azure; no other name is accepted |
| DatabaseDispatch.AcceptedNamesMissBranches | src/pydb/main/database.py:96-111 | as written, of the accepted names only "azure" reaches a branch of `select` or `insert` |
| DatabaseDispatch.DatabaseConnect.constructor | src/pydb/main/database.py:31-32 | the facade holds its name, its override flag and its connector |
| DatabaseDispatch.BindGetSecretMeans | src/pydb/main/func/get_secrets.py:20-23 | a call binds to `get_secret(secret_name, *, override, path)` exactly when it names only those parameters and gives `secret_name` once, by position or keyword; any other call raises `TypeError` |
| DatabaseDispatch.NoNameBuildsFacade | src/pydb/main/database.py:34-35 | as written, `get_secret(self.name, self.override)` raises `TypeError("get_secret() takes 1 positional argument but 2 were given")` for every name, before the name is looked at; the intended keyword call binds |
| DatabaseDispatch.DatabaseConnect.Open | src/pydb/main/database.py:34-47 | with the secret fetched by the intended keyword call, an unknown name raises `TypeError`; otherwise the connector matching the name is built from the secret, pooled for MariaDB |
| DatabaseDispatch.DatabaseConnect.Select | src/pydb/main/database.py:68-113 | each connector gets its own argument checks; MariaDB returns the query's rows; Azure returns an unawaited query; every failure is `ValueError("Invalid input arguments")` |
| DatabaseDispatch.DatabaseConnect.Insert | src/pydb/main/database.py:115-158 | MariaDB merges or inserts, MongoDB inserts into the given or default database, and Azure returns an unawaited `insert_entity`; every failure is `ValueError("Invalid input arguments")` |
| DatabaseDispatch.DatabaseConnect.Close | src/pydb/main/database.py:160-162 | MariaDB and MongoDB close; Azure has no `close` and raises `AttributeError` |
| DatabaseDispatch.DatabaseConnect.Exit | src/pydb/main/database.py:54-66 | the connector is closed, then the method returns `True` after a clean block and raises `BaseException` otherwise |

## Left out

- I/O, the network and the servers are not modelled. What a server answers is a parameter of each call. Messages that come from pymysql, pymongo, sqlite3 or the Azure SDK are paraphrased.
- Compression: zstandard is a pair of functions. The round trip assumes it is lossless, as a precondition.
- Concurrency and `async` execution are left out. An Azure call made through the facade is returned as a pending call, not run.
- `Text.Lower` folds ASCII letters only.
- `__enter__` and `__exit__` of the connectors are not modelled; the facade's `__exit__` is. `SQLiteConnector.__exit__` refers to attributes the class never sets.
- Logging: the `log` decorator and the logger configuration are left out. The decorator re-raises what it catches.
- What `get_secret` reads from the key vault or a file is not part of this model; only how a call binds to its signature is (`DatabaseDispatch.BindGetSecret`). The credential set it returns is a parameter of `DatabaseConnect.Open`.
- DatabaseDispatch.DatabaseConnect.Open fetches the secret with the evidently intended `get_secret(self.name, override=self.override)`; as written the call passes two positional arguments and every construction raises `TypeError` (`DatabaseDispatch.NoNameBuildsFacade`).
- The facade imports `util.mysql.main`, `util.mongo.main` and `util.azure.main`. Under the package layout the first is the older MariaDB revision, and the model uses that. The MongoDB and Azure modules under `src/util` are not part of this model; the `src/pydb` versions stand in for them.
- Use of a MongoDB connector after `close` is not modelled. Neither are client construction failing during a reconnect and `list_database_names` failing.
- `create_table` and `delete_table` of `AzureTable` are not modelled.
- Pager contents and the Azure filter language are not modelled. In particular, a filter naming a `@parameter` that `parameters` lacks makes `query_entities` raise `KeyError` before the pager is awaited; `AzureConnector.AzureTable.QueryEntity` reports the await error for it, and still never returns. Neither are MongoDB query operators beyond field equality, which is what `Matches` models.
- Deleting a missing Azure entity, or a single entity of a missing table, succeeds silently: the SDK's `delete_entity` ignores the service's 404.
- The Azure service's transaction rules are a predicate: 1 to 100 operations, distinct keys, and deletes only of stored entities. The one-partition rule is the client's, checked entity by entity as it assembles the batch (`AzureConnector.EntryOf`).
- MongoDB collections are sequences in natural order, not keyed stores.
- Python's `%` formatting is modelled only for `%%` and `%(name)s`. Key names containing `%` or parentheses are outside the binding lemmas.
- The DBUtils `PooledDB` object and its connection reuse are left out. `PooledDb.PooledDB` returns the settings the pool is built from.
- MariaConnector.MariaConnect.Select and LegacyMariaConnector.MariaConnect.Select require a positive `chunk_size`. With zero or a negative size the loop `len(rst) < chunk_size` never ends.
- DatabaseDispatch.DatabaseConnect.Select: for MongoDB the contract states only that a success returns found documents after the argument checks; the documents themselves are stated by `MongoConnect.Find`.
- DatabaseDispatch.DatabaseConnect.Select: a truthy MongoDB query that is not a dict is refused before the connector runs; the source still pings and selects the database and collection, then fails at `find` with the same `ValueError`.
- DatabaseDispatch.DatabaseConnect.Select: a MariaDB query that is not a string is reported as the facade's `ValueError`, not as the error the connector would raise on it.
- DatabaseDispatch.DatabaseConnect.Insert: for MariaDB and MongoDB the contract states the conditions a success needs, not the whole new state; the connectors' own contracts state that.
- AzureConnector.AzureTable.Submit, AzureConnector.AzureTable.InsertEntity and AzureConnector.AzureTable.DeleteEntity route a one-element list to its element, the corrected behaviour of the second finding; as written the list is passed whole and fails (`AzureConnector.OneElementListFails`).
- AzureConnector.AzureTable.QueryEntity is the source as written and returns no pager; `AzureConnector.QueryPager` is the corrected version, and the facade's pending Azure query stands for its call.
- The Azure SDK's error messages are paraphrased: the message for a missing table, and the messages for a list or scalar entity, which the SDK words differently for the upsert, the delete and the transaction. Which prefix the source adds is modelled: a transaction on a missing table fails as a transaction, behind the operation's prefix.

Behaviour the code does not have:
- The code does not reject `--` comments in queries.
- The code does not commit or roll back depending on the row count.
- The code does not keep the pool as a singleton.
- A three-row MongoDB merge whose second row is a duplicate works as follows:
  1. `insert_many` stores the first row and stops.
  2. The handler replaces the first two rows and inserts the third.
- Azure atomicity holds only for the transaction route. A malformed entity stops the client before anything is sent.

## Findings

| source | as written | input that shows it | evidently intended | confidence | as-written member | corrected member |
|---|---|---|---|---|---|---|
| src/util/mysql/main.py:189 | placeholders are written `%(f)` with no conversion character, so pymysql's `%` binding raises for every row | any row with a field, e.g. `[{"a": 1}]` for `insert` | `%(f)s` as in the current revision, binding every row with the first row's keys | high, not executed | SqlText.BareKeysNeverBind | SqlText.StatementBinds |
| src/pydb/util/azure/main.py:116-117 | a one-element list is passed whole to `upsert_entity`/`delete_entity`, which index it by "PartitionKey" and raise `TypeError` (also lines 150-151) | `entity=[{"PartitionKey": "p", "RowKey": "r"}]` | pass the list's element to the single-entity call | high, not executed | AzureConnector.OneElementListFails | AzureConnector.AzureTable.Submit |
| src/pydb/util/azure/main.py:193-197 | the result of `query_entities`, an `AsyncItemPaged`, is awaited; it is not awaitable, so the `TypeError` is rewrapped as `RuntimeError` and nothing is returned | any call whose four arguments pass, e.g. `query_entity(select=["a"], parameters={"p": 1}, name_filter="a eq @p", table_name="t")` | return the pager without awaiting it | high, not executed | AzureConnector.QueryEntityNeverReturns | AzureConnector.QueryPager |
| src/pydb/util/mongo/main.py:134-136 | the line break after `*` makes `*rows` var-positional, so `rows` is no keyword parameter: a keyword call raises `TypeError` and a positional one passes a tuple that fails `type(rows) == list` | `insert(rows=[{"_id": 1}], collection_name="c")` | a bare `*` with keyword-only `rows` | high, not executed | MongoConnector.InsertAsWrittenNeverRuns | MongoConnector.MongoConnect.Insert |
| src/pydb/util/mongo/main.py:194-196 | the same line break makes `*query` var-positional: a keyword call raises `TypeError`, and with `override` the tuple reaches `delete_many`, which refuses it as a filter | `delete("x", collection_name="c", database="d", override=True)` with `"d"` and `"c"` existing | keyword-only `query` | high, not executed | MongoConnector.DeleteAsWrittenNeverDeletes | MongoConnector.MongoConnect.Delete |
| src/pydb/main/database.py:35 | `get_secret(self.name, self.override)` passes `override` by position, but `get_secret` takes it only by keyword, so the call raises `TypeError` and the `log` wrapper re-raises it | `databaseConnect("signal")`, or any other name | `get_secret(self.name, override=self.override)` | high, not executed | DatabaseDispatch.NoNameBuildsFacade | DatabaseDispatch.DatabaseConnect.Open |
| src/pydb/main/database.py:96-111 | `select` and `insert` test the name against "mariadb" and "mongodb", which `__post_init__` never accepts, so they return `None` for "signal", "record" and "sequence" (also lines 129-156) | `databaseConnect("signal").select(query="SELECT 1")` | route by the connector `__post_init__` built | high, not executed | DatabaseDispatch.AcceptedNamesMissBranches | DatabaseDispatch.DatabaseConnect.Select |

The corrected statement of the first finding is the one the current `mariaConnect` revision builds, and `MariaConnector` uses it. The facade keeps the import the source makes: under `package_dir = {'': 'src'}`, `util.mysql.main` is the older revision. So `DatabaseConnect` inherits that finding for MariaDB writes.
