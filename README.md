# databaseoperacion: a verified model of the synchronisation services

The repository applies a batch of row changes to a relational table. A
request (`TableData`) names a table, its declared columns with primary-key
markers, an operation (`Create`, `Update` or `Delete`) and the rows, each a
list of (column name, value) pairs. There are two services, one per
database:

- `DatabaseOperationPostgresService`
- `DatabaseOperationSQLServerService`

Each service runs every request in its own connection and transaction:

1. It names a staging table after the target and the clock ticks.
2. It creates the staging table empty, with the target's shape.
3. It bulk-loads the rows into the staging table:
   - Postgres uses a binary `COPY` stream;
   - SQL Server builds a `DataTable` and hands it to `SqlBulkCopy`.
4. It runs one set-based statement from the staging table into the target:
   `INSERT ... SELECT`, `UPDATE ... FROM` joined on the keys, or a
   keyed `DELETE`.
5. It commits and returns the driver's affected-row count.

Any exception inside the transaction's `try` rolls back and returns 0. A
failure to open the connection or begin the transaction happens outside the
`try` and reaches the caller.

The Dafny modules follow this structure:

- `Text` holds string joining, the loop form of a join, decimal tick
  rendering and splitting.
- `Tables` holds the request.
- `Transactions` holds the transaction sequence shared by both services:
  - a `Session` class for the connection and transaction;
  - `PathRun`, the specification of one operation path;
  - `Collect`, the batch loop.
- `PostgresSql` and `PostgresService` model the Postgres service.
- `SqlServerSql`, `SqlServerBulk` and `SqlServerService` model the SQL Server
  service. `SqlServerBulk` holds `DataTable` and `DataRow` as classes.

Every operation path is a method over a `Session`. It is proved equal to
`PathRun` of the path's staged statements. `PathRun` itself proves:

- It commits exactly when every step succeeds, and then returns the driver's count.
- Every other failure inside the `try` ends in a rollback and returns 0. If
  the rollback itself throws, that failure is raised.
- `Open` and `BeginTransaction` failures propagate.

Driver calls succeed or throw as an `Env` value says. `Env.ticks` stands for
`DateTime.Now.Ticks`.

## Behaviour worth knowing

- Failures inside the `try` are swallowed into a returned 0; a caller is
  not told of them. `Transactions.ZeroIsAmbiguous` shows that a caller
  cannot tell this 0 from a committed statement that touched no row.
- `Update` and `Delete` run even when no column is a primary key:
  - The Postgres update ends in `WHERE 1=1 AND `. The SQL Server update ends
    with its `ON` line. Both delete statements end with an empty condition
    line.
  - What the database then does is up to the database.
- The only validation is the empty table name. It is checked inside the
  `try`, after the connection is open, so it also rolls back into 0.
- The update's `SET` list assigns every declared column, keys included.
- An operation outside the three named ones returns 0 without opening a
  connection.
- The Postgres import writes each row's values in the order the row lists
  them, not in the order of the declared columns named in the `COPY`
  header. The SQL Server `DataTable` places each value under the column its
  key names. `SqlServerBulk.RowOrderDiffers` exhibits a row on which the
  two services stage different values.

## Model

| member | source | states |
|---|---|---|
| Text.Map | DatabaseOperation/Services/DatabaseOperationPostgresService.cs:150-152 | the projection has one element per input, each the function applied to the input at the same position |
| Text.Join | DatabaseOperation/Services/DatabaseOperationPostgresService.cs:154 | `string.Join`: the items with the separator between each two of them, nothing for no item; its properties are JoinAppend, TerminatedThenLast and SplitJoin |
| Text.JoinAppend | DatabaseOperation/Services/DatabaseOperationPostgresService.cs:154 | joining two non-empty lists is joining each with one separator between them |
| Text.TerminatedThenLast | DatabaseOperation/Services/DatabaseOperationPostgresService.cs:163-173 | a loop that appends item and separator for all items but the last, then the bare last item, produces the join |
| Text.TerminatedStep | DatabaseOperation/Services/DatabaseOperationPostgresService.cs:163-173 | one loop step appends the next item and the separator |
| Text.TerminatedThenLastItem | DatabaseOperation/Services/DatabaseOperationPostgresService.cs:163-173 | the loop's final step completes the join of all items |
| Text.NatToString | DatabaseOperation/Services/DatabaseOperationPostgresService.cs:243-244 | the tick count renders as a non-empty string of decimal digits without a leading zero |
| Text.ParseNatToString | DatabaseOperation/Services/DatabaseOperationPostgresService.cs:243-244 | reading the rendered digits back gives the tick count |
| Text.NatToStringInjective | DatabaseOperation/Services/DatabaseOperationPostgresService.cs:243-244 | different tick counts render differently |
| Text.SplitJoin | DatabaseOperation/Services/DatabaseOperationPostgresService.cs:202 | splitting a comma join on the comma gives the items back when no item contains a comma |
| Tables.Names | DatabaseOperation/Services/DatabaseOperationPostgresService.cs:202 | the declared names, one per property, in declaration order |
| Tables.KeyNames | DatabaseOperation/Services/DatabaseOperationPostgresService.cs:158-161 | exactly the names of the primary-key properties, no more of them than properties, empty exactly when no property is a key |
| Tables.KeyNamesAppend | DatabaseOperation/Services/DatabaseOperationPostgresService.cs:158-161 | key selection keeps declaration order across a concatenation |
| Tables.NonKeyAddsNoKeyName | DatabaseOperation/Services/DatabaseOperationPostgresService.cs:158-161 | a non-key column adds no key name |
| Transactions.PathRun | DatabaseOperation/Services/DatabaseOperationPostgresService.cs:43-74 | the run opens first; on success the calls are open, begin, create, load, merge and commit in that order; it commits exactly when open, begin, staging, merge statement and commit all succeed, and then returns the driver's count with no rollback; any other failure after begin ends in a rollback that returns 0, or raises when the rollback throws; open and begin failures propagate; the merge runs only on a loaded staging table; an empty name issues no statement |
| Transactions.ZeroIsAmbiguous | DatabaseOperation/Services/DatabaseOperationPostgresService.cs:63-73 | a committed merge that affected 0 rows and a rolled-back failure return the same outcome |
| Transactions.UnshapedRollsBack | DatabaseOperation/Services/DatabaseOperationSQLServerService.cs:50-76 | when building the bulk load throws, the path opens, begins, creates the staging table and rolls back to 0, with no load call |
| Transactions.Session.constructor | DatabaseOperation/Services/DatabaseOperationPostgresService.cs:45 | a new connection is closed and has made no call |
| Transactions.Session.Open | DatabaseOperation/Services/DatabaseOperationPostgresService.cs:47 | records the open and connects exactly when the driver succeeds |
| Transactions.Session.Begin | DatabaseOperation/Services/DatabaseOperationPostgresService.cs:49 | records the begin and activates the transaction exactly when the driver succeeds |
| Transactions.Session.Send | DatabaseOperation/Services/DatabaseOperationPostgresService.cs:193-194 | records a statement or a bulk load inside the active transaction and reports whether it threw |
| Transactions.Session.ExecuteNonQuery | DatabaseOperation/Services/DatabaseOperationPostgresService.cs:58-61 | records the statement and returns the driver's count, or none when it throws |
| Transactions.Session.Commit | DatabaseOperation/Services/DatabaseOperationPostgresService.cs:63 | records the commit and finishes the transaction exactly when the driver succeeds |
| Transactions.Session.Rollback | DatabaseOperation/Services/DatabaseOperationPostgresService.cs:70 | records the rollback and ends the transaction exactly when the driver succeeds |
| Transactions.Connect | DatabaseOperation/Services/DatabaseOperationPostgresService.cs:45-49 | open then begin, outside the try: active after both succeed, otherwise the first failure with the calls made so far |
| Transactions.Conclude | DatabaseOperation/Services/DatabaseOperationPostgresService.cs:63-73 | with a count and a successful commit, returns the count; otherwise commits if a count exists, then rolls back and returns 0, or raises the rollback's failure |
| Transactions.Collect | DatabaseOperation/Services/DatabaseOperationPostgresService.cs:25-30 | the batch result of the outcomes in order: the list of counts, or the first exception, which discards the counts so far; its properties are CollectPointwise and CollectAbortedPrefix |
| Transactions.CollectPointwise | DatabaseOperation/Services/DatabaseOperationPostgresService.cs:23-31 | the batch completes exactly when no request raised, and then has one count per request in request order; otherwise it reports the first request that raised |
| Transactions.CollectAbortedPrefix | DatabaseOperation/Services/DatabaseOperationPostgresService.cs:27-28 | once a request has raised, later requests do not change the batch result |
| PostgresSql.TempTableName | DatabaseOperation/Services/DatabaseOperationPostgresService.cs:236-245 | none exactly for an empty table name; otherwise the table name, two underscores and the ticks' decimal digits |
| PostgresSql.TempTableNamesDiffer | DatabaseOperation/Services/DatabaseOperationPostgresService.cs:243-244 | different ticks give different staging names, and none equals the table name |
| PostgresSql.TempTableDdl | DatabaseOperation/Services/DatabaseOperationPostgresService.cs:191-195 | the text CREATE TEMP TABLE, the staging name, ON COMMIT DROP AS SELECT * FROM, the schema, a dot, the target table and LIMIT 0 |
| PostgresSql.InsertSql | DatabaseOperation/Services/DatabaseOperationPostgresService.cs:140-144 | the text INSERT INTO, the schema, a dot, the target table, SELECT * FROM, the staging name and a trailing space |
| PostgresSql.GenerateUpdate | DatabaseOperation/Services/DatabaseOperationPostgresService.cs:145-176 | the builder loop produces the head followed by the key conditions joined with AND |
| PostgresSql.UpdateSql | DatabaseOperation/Services/DatabaseOperationPostgresService.cs:145-176 | the update text: the SET list of every declared column, `FROM` the staging table aliased `S`, `WHERE 1=1 AND `, then the key conditions joined with AND; its properties are UpdateWithoutKeys, SetListAppend, UpdateKeysAppend and UpdateKeysNonKey, and GenerateUpdate is proved equal to it |
| PostgresSql.UpdateWithoutKeys | DatabaseOperation/Services/DatabaseOperationPostgresService.cs:158-173 | with no key the update is the head alone, ending in WHERE 1=1 AND |
| PostgresSql.SetListAppend | DatabaseOperation/Services/DatabaseOperationPostgresService.cs:150-154 | a column declared last adds one assignment after a comma |
| PostgresSql.UpdateKeysAppend | DatabaseOperation/Services/DatabaseOperationPostgresService.cs:158-173 | a key declared last, after at least one key, adds one AND-separated condition at the end |
| PostgresSql.UpdateKeysNonKey | DatabaseOperation/Services/DatabaseOperationPostgresService.cs:158-161 | a non-key column declared last leaves the key conditions unchanged, whatever the other columns |
| PostgresSql.DeleteSql | DatabaseOperation/Services/DatabaseOperationPostgresService.cs:178-190 | the header line DELETE FROM schema.table c USING staging S WHERE 1=1 AND, a newline, the key conditions joined with AND on one line, a newline |
| PostgresSql.DeleteUsesOnlyKeys | DatabaseOperation/Services/DatabaseOperationPostgresService.cs:178-190 | the delete depends only on the key names, in order |
| PostgresSql.DeleteKeysAppend | DatabaseOperation/Services/DatabaseOperationPostgresService.cs:183-187 | a key declared last, after at least one key, adds one AND-separated delete condition at the end |
| PostgresSql.DeleteKeysNonKey | DatabaseOperation/Services/DatabaseOperationPostgresService.cs:183-185 | a non-key column declared last leaves the delete conditions unchanged, whatever the other columns |
| PostgresSql.CopyCommand | DatabaseOperation/Services/DatabaseOperationPostgresService.cs:200-203 | the text COPY, the staging name, the declared names joined with commas in parentheses, FROM STDIN (FORMAT BINARY) |
| PostgresSql.CopyLoad | DatabaseOperation/Services/DatabaseOperationPostgresService.cs:196-224 | the binary import of the request: the COPY header, then per row a start and its values, then complete; its properties are CopyListsDeclaredColumns and DecodeRowsStream |
| PostgresSql.CopyListsDeclaredColumns | DatabaseOperation/Services/DatabaseOperationPostgresService.cs:200-203 | the COPY header's column list splits back into the declared names |
| PostgresSql.RowValues | DatabaseOperation/Services/DatabaseOperationPostgresService.cs:211-214 | a row's values in the row's own order |
| PostgresSql.DecodeWrites | DatabaseOperation/Services/DatabaseOperationPostgresService.cs:209-214 | a started row followed by its writes decodes to one more row holding those values |
| PostgresSql.DecodeRowsStream | DatabaseOperation/Services/DatabaseOperationPostgresService.cs:207-215 | the import stream decodes to one row per data row holding that row's values in the row's order |
| PostgresSql.BulkIntoTempTable | DatabaseOperation/Services/DatabaseOperationPostgresService.cs:196-224 | the COPY header from the declared names, then per row a start and its values, then complete |
| PostgresSql.DdlNamesStaging | DatabaseOperation/Services/DatabaseOperationPostgresService.cs:191-195 | the staging name comes right after `CREATE TEMP TABLE`, followed by `ON COMMIT DROP` |
| PostgresSql.CopyNamesStaging | DatabaseOperation/Services/DatabaseOperationPostgresService.cs:200-203 | the staging name comes right after `COPY`, followed by the column list |
| PostgresSql.InsertNamesStaging | DatabaseOperation/Services/DatabaseOperationPostgresService.cs:140-144 | the staging name comes right after `SELECT * FROM` |
| PostgresSql.UpdateNamesStaging | DatabaseOperation/Services/DatabaseOperationPostgresService.cs:145-176 | the staging name comes right after `FROM`, aliased `S`, followed by `WHERE 1=1 AND ` |
| PostgresSql.DeleteNamesStaging | DatabaseOperation/Services/DatabaseOperationPostgresService.cs:178-190 | the staging name comes right after `USING`, aliased `S`, followed by `WHERE 1=1 AND ` |
| PostgresService.StagingTableShared | DatabaseOperation/Services/DatabaseOperationPostgresService.cs:225-234 | the DDL, the COPY and the merge statement all use the staging table |
| PostgresService.CreateAndFillTempTable | DatabaseOperation/Services/DatabaseOperationPostgresService.cs:225-234 | name, create, load, stopping at the first call that throws; the staging name is returned exactly when the table is loaded |
| PostgresService.MergeSql | DatabaseOperation/Services/DatabaseOperationPostgresService.cs:56-119 | the statement each path runs against the staging table: the insert for Create, the update for Update, the delete for Delete |
| PostgresService.StageOf | DatabaseOperation/Services/DatabaseOperationPostgresService.cs:225-234 | what a path prepares inside its `try`: no stage for an empty table name, otherwise the staging name, its DDL, the COPY load of the rows and the path's merge statement; its properties are StagingTableShared and the PathRun contract |
| PostgresService.Create | DatabaseOperation/Services/DatabaseOperationPostgresService.cs:43-74 | the run equals the transaction specification of the insert path |
| PostgresService.Delete | DatabaseOperation/Services/DatabaseOperationPostgresService.cs:75-106 | the run equals the transaction specification of the delete path |
| PostgresService.Update | DatabaseOperation/Services/DatabaseOperationPostgresService.cs:107-139 | the run equals the transaction specification of the update path |
| PostgresService.Execute | DatabaseOperation/Services/DatabaseOperationPostgresService.cs:33-42 | each named operation runs its path; any other returns 0 without a call |
| PostgresService.Dispatch | DatabaseOperation/Services/DatabaseOperationPostgresService.cs:33-42 | the run of one Execute: an operation outside the three named ones returns 0 with no call; each named one is the transaction specification of its own path |
| PostgresService.ExecuteBatch | DatabaseOperation/Services/DatabaseOperationPostgresService.cs:23-31 | the requests run in order until the first exception; on completion, one count per request, each that request's own result |
| SqlServerSql.TempTableName | DatabaseOperation/Services/DatabaseOperationSQLServerService.cs:244-253 | none exactly for an empty table name; otherwise a hash sign, the table name, two underscores and the ticks' decimal digits |
| SqlServerSql.TempTableNamesDiffer | DatabaseOperation/Services/DatabaseOperationSQLServerService.cs:251-252 | different ticks give different staging names, and none equals the table name |
| SqlServerSql.TempTableDdl | DatabaseOperation/Services/DatabaseOperationSQLServerService.cs:193-197 | the text SELECT TOP 0 * INTO, the staging name, FROM, the target table and a semicolon |
| SqlServerSql.InsertSql | DatabaseOperation/Services/DatabaseOperationSQLServerService.cs:142-146 | the text INSERT INTO, the target table (no schema), SELECT * FROM, the staging name and a trailing space |
| SqlServerSql.GenerateUpdate | DatabaseOperation/Services/DatabaseOperationSQLServerService.cs:147-178 | the builder loop produces the head followed by one line per key condition, AND ending every line but the last, nothing without a key |
| SqlServerSql.UpdateSql | DatabaseOperation/Services/DatabaseOperationSQLServerService.cs:147-178 | the update text: the SET list one column per line, `INNER JOIN` the staging table aliased `S` `ON`, then one line per key condition with AND ending all but the last; its properties are UpdateWithoutKeys, SetListAppend, UpdateKeysAppend and UpdateKeysNonKey, and GenerateUpdate is proved equal to it |
| SqlServerSql.UpdateWithoutKeys | DatabaseOperation/Services/DatabaseOperationSQLServerService.cs:160-175 | with no key the update is the head alone, ending with the ON line |
| SqlServerSql.SetListAppend | DatabaseOperation/Services/DatabaseOperationSQLServerService.cs:152-156 | a column declared last adds one assignment on its own line |
| SqlServerSql.UpdateKeysAppend | DatabaseOperation/Services/DatabaseOperationSQLServerService.cs:160-175 | a key declared last, after at least one key, puts AND at the end of the previous last line and adds its condition line |
| SqlServerSql.UpdateKeysNonKey | DatabaseOperation/Services/DatabaseOperationSQLServerService.cs:160-163 | a non-key column declared last leaves the key condition lines unchanged, whatever the other columns |
| SqlServerSql.DeleteSql | DatabaseOperation/Services/DatabaseOperationSQLServerService.cs:180-192 | the header line DELETE C FROM table C JOIN staging S ON, a newline, the key conditions joined with AND on one line, a newline |
| SqlServerSql.DeleteUsesOnlyKeys | DatabaseOperation/Services/DatabaseOperationSQLServerService.cs:180-192 | the delete depends only on the key names, in order |
| SqlServerSql.DeleteKeysAppend | DatabaseOperation/Services/DatabaseOperationSQLServerService.cs:185-189 | a key declared last, after at least one key, adds one AND-separated delete condition at the end |
| SqlServerSql.DeleteKeysNonKey | DatabaseOperation/Services/DatabaseOperationSQLServerService.cs:185-187 | a non-key column declared last leaves the delete conditions unchanged, whatever the other columns |
| SqlServerSql.DdlNamesStaging | DatabaseOperation/Services/DatabaseOperationSQLServerService.cs:193-197 | the staging name comes right after `SELECT TOP 0 * INTO`, followed by `FROM` |
| SqlServerSql.InsertNamesStaging | DatabaseOperation/Services/DatabaseOperationSQLServerService.cs:142-146 | the staging name comes right after `SELECT * FROM` |
| SqlServerSql.UpdateNamesStaging | DatabaseOperation/Services/DatabaseOperationSQLServerService.cs:147-178 | the staging name comes right after `INNER JOIN`, aliased `S`, followed by `ON` |
| SqlServerSql.DeleteNamesStaging | DatabaseOperation/Services/DatabaseOperationSQLServerService.cs:180-192 | the staging name comes right after `JOIN`, aliased `S`, followed by `ON` |
| SqlServerBulk.DataRow.constructor | DatabaseOperation/Services/DatabaseOperationSQLServerService.cs:215 | a new row of the table's columns with every cell unassigned |
| SqlServerBulk.DataRow.Set | DatabaseOperation/Services/DatabaseOperationSQLServerService.cs:219 | succeeds exactly when a column has the key's name, and then sets that column's cell to the value |
| SqlServerBulk.DataTable.constructor | DatabaseOperation/Services/DatabaseOperationSQLServerService.cs:206 | a new table has no columns and no rows |
| SqlServerBulk.DataTable.AddColumn | DatabaseOperation/Services/DatabaseOperationSQLServerService.cs:210 | adds the column at the end exactly when no column has that name |
| SqlServerBulk.DataTable.NewRow | DatabaseOperation/Services/DatabaseOperationSQLServerService.cs:215 | a fresh row over the table's columns, every cell unassigned |
| SqlServerBulk.DataTable.AddRow | DatabaseOperation/Services/DatabaseOperationSQLServerService.cs:222 | appends the row's cells |
| SqlServerBulk.Assigned | DatabaseOperation/Services/DatabaseOperationSQLServerService.cs:215-222 | a staged row has one cell per column |
| SqlServerBulk.ShapeRows | DatabaseOperation/Services/DatabaseOperationSQLServerService.cs:213-223 | one staged row per data row |
| SqlServerBulk.Shape | DatabaseOperation/Services/DatabaseOperationSQLServerService.cs:204-225 | no bulk copy when a declared name repeats or a row fails; otherwise the copy to the staging table with the declared names as columns and the staged rows; its properties are ShapeSucceeds and RowOrderDiffers |
| SqlServerBulk.AssignedCells | DatabaseOperation/Services/DatabaseOperationSQLServerService.cs:215-222 | a row is staged exactly when each key names a column; each column then holds the value the row gives its name last, or no value |
| SqlServerBulk.ShapeRowsPointwise | DatabaseOperation/Services/DatabaseOperationSQLServerService.cs:213-223 | all rows are staged exactly when each is; the staged rows are the rows' own cells in order |
| SqlServerBulk.ShapeSucceeds | DatabaseOperation/Services/DatabaseOperationSQLServerService.cs:206-225 | shaping succeeds exactly when the declared names are distinct and every key is one of them; the copy then goes to the staging table with the declared columns and each cell holding its column's last value |
| SqlServerBulk.AssignedFailsFrom | DatabaseOperation/Services/DatabaseOperationSQLServerService.cs:217-220 | once setting a cell fails, the row fails |
| SqlServerBulk.ShapeRowsFailsFrom | DatabaseOperation/Services/DatabaseOperationSQLServerService.cs:213-223 | once a row fails, the shaping fails |
| SqlServerBulk.AddColumns | DatabaseOperation/Services/DatabaseOperationSQLServerService.cs:208-211 | one column per declared name in order; it throws exactly when a name repeats |
| SqlServerBulk.AddDataRow | DatabaseOperation/Services/DatabaseOperationSQLServerService.cs:215-222 | adds the staged row, or throws exactly when a key names no column |
| SqlServerBulk.BulkIntoTempTable | DatabaseOperation/Services/DatabaseOperationSQLServerService.cs:198-232 | the bulk copy to the staging table of the shaped rows, or an exception exactly when the shaping fails |
| SqlServerBulk.RowOrderDiffers | DatabaseOperation/Services/DatabaseOperationSQLServerService.cs:213-222 | with columns ID then name and a row listing name first, Postgres writes the values in row order while SQL Server places them by name |
| SqlServerService.StagingTableShared | DatabaseOperation/Services/DatabaseOperationSQLServerService.cs:233-242 | the DDL, the bulk copy and the merge statement all use the staging table |
| SqlServerService.UnknownKeyRollsBack | DatabaseOperation/Services/DatabaseOperationSQLServerService.cs:198-232 | a row key that is no declared column makes the path roll back and return 0 without a bulk load |
| SqlServerService.CreateAndFillTempTable | DatabaseOperation/Services/DatabaseOperationSQLServerService.cs:233-242 | name, create, shape and load, stopping at the first step that throws; the staging name is returned exactly when the table is loaded |
| SqlServerService.MergeSql | DatabaseOperation/Services/DatabaseOperationSQLServerService.cs:56-121 | the statement each path runs against the staging table: the insert for Create, the update for Update, the delete for Delete |
| SqlServerService.StageOf | DatabaseOperation/Services/DatabaseOperationSQLServerService.cs:233-242 | what a path prepares inside its `try`: no stage for an empty table name, otherwise the staging name, its DDL, the shaped bulk copy (none when building the DataTable throws) and the path's merge statement; its properties are StagingTableShared, UnknownKeyRollsBack and the PathRun contract |
| SqlServerService.Create | DatabaseOperation/Services/DatabaseOperationSQLServerService.cs:43-76 | the run equals the transaction specification of the insert path |
| SqlServerService.Delete | DatabaseOperation/Services/DatabaseOperationSQLServerService.cs:77-108 | the run equals the transaction specification of the delete path |
| SqlServerService.Update | DatabaseOperation/Services/DatabaseOperationSQLServerService.cs:109-141 | the run equals the transaction specification of the update path |
| SqlServerService.Execute | DatabaseOperation/Services/DatabaseOperationSQLServerService.cs:33-42 | each named operation runs its path; any other returns 0 without a call |
| SqlServerService.Dispatch | DatabaseOperation/Services/DatabaseOperationSQLServerService.cs:33-42 | the run of one Execute: an operation outside the three named ones returns 0 with no call; each named one is the transaction specification of its own path |
| SqlServerService.ExecuteBatch | DatabaseOperation/Services/DatabaseOperationSQLServerService.cs:23-31 | the requests run in order until the first exception; on completion, one count per request, each that request's own result |

## Left out

- The database drivers (Npgsql, Microsoft.Data.SqlClient) and the database
  itself are not modelled. Each driver call succeeds or throws as `Env`
  says, and `ExecuteNonQuery` returns `Env.affected`. What a statement does
  to the tables is not modelled.
- `DateTime.Now.Ticks` is the parameter `Env.ticks`. Two requests on the
  same tick would collide on a staging name. Only the uniqueness over
  distinct ticks is proved.
- The service constructors, the configuration lookup of the connection
  string, dependency injection, and the `IDatabase` interface are not
  modelled. The two services are separate modules with the same
  `Execute`/`ExecuteBatch` shape.
- Logging (`LogInformation` in the SQL Server `Create`) is not modelled.
- The disposal of connections, commands, transactions, the binary importer
  and bulk copy at the end of their `using` blocks is not modelled.
- A null string is treated like the empty string. `string.IsNullOrEmpty` is
  the only place the source inspects either.
- `Environment.NewLine` is taken to be a single line feed.
- Row values are `dynamic` and are kept as an uninterpreted `Value`. The
  driver's type mapping and conversion of values is not modelled, nor a
  Postgres row whose number of values differs from the declared columns.
- SqlServerBulk.DataRow.Set: column lookup is by exact name, while
  `DataTable` matches names case-insensitively.
- SqlServerBulk.DataTable.AddColumn: an empty name is treated as an
  ordinary name, while `DataTable` generates a name for it. A name that
  differs only in case is not reported as a duplicate.
- SqlServerBulk.DataTable.AddRow: the table keeps the row's cells as a value,
  not a reference to the row object. The source never changes a row after
  adding it.
- `ExecutionService.cs` and `Program.cs`, which build requests and call the
  services, are not part of this model.
