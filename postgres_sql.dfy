/** The SQL text and the binary `COPY` stream of the Postgres service
    (`DatabaseOperationPostgresService`). */
module PostgresSql {
  import opened Text
  import opened Tables
  import opened Transactions

  // ---------------------------------------------------------------------------
  // Staging-table name

  /** `GenerateNameTempTable`: `None` stands for the `ArgumentException`
      thrown for an empty (or null) table name; otherwise the table name,
      `"__"` and the decimal tick count. */
  function TempTableName(tableName: string, ticks: nat): (r: Option<string>)
    ensures r.None? <==> tableName == ""
    ensures r.Some? ==>
      |r.value| > |tableName| + 2 &&
      r.value[..|tableName|] == tableName && r.value[|tableName|..|tableName| + 2] == "__"
    ensures r.Some? ==>
      IsDigits(r.value[|tableName| + 2..]) && ParseDecimal(r.value[|tableName| + 2..]) == ticks
  {
    if tableName == "" then None
    else
      var s := tableName + "__" + NatToString(ticks);
      assert s[|tableName| + 2..] == NatToString(ticks);
      ParseNatToString(ticks);
      Some(s)
  }

  /** Two different tick counts never give the same staging name, and the
      staging name never equals the target table's name. */
  lemma TempTableNamesDiffer(tableName: string, ticks1: nat, ticks2: nat)
    requires tableName != "" && ticks1 != ticks2
    ensures TempTableName(tableName, ticks1) != TempTableName(tableName, ticks2)
    ensures TempTableName(tableName, ticks1).value != tableName
  {
  }

  // ---------------------------------------------------------------------------
  // Statements

  /** `CreateTemporaryTable`: an empty, transaction-scoped copy of the target's shape. */
  function TempTableDdl(schema: string, temp: string, original: string): string
  {
    "CREATE TEMP TABLE " + temp + " ON COMMIT DROP AS SELECT * FROM " + schema + "." + original + " LIMIT 0"
  }

  /** `GenerateSQLQueryInsert`. */
  function InsertSql(schema: string, table: string, temp: string): string
  {
    "INSERT INTO " + schema + "." + table + " SELECT * FROM " + temp + " "
  }

  /** One `SET` assignment of the update. */
  function SetAssignment(name: string): string
  {
    " " + name + " = s." + name
  }

  /** One key condition of the update. */
  function UpdateCondition(key: string): string
  {
    " T." + key + " = S." + key + " "
  }

  /** One key condition of the delete. */
  function DeleteCondition(key: string): string
  {
    " C." + key + " = S." + key + " "
  }

  /** The `SET` list: every declared column, keys included. */
  function SetList(props: seq<TableProperty>): string
  {
    Join(", ", Map(SetAssignment, Names(props)))
  }

  /** The key conditions of the update, joined with `" AND "`. */
  function UpdateKeys(props: seq<TableProperty>): string
  {
    Join(" AND ", Map(UpdateCondition, KeyNames(props)))
  }

  /** Everything the update appends before its key-condition loop. */
  function UpdateHead(schema: string, table: string, temp: string, props: seq<TableProperty>): string
  {
    "UPDATE " + schema + "." + table + " T SET " + SetList(props) + " FROM " + temp + " S WHERE 1=1 AND "
  }

  /** The update text as a join of the key conditions. */
  function UpdateSql(schema: string, table: string, temp: string, props: seq<TableProperty>): string
  {
    UpdateHead(schema, table, temp, props) + UpdateKeys(props)
  }

  /** `GenerateSQLQueryUpdate`: the `StringBuilder` loop that appends
      `" AND "` after every key condition but the last produces the join. */
  method GenerateUpdate(schema: string, table: string, temp: string, props: seq<TableProperty>)
    returns (sql: string)
    ensures sql == UpdateSql(schema, table, temp, props)
  {
    sql := UpdateHead(schema, table, temp, props);
    ghost var head := sql;
    var conditions := Map(UpdateCondition, KeyNames(props));
    var i := 0;
    while i < |conditions|
      invariant 0 <= i <= |conditions|
      invariant i < |conditions| ==> sql == head + Terminated(" AND ", conditions[..i])
      invariant i == |conditions| ==> sql == head + Join(" AND ", conditions)
    {
      ghost var done := Terminated(" AND ", conditions[..i]);
      if i < |conditions| - 1 {
        sql := sql + (conditions[i] + " AND ");
        TerminatedStep(" AND ", conditions, i);
        AppendAssociates(done, conditions[i], " AND ");
        AppendAssociates(head, done, conditions[i] + " AND ");
      } else {
        sql := sql + conditions[i];
        AppendAssociates(head, done, conditions[i]);
        TerminatedThenLastItem(" AND ", conditions);
      }
      i := i + 1;
    }
  }

  /** The key conditions of the delete, joined with `" AND "`. */
  function DeleteKeys(props: seq<TableProperty>): string
  {
    Join(" AND ", Map(DeleteCondition, KeyNames(props)))
  }

  /** `GenerateSQLQueryDelete`: the header line, then the key conditions on one line. */
  function DeleteSql(schema: string, table: string, temp: string, props: seq<TableProperty>): string
  {
    "DELETE FROM " + schema + "." + table + " c USING " + temp + " S WHERE 1=1 AND " + NewLine
    + DeleteKeys(props) + NewLine
  }

  /** With no primary-key column the update is not refused: its text ends
      right after `"WHERE 1=1 AND "`. */
  lemma UpdateWithoutKeys(schema: string, table: string, temp: string, props: seq<TableProperty>)
    requires !HasKey(props)
    ensures UpdateSql(schema, table, temp, props) == UpdateHead(schema, table, temp, props)
    ensures var sql := UpdateSql(schema, table, temp, props);
      sql[|sql| - |"WHERE 1=1 AND "|..] == "WHERE 1=1 AND "
  {
  }

  /** The `SET` list covers every column in declaration order: appending a
      column appends one assignment after a `", "`. */
  lemma SetListAppend(props: seq<TableProperty>, p: TableProperty)
    requires props != []
    ensures SetList(props + [p]) == SetList(props) + ", " + SetAssignment(p.name)
  {
    assert Names(props + [p]) == Names(props) + [p.name];
    MapAppend(SetAssignment, Names(props), [p.name]);
    assert Map(SetAssignment, [p.name]) == [SetAssignment(p.name)];
    JoinAppend(", ", Map(SetAssignment, Names(props)), [SetAssignment(p.name)]);
  }

  /** The key conditions follow declaration order with `" AND "` between
      them and none after the last: a key column declared last adds one
      condition at the end. */
  lemma UpdateKeysAppend(props: seq<TableProperty>, p: TableProperty)
    requires HasKey(props)
    ensures p.isPrimaryKey ==> UpdateKeys(props + [p]) == UpdateKeys(props) + " AND " + UpdateCondition(p.name)
  {
    KeyNamesAppend(props, [p]);
    if p.isPrimaryKey {
      assert KeyNames([p]) == [p.name];
      MapAppend(UpdateCondition, KeyNames(props), [p.name]);
      assert Map(UpdateCondition, [p.name]) == [UpdateCondition(p.name)];
      JoinAppend(" AND ", Map(UpdateCondition, KeyNames(props)), [UpdateCondition(p.name)]);
    }
  }

  /** A non-key column declared last leaves the update's key conditions unchanged. */
  lemma UpdateKeysNonKey(props: seq<TableProperty>, p: TableProperty)
    ensures !p.isPrimaryKey ==> UpdateKeys(props + [p]) == UpdateKeys(props)
  {
    if !p.isPrimaryKey {
      NonKeyAddsNoKeyName(props, p);
    }
  }

  /** Non-key columns never appear in the delete: two column lists with the
      same keys in the same order give the same statement. */
  lemma DeleteUsesOnlyKeys(schema: string, table: string, temp: string, a: seq<TableProperty>, b: seq<TableProperty>)
    requires KeyNames(a) == KeyNames(b)
    ensures DeleteSql(schema, table, temp, a) == DeleteSql(schema, table, temp, b)
  {
  }

  /** A key column declared last adds one `" AND "`-separated delete
      condition at the end. */
  lemma DeleteKeysAppend(props: seq<TableProperty>, p: TableProperty)
    requires HasKey(props)
    ensures p.isPrimaryKey ==> DeleteKeys(props + [p]) == DeleteKeys(props) + " AND " + DeleteCondition(p.name)
  {
    KeyNamesAppend(props, [p]);
    if p.isPrimaryKey {
      assert KeyNames([p]) == [p.name];
      MapAppend(DeleteCondition, KeyNames(props), [p.name]);
      assert Map(DeleteCondition, [p.name]) == [DeleteCondition(p.name)];
      JoinAppend(" AND ", Map(DeleteCondition, KeyNames(props)), [DeleteCondition(p.name)]);
    }
  }

  /** A non-key column declared last leaves the delete's key conditions unchanged. */
  lemma DeleteKeysNonKey(props: seq<TableProperty>, p: TableProperty)
    ensures !p.isPrimaryKey ==> DeleteKeys(props + [p]) == DeleteKeys(props)
  {
    if !p.isPrimaryKey {
      NonKeyAddsNoKeyName(props, p);
    }
  }

  // ---------------------------------------------------------------------------
  // Binary COPY

  /** The `COPY` command that opens the binary import. */
  function CopyCommand(temp: string, names: seq<string>): string
  {
    "COPY " + temp + " (" + Join(",", names) + ") FROM STDIN (FORMAT BINARY)"
  }

  /** The column list between `"COPY temp ("` and `") FROM STDIN ..."`. */
  function CopyColumns(temp: string, copy: string): string
    requires |copy| >= |"COPY " + temp + " ("| + |") FROM STDIN (FORMAT BINARY)"|
  {
    copy[|"COPY " + temp + " ("|..|copy| - |") FROM STDIN (FORMAT BINARY)"|]
  }

  /** The `COPY` column list names exactly the declared columns, in
      declaration order: splitting it on `','` gives them back. */
  lemma CopyListsDeclaredColumns(temp: string, names: seq<string>)
    requires |names| > 0
    requires forall i :: 0 <= i < |names| ==> ',' !in names[i]
    ensures Split(',', CopyColumns(temp, CopyCommand(temp, names))) == names
  {
    var cols := Join(",", names);
    assert CopyColumns(temp, CopyCommand(temp, names)) == cols;
    SplitJoin(',', names);
  }

  /** The values of one row, in the row's own order. */
  function RowValues(row: Row): (r: seq<Value>)
    ensures |r| == |row|
    ensures forall i :: 0 <= i < |row| ==> r[i] == row[i].1
  {
    if row == [] then [] else [row[0].1] + RowValues(row[1..])
  }

  /** `writer.Write` for each value, in order. */
  function Writes(values: seq<Value>): seq<ImportCall>
    decreases |values|
  {
    if values == [] then [] else Writes(values[..|values| - 1]) + [Write(values[|values| - 1])]
  }

  /** The calls for the rows: `StartRow`, then the row's values, row by row. */
  function RowsStream(rows: seq<Row>): seq<ImportCall>
    decreases |rows|
  {
    if rows == [] then []
    else RowsStream(rows[..|rows| - 1]) + [StartRow] + Writes(RowValues(rows[|rows| - 1]))
  }

  /** Reading an import stream back: every `StartRow` opens a row and every
      `Write` adds a value to the row started last. */
  function Decode(calls: seq<ImportCall>): seq<seq<Value>>
    decreases |calls|
  {
    if calls == [] then []
    else
      var rows := Decode(calls[..|calls| - 1]);
      match calls[|calls| - 1]
      case StartRow => rows + [[]]
      case Write(v) => if rows == [] then [] else rows[..|rows| - 1] + [rows[|rows| - 1] + [v]]
      case Complete => rows
  }

  lemma {:induction false} DecodeWrites(prefix: seq<ImportCall>, values: seq<Value>)
    ensures Decode(prefix + [StartRow] + Writes(values)) == Decode(prefix) + [values]
    decreases |values|
  {
    var started := prefix + [StartRow];
    if values == [] {
      assert started + Writes(values) == started;
      assert started[..|started| - 1] == prefix;
    } else {
      var init := values[..|values| - 1];
      var v := values[|values| - 1];
      var before := started + Writes(init);
      DecodeWrites(prefix, init);
      assert started + Writes(values) == before + [Write(v)];
      assert (before + [Write(v)])[..|before|] == before;
      assert init + [v] == values;
    }
  }

  /** The import stream of the rows decodes to the rows' values: one started
      row per data row, and each row's values in the row's own order,
      whatever their keys. */
  lemma {:induction false} DecodeRowsStream(rows: seq<Row>)
    ensures |Decode(RowsStream(rows))| == |rows|
    ensures forall i :: 0 <= i < |rows| ==> Decode(RowsStream(rows))[i] == RowValues(rows[i])
    decreases |rows|
  {
    if rows != [] {
      var init := rows[..|rows| - 1];
      var last := rows[|rows| - 1];
      DecodeRowsStream(init);
      DecodeWrites(RowsStream(init), RowValues(last));
      var decoded := Decode(RowsStream(init)) + [RowValues(last)];
      assert Decode(RowsStream(rows)) == decoded;
      forall i | 0 <= i < |rows|
        ensures decoded[i] == RowValues(rows[i])
      {
        if i < |init| {
          assert init[i] == rows[i];
        }
      }
    }
  }

  lemma WritesStep(values: seq<Value>, j: nat)
    requires j < |values|
    ensures Writes(values[..j + 1]) == Writes(values[..j]) + [Write(values[j])]
  {
    assert values[..j + 1][..j] == values[..j];
  }

  lemma RowsStreamStep(rows: seq<Row>, i: nat)
    requires i < |rows|
    ensures RowsStream(rows[..i + 1]) == RowsStream(rows[..i]) + [StartRow] + Writes(RowValues(rows[i]))
  {
    assert rows[..i + 1][..i] == rows[..i];
  }

  /** The binary import of the request's rows into `temp`: the `COPY` header
      from the declared names, then the rows' import calls, then `Complete`. */
  function CopyLoad(temp: string, req: TableData): BulkLoad
  {
    BinaryImport(CopyCommand(temp, Names(req.properties)), RowsStream(req.data) + [Complete])
  }

  /** `BulkIntoTempTable`: the `COPY` header from the declared names, then
      for each row `StartRow` and its values in the row's own order, then
      `Complete`. */
  method BulkIntoTempTable(temp: string, req: TableData) returns (load: BulkLoad)
    ensures load == CopyLoad(temp, req)
  {
    var copy := CopyCommand(temp, Names(req.properties));
    var rows := req.data;
    var calls: seq<ImportCall> := [];
    var i := 0;
    while i < |rows|
      invariant 0 <= i <= |rows|
      invariant calls == RowsStream(rows[..i])
    {
      var row := rows[i];
      ghost var values := RowValues(row);
      ghost var before := calls;
      calls := calls + [StartRow];
      var j := 0;
      while j < |row|
        invariant 0 <= j <= |row|
        invariant calls == before + [StartRow] + Writes(values[..j])
      {
        WritesStep(values, j);
        calls := calls + [Write(row[j].1)];
        j := j + 1;
      }
      assert values[..|row|] == values;
      RowsStreamStep(rows, i);
      i := i + 1;
    }
    assert rows[..|rows|] == rows;
    load := BinaryImport(copy, calls + [Complete]);
  }

  // ---------------------------------------------------------------------------
  // Every statement names the staging table

  /** The DDL creates the staging table: its name comes right after
      `CREATE TEMP TABLE`. */
  lemma DdlNamesStaging(schema: string, temp: string, original: string)
    ensures Occurs("CREATE TEMP TABLE " + temp + " ON COMMIT DROP AS SELECT * FROM ",
      TempTableDdl(schema, temp, original))
  {
    var after := " ON COMMIT DROP AS SELECT * FROM ";
    OccursAtEnd("", "CREATE TEMP TABLE ", temp, after);
    assert "" + "CREATE TEMP TABLE " + temp + after == "CREATE TEMP TABLE " + temp + after;
    OccursExtend("CREATE TEMP TABLE " + temp + after, "CREATE TEMP TABLE " + temp + after, schema);
    OccursExtend("CREATE TEMP TABLE " + temp + after, "CREATE TEMP TABLE " + temp + after + schema, ".");
    OccursExtend("CREATE TEMP TABLE " + temp + after, "CREATE TEMP TABLE " + temp + after + schema + ".", original);
    OccursExtend("CREATE TEMP TABLE " + temp + after, "CREATE TEMP TABLE " + temp + after + schema + "." + original, " LIMIT 0");
  }

  /** The `COPY` fills the staging table: its name comes right after `COPY`
      and before the column list. */
  lemma CopyNamesStaging(temp: string, names: seq<string>)
    ensures Occurs("COPY " + temp + " (", CopyCommand(temp, names))
  {
    var part := "COPY " + temp + " (";
    OccursAtEnd("", "COPY ", temp, " (");
    assert "" + "COPY " + temp + " (" == part;
    OccursExtend(part, part, Join(",", names));
    OccursExtend(part, part + Join(",", names), ") FROM STDIN (FORMAT BINARY)");
  }

  /** The insert selects from the staging table: its name comes right after
      `FROM`. */
  lemma InsertNamesStaging(schema: string, table: string, temp: string)
    ensures Occurs(" SELECT * FROM " + temp + " ", InsertSql(schema, table, temp))
  {
    OccursAtEnd("INSERT INTO " + schema + "." + table, " SELECT * FROM ", temp, " ");
  }

  /** The update reads from the staging table: its name comes right after
      `FROM`, with the alias `S` the key conditions use. */
  lemma UpdateNamesStaging(schema: string, table: string, temp: string, props: seq<TableProperty>)
    ensures Occurs(" FROM " + temp + " S WHERE 1=1 AND ", UpdateSql(schema, table, temp, props))
  {
    var part := " FROM " + temp + " S WHERE 1=1 AND ";
    OccursAtEnd("UPDATE " + schema + "." + table + " T SET " + SetList(props), " FROM ", temp, " S WHERE 1=1 AND ");
    OccursExtend(part, UpdateHead(schema, table, temp, props), UpdateKeys(props));
  }

  /** The delete joins the staging table: its name comes right after
      `USING`, with the alias `S` the key conditions use. */
  lemma DeleteNamesStaging(schema: string, table: string, temp: string, props: seq<TableProperty>)
    ensures Occurs(" c USING " + temp + " S WHERE 1=1 AND ", DeleteSql(schema, table, temp, props))
  {
    var part := " c USING " + temp + " S WHERE 1=1 AND ";
    var head := "DELETE FROM " + schema + "." + table + " c USING " + temp + " S WHERE 1=1 AND ";
    OccursAtEnd("DELETE FROM " + schema + "." + table, " c USING ", temp, " S WHERE 1=1 AND ");
    OccursExtend(part, head, NewLine);
    OccursExtend(part, head + NewLine, DeleteKeys(props));
    OccursExtend(part, head + NewLine + DeleteKeys(props), NewLine);
  }
}
