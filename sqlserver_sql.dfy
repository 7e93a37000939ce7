/** The SQL text of the SQL Server service (`DatabaseOperationSQLServerService`):
    the staging-table name, its DDL and the three merge statements. */
module SqlServerSql {
  import opened Text
  import opened Tables

  // ---------------------------------------------------------------------------
  // Staging-table name

  /** `GenerateNameTempTable`: `None` stands for the `ArgumentException`
      thrown for an empty (or null) table name; otherwise a local temporary
      table: `'#'`, the table name, `"__"` and the decimal tick count. */
  function TempTableName(tableName: string, ticks: nat): (r: Option<string>)
    ensures r.None? <==> tableName == ""
    ensures r.Some? ==>
      |r.value| > |tableName| + 3 && r.value[0] == '#' &&
      r.value[1..|tableName| + 1] == tableName && r.value[|tableName| + 1..|tableName| + 3] == "__"
    ensures r.Some? ==>
      IsDigits(r.value[|tableName| + 3..]) && ParseDecimal(r.value[|tableName| + 3..]) == ticks
  {
    if tableName == "" then None
    else
      var s := "#" + tableName + "__" + NatToString(ticks);
      assert s[|tableName| + 3..] == NatToString(ticks);
      ParseNatToString(ticks);
      Some(s)
  }

  /** Two different tick counts never give the same staging name, and the
      staging name never equals the target table's name. */
  lemma TempTableNamesDiffer(tableName: string, ticks1: nat, ticks2: nat)
    requires tableName != "" && ticks1 != ticks2
    ensures TempTableName(tableName, ticks1) != TempTableName(tableName, ticks2)
    ensures TempTableName(tableName, ticks1).value != tableName
  {
  }

  // ---------------------------------------------------------------------------
  // Statements

  /** `CreateTemporaryTable`: an empty copy of the target's shape. */
  function TempTableDdl(temp: string, original: string): string
  {
    "SELECT TOP 0 * INTO " + temp + " FROM " + original + ";"
  }

  /** `GenerateSQLQueryInsert`. */
  function InsertSql(table: string, temp: string): string
  {
    "INSERT INTO " + table + " SELECT * FROM " + temp + " "
  }

  /** One `SET` assignment of the update. */
  function SetAssignment(name: string): string
  {
    "T." + name + " = s." + name
  }

  /** One key condition of the update. */
  function UpdateCondition(key: string): string
  {
    "T." + key + " = S." + key
  }

  /** One key condition of the delete. */
  function DeleteCondition(key: string): string
  {
    " C." + key + " = S." + key + " "
  }

  /** The `SET` list: every declared column, keys included, one per line. */
  function SetList(props: seq<TableProperty>): string
  {
    Join(",\n", Map(SetAssignment, Names(props)))
  }

  /** What separates two key conditions of the update: `" AND"` and a line break. */
  const AndLine: string := " AND" + NewLine

  /** The three lines the update appends before its key-condition loop. */
  function UpdateHead(table: string, temp: string, props: seq<TableProperty>): string
  {
    "UPDATE T SET " + NewLine + SetList(props) + NewLine
    + "FROM " + table + " T INNER JOIN " + temp + " S ON" + NewLine
  }

  /** The key conditions of the update: one per line, `" AND"` ending every
      line but the last; nothing at all without a key. */
  function UpdateKeys(props: seq<TableProperty>): string
  {
    var conditions := Map(UpdateCondition, KeyNames(props));
    if conditions == [] then "" else Join(AndLine, conditions) + NewLine
  }

  /** The update text as a join of the key conditions. */
  function UpdateSql(table: string, temp: string, props: seq<TableProperty>): string
  {
    UpdateHead(table, temp, props) + UpdateKeys(props)
  }

  /** `GenerateSQLQueryUpdate`: the `StringBuilder` loop that appends each
      key condition as a line, with `" AND"` on all lines but the last,
      produces the join. */
  method GenerateUpdate(table: string, temp: string, props: seq<TableProperty>)
    returns (sql: string)
    ensures sql == UpdateSql(table, temp, props)
  {
    sql := UpdateHead(table, temp, props);
    ghost var head := sql;
    var conditions := Map(UpdateCondition, KeyNames(props));
    var i := 0;
    while i < |conditions|
      invariant 0 <= i <= |conditions|
      invariant i < |conditions| ==> sql == head + Terminated(AndLine, conditions[..i])
      invariant i == |conditions| ==> sql == head + UpdateKeys(props)
    {
      ghost var done := Terminated(AndLine, conditions[..i]);
      if i < |conditions| - 1 {
        sql := sql + (conditions[i] + AndLine);
        TerminatedStep(AndLine, conditions, i);
        AppendAssociates(done, conditions[i], AndLine);
        AppendAssociates(head, done, conditions[i] + AndLine);
      } else {
        sql := sql + (conditions[i] + NewLine);
        TerminatedThenLastItem(AndLine, conditions);
        AppendAssociates(done, conditions[i], NewLine);
        AppendAssociates(head, done + conditions[i], NewLine);
        AppendAssociates(head, done, conditions[i] + NewLine);
      }
      i := i + 1;
    }
  }

  /** The key conditions of the delete, joined with `" AND "` on one line. */
  function DeleteKeys(props: seq<TableProperty>): string
  {
    Join(" AND ", Map(DeleteCondition, KeyNames(props)))
  }

  /** `GenerateSQLQueryDelete`: the header line, then the key conditions on one line. */
  function DeleteSql(table: string, temp: string, props: seq<TableProperty>): string
  {
    "DELETE C FROM " + table + " C JOIN " + temp + " S ON " + NewLine + DeleteKeys(props) + NewLine
  }

  /** With no primary-key column the update is not refused: it ends with the
      `ON` line followed by nothing. */
  lemma UpdateWithoutKeys(table: string, temp: string, props: seq<TableProperty>)
    requires !HasKey(props)
    ensures UpdateSql(table, temp, props) == UpdateHead(table, temp, props)
    ensures var sql := UpdateSql(table, temp, props);
      sql[|sql| - |" S ON" + NewLine|..] == " S ON" + NewLine
  {
  }

  /** The `SET` list covers every column in declaration order: appending a
      column appends one assignment on its own line. */
  lemma SetListAppend(props: seq<TableProperty>, p: TableProperty)
    requires props != []
    ensures SetList(props + [p]) == SetList(props) + ",\n" + SetAssignment(p.name)
  {
    assert Names(props + [p]) == Names(props) + [p.name];
    MapAppend(SetAssignment, Names(props), [p.name]);
    assert Map(SetAssignment, [p.name]) == [SetAssignment(p.name)];
    JoinAppend(",\n", Map(SetAssignment, Names(props)), [SetAssignment(p.name)]);
  }

  /** A key column declared last puts `" AND"` at the end of what was the
      last condition line and adds its own condition as a new last line. */
  lemma UpdateKeysAppend(props: seq<TableProperty>, p: TableProperty)
    requires HasKey(props)
    ensures |UpdateKeys(props)| >= |NewLine|
    ensures p.isPrimaryKey ==>
      var before := UpdateKeys(props);
      UpdateKeys(props + [p])
      == before[..|before| - |NewLine|] + AndLine + UpdateCondition(p.name) + NewLine
  {
    KeyNamesAppend(props, [p]);
    var conditions := Map(UpdateCondition, KeyNames(props));
    if p.isPrimaryKey {
      assert KeyNames([p]) == [p.name];
      MapAppend(UpdateCondition, KeyNames(props), [p.name]);
      assert Map(UpdateCondition, [p.name]) == [UpdateCondition(p.name)];
      JoinAppend(AndLine, conditions, [UpdateCondition(p.name)]);
      var before := UpdateKeys(props);
      assert before[..|before| - |NewLine|] == Join(AndLine, conditions);
    }
  }

  /** A non-key column declared last leaves the update's key conditions unchanged. */
  lemma UpdateKeysNonKey(props: seq<TableProperty>, p: TableProperty)
    ensures !p.isPrimaryKey ==> UpdateKeys(props + [p]) == UpdateKeys(props)
  {
    if !p.isPrimaryKey {
      NonKeyAddsNoKeyName(props, p);
    }
  }

  /** Non-key columns never appear in the delete: two column lists with the
      same keys in the same order give the same statement. */
  lemma DeleteUsesOnlyKeys(table: string, temp: string, a: seq<TableProperty>, b: seq<TableProperty>)
    requires KeyNames(a) == KeyNames(b)
    ensures DeleteSql(table, temp, a) == DeleteSql(table, temp, b)
  {
  }

  /** A key column declared last adds one `" AND "`-separated delete
      condition at the end. */
  lemma DeleteKeysAppend(props: seq<TableProperty>, p: TableProperty)
    requires HasKey(props)
    ensures p.isPrimaryKey ==> DeleteKeys(props + [p]) == DeleteKeys(props) + " AND " + DeleteCondition(p.name)
  {
    KeyNamesAppend(props, [p]);
    if p.isPrimaryKey {
      assert KeyNames([p]) == [p.name];
      MapAppend(DeleteCondition, KeyNames(props), [p.name]);
      assert Map(DeleteCondition, [p.name]) == [DeleteCondition(p.name)];
      JoinAppend(" AND ", Map(DeleteCondition, KeyNames(props)), [DeleteCondition(p.name)]);
    }
  }

  /** A non-key column declared last leaves the delete's key conditions unchanged. */
  lemma DeleteKeysNonKey(props: seq<TableProperty>, p: TableProperty)
    ensures !p.isPrimaryKey ==> DeleteKeys(props + [p]) == DeleteKeys(props)
  {
    if !p.isPrimaryKey {
      NonKeyAddsNoKeyName(props, p);
    }
  }

  // ---------------------------------------------------------------------------
  // Every statement names the staging table

  /** The DDL creates the staging table: its name comes right after
      `INTO` and before `FROM`. */
  lemma DdlNamesStaging(temp: string, original: string)
    ensures Occurs("SELECT TOP 0 * INTO " + temp + " FROM ", TempTableDdl(temp, original))
  {
    var part := "SELECT TOP 0 * INTO " + temp + " FROM ";
    OccursAtEnd("", "SELECT TOP 0 * INTO ", temp, " FROM ");
    assert "" + "SELECT TOP 0 * INTO " + temp + " FROM " == part;
    OccursExtend(part, part, original);
    OccursExtend(part, part + original, ";");
  }

  /** The insert selects from the staging table: its name comes right after
      `FROM`. */
  lemma InsertNamesStaging(table: string, temp: string)
    ensures Occurs(" SELECT * FROM " + temp + " ", InsertSql(table, temp))
  {
    OccursAtEnd("INSERT INTO " + table, " SELECT * FROM ", temp, " ");
  }

  /** The update joins the staging table: its name comes right after
      `INNER JOIN`, with the alias `S` the key conditions use. */
  lemma UpdateNamesStaging(table: string, temp: string, props: seq<TableProperty>)
    ensures Occurs(" T INNER JOIN " + temp + " S ON", UpdateSql(table, temp, props))
  {
    var part := " T INNER JOIN " + temp + " S ON";
    var head := "UPDATE T SET " + NewLine + SetList(props) + NewLine + "FROM " + table;
    OccursAtEnd(head, " T INNER JOIN ", temp, " S ON");
    OccursExtend(part, head + " T INNER JOIN " + temp + " S ON", NewLine);
    OccursExtend(part, UpdateHead(table, temp, props), UpdateKeys(props));
  }

  /** The delete joins the staging table: its name comes right after
      `JOIN`, with the alias `S` the key conditions use. */
  lemma DeleteNamesStaging(table: string, temp: string, props: seq<TableProperty>)
    ensures Occurs(" C JOIN " + temp + " S ON ", DeleteSql(table, temp, props))
  {
    var part := " C JOIN " + temp + " S ON ";
    var head := "DELETE C FROM " + table + " C JOIN " + temp + " S ON ";
    OccursAtEnd("DELETE C FROM " + table, " C JOIN ", temp, " S ON ");
    OccursExtend(part, head, NewLine);
    OccursExtend(part, head + NewLine, DeleteKeys(props));
    OccursExtend(part, head + NewLine + DeleteKeys(props), NewLine);
  }
}
