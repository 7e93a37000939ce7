/** How the SQL Server service shapes the request's rows before the bulk
    copy: an in-memory `DataTable` with one column per declared property
    (in declaration order), and per data row a `DataRow` whose cells are set
    by column name. `SqlBulkCopy` then sends the table's columns by
    position. */
module SqlServerBulk {
  import opened Text
  import opened Tables
  import opened Transactions
  import PostgresSql

  /** No name occurs twice. */
  predicate Distinct(names: seq<string>)
  {
    forall i, j :: 0 <= i < j < |names| ==> names[i] != names[j]
  }

  /** The cells of a row nobody has assigned yet. */
  function Blank(n: nat): seq<Cell>
  {
    seq(n, _ => DbNull)
  }

  // ---------------------------------------------------------------------------
  // The DataTable and its rows

  /** A `DataRow` of a table whose columns are `columns`. */
  class DataRow {
    const columns: seq<string>
    var cells: seq<Cell>

    constructor(columns: seq<string>)
      ensures this.columns == columns
      ensures cells == Blank(|columns|)
    {
      this.columns := columns;
      cells := Blank(|columns|);
    }

    /** `dtRow[key] = value`: `false` stands for the `ArgumentException`
        thrown when no column has that name. */
    method Set(key: string, value: Value) returns (ok: bool)
      requires |cells| == |columns|
      modifies this
      ensures ok <==> key in columns
      ensures cells == if ok then old(cells)[IndexOf(key, columns) := Held(value)] else old(cells)
    {
      var p := IndexOf(key, columns);
      if p == |columns| {
        return false;
      }
      cells := cells[p := Held(value)];
      ok := true;
    }
  }

  /** A `DataTable`: its columns and the cells of the rows added to it. */
  class DataTable {
    var columns: seq<string>
    var rows: seq<seq<Cell>>

    constructor()
      ensures columns == [] && rows == []
    {
      columns := [];
      rows := [];
    }

    /** `Columns.Add(name)`: `false` stands for the `DuplicateNameException`
        thrown when a column of that name exists. */
    method AddColumn(name: string) returns (added: bool)
      modifies this
      ensures added <==> name !in old(columns)
      ensures columns == if added then old(columns) + [name] else old(columns)
      ensures rows == old(rows)
    {
      if name in columns {
        return false;
      }
      columns := columns + [name];
      added := true;
    }

    /** `NewRow()`: a detached row with every cell unassigned. */
    method NewRow() returns (row: DataRow)
      ensures fresh(row)
      ensures row.columns == columns && row.cells == Blank(|columns|)
    {
      row := new DataRow(columns);
    }

    /** `Rows.Add(dtRow)`. */
    method AddRow(row: DataRow)
      modifies this
      ensures rows == old(rows) + [row.cells]
      ensures columns == old(columns)
    {
      rows := rows + [row.cells];
    }
  }

  // ---------------------------------------------------------------------------
  // What the shaping produces

  /** The cells of a new row after `dtRow[key] = value` for each entry of the
      data row in order; `None` once a key names no column. */
  function Assigned(columns: seq<string>, row: Row): (r: Option<seq<Cell>>)
    ensures r.Some? ==> |r.value| == |columns|
    decreases |row|
  {
    if row == [] then Some(Blank(|columns|))
    else
      match Assigned(columns, row[..|row| - 1])
      case None => None
      case Some(cells) =>
        var p := IndexOf(row[|row| - 1].0, columns);
        if p == |columns| then None else Some(cells[p := Held(row[|row| - 1].1)])
  }

  /** The cells of every data row, in order; `None` once one row fails. */
  function ShapeRows(columns: seq<string>, rows: seq<Row>): (r: Option<seq<seq<Cell>>>)
    ensures r.Some? ==> |r.value| == |rows|
    decreases |rows|
  {
    if rows == [] then Some([])
    else
      match ShapeRows(columns, rows[..|rows| - 1])
      case None => None
      case Some(done) =>
        match Assigned(columns, rows[|rows| - 1])
        case None => None
        case Some(cells) => Some(done + [cells])
  }

  /** The bulk copy `BulkIntoTempTable` hands to the driver, or `None` when
      building the `DataTable` throws. */
  function Shape(temp: string, props: seq<TableProperty>, rows: seq<Row>): Option<BulkLoad>
  {
    var names := Names(props);
    if !Distinct(names) then None
    else
      match ShapeRows(names, rows)
      case None => None
      case Some(cells) => Some(BulkCopy(temp, names, cells))
  }

  /** The value the data row gives `key` last, or `DbNull` when it gives none. */
  function LastValue(row: Row, key: string): Cell
    decreases |row|
  {
    if row == [] then DbNull
    else if row[|row| - 1].0 == key then Held(row[|row| - 1].1)
    else LastValue(row[..|row| - 1], key)
  }

  /** Every key of the data row names a column. */
  predicate KeysAreColumns(columns: seq<string>, row: Row)
  {
    forall j :: 0 <= j < |row| ==> row[j].0 in columns
  }

  // ---------------------------------------------------------------------------
  // Properties of the shaping

  /** A data row is staged exactly when each of its keys names a column, and
      then every column holds the value the row gives it last, or `DbNull`:
      which column a value lands in depends on its key, not its position. */
  lemma {:induction false} AssignedCells(columns: seq<string>, row: Row)
    requires Distinct(columns)
    ensures Assigned(columns, row).Some? <==> KeysAreColumns(columns, row)
    ensures Assigned(columns, row).Some? ==>
      forall i :: 0 <= i < |columns| ==> Assigned(columns, row).value[i] == LastValue(row, columns[i])
    decreases |row|
  {
    if row != [] {
      var init := row[..|row| - 1];
      var (k, v) := row[|row| - 1];
      AssignedCells(columns, init);
      assert forall j :: 0 <= j < |init| ==> init[j] == row[j];
      var p := IndexOf(k, columns);
      if p == |columns| {
        assert k !in columns;
        assert !KeysAreColumns(columns, row);
      } else if Assigned(columns, init).Some? {
        var cells := Assigned(columns, init).value;
        assert Assigned(columns, row) == Some(cells[p := Held(v)]);
        forall i | 0 <= i < |columns|
          ensures cells[p := Held(v)][i] == LastValue(row, columns[i])
        {
          if i != p {
            assert columns[i] != k;
          }
        }
      } else {
        assert !KeysAreColumns(columns, init);
      }
    }
  }

  /** All rows are staged exactly when each one is, and then the staged
      rows are the rows' own cells, in order. */
  lemma {:induction false} ShapeRowsPointwise(columns: seq<string>, rows: seq<Row>)
    ensures ShapeRows(columns, rows).Some? <==>
      forall i :: 0 <= i < |rows| ==> Assigned(columns, rows[i]).Some?
    ensures ShapeRows(columns, rows).Some? ==>
      forall i :: 0 <= i < |rows| ==> ShapeRows(columns, rows).value[i] == Assigned(columns, rows[i]).value
    decreases |rows|
  {
    if rows != [] {
      var init := rows[..|rows| - 1];
      ShapeRowsPointwise(columns, init);
      assert forall i :: 0 <= i < |init| ==> init[i] == rows[i];
    }
  }

  /** Staging succeeds exactly when the declared names are distinct and
      every key of every data row is one of them; then the copy goes to the
      staging table, with the declared names as its columns and, for each
      data row, each column's cell holding the value the row gives that
      name last. */
  lemma ShapeSucceeds(temp: string, props: seq<TableProperty>, rows: seq<Row>)
    ensures Shape(temp, props, rows).Some? <==>
      Distinct(Names(props)) && forall i :: 0 <= i < |rows| ==> KeysAreColumns(Names(props), rows[i])
    ensures Shape(temp, props, rows).Some? ==>
      var load := Shape(temp, props, rows).value;
      load.BulkCopy? && load.destination == temp && load.columns == Names(props) && |load.rows| == |rows| &&
      (forall i :: 0 <= i < |rows| ==> |load.rows[i]| == |props|) &&
      forall i, c :: 0 <= i < |rows| && 0 <= c < |props| ==> load.rows[i][c] == LastValue(rows[i], props[c].name)
  {
    var names := Names(props);
    ShapeRowsPointwise(names, rows);
    if Distinct(names) {
      forall i | 0 <= i < |rows|
        ensures Assigned(names, rows[i]).Some? <==> KeysAreColumns(names, rows[i])
        ensures Assigned(names, rows[i]).Some? ==>
          forall c :: 0 <= c < |names| ==> Assigned(names, rows[i]).value[c] == LastValue(rows[i], names[c])
      {
        AssignedCells(names, rows[i]);
      }
    }
  }

  /** A failure stops the staging for good: once a prefix of the entries
      fails, the whole row fails. */
  lemma {:induction false} AssignedFailsFrom(columns: seq<string>, row: Row, k: nat)
    requires k <= |row| && Assigned(columns, row[..k]).None?
    ensures Assigned(columns, row).None?
    decreases |row| - k
  {
    if k == |row| {
      assert row[..k] == row;
    } else {
      assert row[..k + 1][..k] == row[..k];
      AssignedFailsFrom(columns, row, k + 1);
    }
  }

  lemma {:induction false} ShapeRowsFailsFrom(columns: seq<string>, rows: seq<Row>, k: nat)
    requires k <= |rows| && ShapeRows(columns, rows[..k]).None?
    ensures ShapeRows(columns, rows).None?
    decreases |rows| - k
  {
    if k == |rows| {
      assert rows[..k] == rows;
    } else {
      assert rows[..k + 1][..k] == rows[..k];
      ShapeRowsFailsFrom(columns, rows, k + 1);
    }
  }

  /** The column loop of `BulkIntoTempTable`: one `Columns.Add` per declared
      property, in order; it throws exactly when a name repeats. */
  method AddColumns(table: DataTable, props: seq<TableProperty>) returns (ok: bool)
    requires table.columns == []
    modifies table
    ensures ok <==> Distinct(Names(props))
    ensures ok ==> table.columns == Names(props)
    ensures table.rows == old(table.rows)
  {
    ghost var names := Names(props);
    var k := 0;
    while k < |props|
      invariant 0 <= k <= |props|
      invariant table.columns == names[..k]
      invariant Distinct(table.columns)
      invariant table.rows == old(table.rows)
    {
      var added := table.AddColumn(props[k].name);
      if !added {
        ghost var p :| 0 <= p < k && names[p] == names[k];
        assert !Distinct(names);
        return false;
      }
      assert names[..k + 1] == names[..k] + [names[k]];
      k := k + 1;
    }
    assert names[..k] == names;
    ok := true;
  }

  /** The body of the row loop of `BulkIntoTempTable`: a new row, each entry
      set by key, then `Rows.Add`; it throws exactly when a key names no
      column. */
  method AddDataRow(table: DataTable, row: Row) returns (ok: bool)
    modifies table
    ensures ok <==> Assigned(old(table.columns), row).Some?
    ensures table.rows == if ok then old(table.rows) + [Assigned(old(table.columns), row).value] else old(table.rows)
    ensures table.columns == old(table.columns)
  {
    var dtRow := table.NewRow();
    var j := 0;
    while j < |row|
      invariant 0 <= j <= |row|
      invariant Assigned(table.columns, row[..j]) == Some(dtRow.cells)
      modifies dtRow
    {
      assert row[..j + 1][..j] == row[..j];
      ok := dtRow.Set(row[j].0, row[j].1);
      if !ok {
        AssignedFailsFrom(table.columns, row, j + 1);
        return false;
      }
      j := j + 1;
    }
    assert row[..j] == row;
    table.AddRow(dtRow);
    ok := true;
  }

  /** `BulkIntoTempTable` up to `WriteToServer`: the columns, then the rows,
      then the table handed to the bulk copy for the staging table. */
  method BulkIntoTempTable(temp: string, req: TableData) returns (load: Option<BulkLoad>)
    ensures load == Shape(temp, req.properties, req.data)
  {
    var table := new DataTable();
    var ok := AddColumns(table, req.properties);
    if !ok {
      return None;
    }
    ghost var names := Names(req.properties);
    var rows := req.data;
    var i := 0;
    while i < |rows|
      invariant 0 <= i <= |rows|
      invariant table.columns == names
      invariant ShapeRows(names, rows[..i]) == Some(table.rows)
    {
      assert rows[..i + 1][..i] == rows[..i];
      ok := AddDataRow(table, rows[i]);
      if !ok {
        ShapeRowsFailsFrom(names, rows, i + 1);
        return None;
      }
      i := i + 1;
    }
    assert rows[..i] == rows;
    load := Some(BulkCopy(temp, table.columns, table.rows));
  }

  // ---------------------------------------------------------------------------
  // The two dialects place a row's values differently

  /** With columns declared `ID, name` and a row listing `name` first, the
      Postgres import writes the values in the row's order, while the SQL
      Server table places each value under its own column. */
  lemma RowOrderDiffers(temp: string, a: Value, b: Value)
    ensures var props := [TableProperty("ID", true), TableProperty("name", false)];
      var rows: seq<Row> := [[("name", a), ("ID", b)]];
      PostgresSql.Decode(PostgresSql.RowsStream(rows)) == [[a, b]] &&
      Shape(temp, props, rows) == Some(BulkCopy(temp, ["ID", "name"], [[Held(b), Held(a)]]))
  {
    var props := [TableProperty("ID", true), TableProperty("name", false)];
    var row: Row := [("name", a), ("ID", b)];
    var rows: seq<Row> := [row];
    PostgresSql.DecodeRowsStream(rows);
    assert PostgresSql.RowValues(row) == [a, b];
    assert Names(props) == ["ID", "name"];
    var names := ["ID", "name"];
    assert row[..1] == [("name", a)];
    assert LastValue(row, "ID") == Held(b);
    assert LastValue(row, "name") == Held(a);
    assert KeysAreColumns(names, row);
    ShapeSucceeds(temp, props, rows);
    var load := Shape(temp, props, rows).value;
    assert load.rows[0] == [Held(b), Held(a)];
    assert load.rows == [[Held(b), Held(a)]];
  }
}
