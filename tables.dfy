/** The request handed to either service: the target table, its declared
    columns with their primary-key markers, the operation, and the rows. */
module Tables {

  datatype Option<T> = None | Some(value: T)

  /** A row value (`dynamic` in the source): never inspected by the core. */
  type Value(==)

  /** A declared column. */
  datatype TableProperty = TableProperty(name: string, isPrimaryKey: bool)

  /** `EnumOperation`, with `Other` standing for any value outside the three
      named members (the `_` arm of the dispatch). */
  datatype Operation = Create | Update | Delete | Other

  /** One row: (column name, value) pairs in the order the caller listed them. */
  type Row = seq<(string, Value)>

  /** `TableData`: `properties`, `enumOperation`, `schema`, `TableName`, `Data`. */
  datatype TableData = TableData(
    properties: seq<TableProperty>,
    operation: Operation,
    schema: string,
    tableName: string,
    data: seq<Row>)

  /** The declared column names, in declaration order. */
  function Names(props: seq<TableProperty>): (r: seq<string>)
    ensures |r| == |props|
    ensures forall i :: 0 <= i < |props| ==> r[i] == props[i].name
  {
    if props == [] then [] else [props[0].name] + Names(props[1..])
  }

  predicate HasKey(props: seq<TableProperty>)
  {
    exists i :: 0 <= i < |props| && props[i].isPrimaryKey
  }

  /** `properties.Where(p => p.IsPrimaryKey)` projected to the names: the
      primary-key names in declaration order. */
  function KeyNames(props: seq<TableProperty>): (r: seq<string>)
    ensures |r| <= |props|
    ensures forall k :: k in r <==> exists i :: 0 <= i < |props| && props[i].isPrimaryKey && props[i].name == k
    ensures r == [] <==> !HasKey(props)
  {
    if props == [] then []
    else
      var rest := KeyNames(props[1..]);
      assert forall i :: 1 <= i < |props| ==> props[i] == props[1..][i - 1];
      if props[0].isPrimaryKey then [props[0].name] + rest else rest
  }

  /** Key selection keeps declaration order: the keys of a concatenation are
      the keys of the first part followed by the keys of the second. */
  lemma {:induction false} KeyNamesAppend(a: seq<TableProperty>, b: seq<TableProperty>)
    ensures KeyNames(a + b) == KeyNames(a) + KeyNames(b)
    decreases |a|
  {
    if a == [] {
      assert a + b == b;
    } else {
      assert (a + b)[0] == a[0];
      assert (a + b)[1..] == a[1..] + b;
      KeyNamesAppend(a[1..], b);
    }
  }

  /** Non-key columns never contribute a key name. */
  lemma NonKeyAddsNoKeyName(props: seq<TableProperty>, p: TableProperty)
    requires !p.isPrimaryKey
    ensures KeyNames(props + [p]) == KeyNames(props)
  {
    KeyNamesAppend(props, [p]);
  }
}
