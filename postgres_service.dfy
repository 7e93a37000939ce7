/** `DatabaseOperationPostgresService`: `Execute` for one request and for a
    list of them, and the three operation paths, each in its own connection
    and transaction. */
module PostgresService {
  import opened Text
  import opened Tables
  import opened Transactions
  import opened PostgresSql

  /** The statement the path for `op` runs against the staging table. */
  function MergeSql(op: Operation, req: TableData, temp: string): string
    requires op != Other
  {
    match op
    case Create => InsertSql(req.schema, req.tableName, temp)
    case Update => UpdateSql(req.schema, req.tableName, temp, req.properties)
    case Delete => DeleteSql(req.schema, req.tableName, temp, req.properties)
  }

  /** What the path for `op` prepares inside its `try` (`CreateAndFillTempTable`
      followed by the merge statement). The binary import has no shaping step
      that can throw before the driver is called. */
  function StageOf(op: Operation, req: TableData, ticks: nat): Stage
    requires op != Other
  {
    match TempTableName(req.tableName, ticks)
    case None => EmptyName
    case Some(temp) =>
      Staged(temp, TempTableDdl(req.schema, temp, req.tableName), Some(CopyLoad(temp, req)), MergeSql(op, req, temp))
  }

  /** The staging table every statement of a path uses is the one its DDL
      creates and its `COPY` fills. */
  lemma StagingTableShared(op: Operation, req: TableData, ticks: nat)
    requires op != Other
    requires StageOf(op, req, ticks).Staged?
    ensures var st := StageOf(op, req, ticks);
      Occurs(st.temp, st.ddl) && Occurs(st.temp, st.bulk.value.copy) && Occurs(st.temp, st.merge)
  {
    var t := StageOf(op, req, ticks).temp;
    DdlNamesStaging(req.schema, t, req.tableName);
    OccursInside("CREATE TEMP TABLE ", t, " ON COMMIT DROP AS SELECT * FROM ", TempTableDdl(req.schema, t, req.tableName));
    CopyNamesStaging(t, Names(req.properties));
    OccursInside("COPY ", t, " (", CopyCommand(t, Names(req.properties)));
    match op
    case Create =>
      InsertNamesStaging(req.schema, req.tableName, t);
      OccursInside(" SELECT * FROM ", t, " ", InsertSql(req.schema, req.tableName, t));
    case Update =>
      UpdateNamesStaging(req.schema, req.tableName, t, req.properties);
      OccursInside(" FROM ", t, " S WHERE 1=1 AND ", UpdateSql(req.schema, req.tableName, t, req.properties));
    case Delete =>
      DeleteNamesStaging(req.schema, req.tableName, t, req.properties);
      OccursInside(" c USING ", t, " S WHERE 1=1 AND ", DeleteSql(req.schema, req.tableName, t, req.properties));
  }

  /** `CreateAndFillTempTable`: name the staging table, create it, bulk-load
      the rows; `None` when any of these throws. */
  method CreateAndFillTempTable(s: Session, req: TableData, env: Env, ghost op: Operation)
    returns (temp: Option<string>)
    requires op != Other
    requires s.state == Active
    modifies s
    ensures s.state == Active
    ensures s.log == old(s.log) + StagingCalls(StageOf(op, req, env.ticks), env)
    ensures temp.Some? <==> Loaded(StageOf(op, req, env.ticks), env)
    ensures temp.Some? ==> temp.value == StageOf(op, req, env.ticks).temp
  {
    var name := TempTableName(req.tableName, env.ticks);
    if name.None? { return None; }
    var ddl := TempTableDdl(req.schema, name.value, req.tableName);
    var ok := s.Send(NonQuery(ddl), env.createOk);
    if !ok { return None; }
    var load := BulkIntoTempTable(name.value, req);
    ok := s.Send(Load(load), env.bulkOk);
    if !ok { return None; }
    temp := name;
  }

  /** `Create`: insert every staged row into the target table. */
  method Create(req: TableData, env: Env) returns (run: Run)
    ensures run == PathRun(StageOf(Operation.Create, req, env.ticks), env)
  {
    var s := new Session();
    var failure := Connect(s, env);
    if failure.Some? { return Run(Raised(failure.value), s.log, s.state); }
    var affected: Option<int> := None;
    var temp := CreateAndFillTempTable(s, req, env, Operation.Create);
    if temp.Some? {
      var sql := InsertSql(req.schema, req.tableName, temp.value);
      affected := s.ExecuteNonQuery(sql, env.affected);
    }
    var outcome := Conclude(s, affected, env);
    run := Run(outcome, s.log, s.state);
  }

  /** `Update`: overwrite the target rows whose keys match a staged row. */
  method Update(req: TableData, env: Env) returns (run: Run)
    ensures run == PathRun(StageOf(Operation.Update, req, env.ticks), env)
  {
    var s := new Session();
    var failure := Connect(s, env);
    if failure.Some? { return Run(Raised(failure.value), s.log, s.state); }
    var affected: Option<int> := None;
    var temp := CreateAndFillTempTable(s, req, env, Operation.Update);
    if temp.Some? {
      var sql := GenerateUpdate(req.schema, req.tableName, temp.value, req.properties);
      affected := s.ExecuteNonQuery(sql, env.affected);
    }
    var outcome := Conclude(s, affected, env);
    run := Run(outcome, s.log, s.state);
  }

  /** `Delete`: remove the target rows whose keys match a staged row. */
  method Delete(req: TableData, env: Env) returns (run: Run)
    ensures run == PathRun(StageOf(Operation.Delete, req, env.ticks), env)
  {
    var s := new Session();
    var failure := Connect(s, env);
    if failure.Some? { return Run(Raised(failure.value), s.log, s.state); }
    var affected: Option<int> := None;
    var temp := CreateAndFillTempTable(s, req, env, Operation.Delete);
    if temp.Some? {
      var sql := DeleteSql(req.schema, req.tableName, temp.value, req.properties);
      affected := s.ExecuteNonQuery(sql, env.affected);
    }
    var outcome := Conclude(s, affected, env);
    run := Run(outcome, s.log, s.state);
  }

  /** The run of `Execute` for one request. */
  function Dispatch(req: TableData, env: Env): Run
  {
    if req.operation == Other then Run(Returned(0), [], Closed)
    else PathRun(StageOf(req.operation, req, env.ticks), env)
  }

  /** `Execute(TableData)`: each operation goes to its own path; any other
      value returns 0 without opening a connection. */
  method Execute(req: TableData, env: Env) returns (run: Run)
    ensures req.operation == Other ==> run.outcome == Returned(0) && run.log == []
    ensures run == Dispatch(req, env)
  {
    match req.operation {
      case Create => run := Create(req, env);
      case Update => run := Update(req, env);
      case Delete => run := Delete(req, env);
      case Other => run := Run(Returned(0), [], Closed);
    }
  }

  /** The outcome of each request's `Execute`, in order; `envs[i]` is how the
      driver and the clock answer during request `i`. */
  function Outcomes(reqs: seq<TableData>, envs: seq<Env>): seq<Outcome>
    requires |envs| == |reqs|
  {
    seq(|reqs|, i requires 0 <= i < |reqs| => Dispatch(reqs[i], envs[i]).outcome)
  }

  /** `Execute(IEnumerable<TableData>)`: one `Execute` per request, in order,
      each in its own transaction; an exception from one abandons the list. */
  method ExecuteBatch(reqs: seq<TableData>, envs: seq<Env>) returns (result: BatchOutcome)
    requires |envs| == |reqs|
    ensures result == Collect(Outcomes(reqs, envs))
    ensures result.Completed? ==>
      |result.counts| == |reqs| &&
      forall i :: 0 <= i < |reqs| ==> Dispatch(reqs[i], envs[i]).outcome == Returned(result.counts[i])
  {
    ghost var outcomes := Outcomes(reqs, envs);
    var results: seq<int> := [];
    var i := 0;
    while i < |reqs|
      invariant 0 <= i <= |reqs|
      invariant Collect(outcomes[..i]) == Completed(results)
    {
      var run := Execute(reqs[i], envs[i]);
      assert run.outcome == outcomes[i];
      PrefixStep(outcomes, i);
      if run.outcome.Raised? {
        CollectAbortedPrefix(outcomes, i + 1);
        return Aborted(run.outcome.failure);
      }
      results := results + [run.outcome.count];
      i := i + 1;
    }
    assert outcomes[..i] == outcomes;
    result := Completed(results);
    CollectPointwise(outcomes);
  }
}
