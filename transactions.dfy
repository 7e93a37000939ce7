/** The transaction sequence every operation path of both services follows:
    open the connection and begin a transaction outside the `try`; inside it
    name, create and fill the staging table, run the merge statement and
    commit; on any exception roll back and fall through to `return 0`.

    The database drivers are not modelled: each driver call succeeds or throws
    as an `Env` says, and the affected-row count is whatever the driver
    reports. */
module Transactions {
  import opened Tables

  /** Calls on the Postgres binary importer, in the order they are made. */
  datatype ImportCall = StartRow | Write(value: Value) | Complete

  /** A `DataRow` cell: never assigned (`DBNull`) or holding a row value. */
  datatype Cell = DbNull | Held(value: Value)

  /** A bulk load into the staging table: Postgres's binary `COPY` or SQL
      Server's `SqlBulkCopy.WriteToServer` of an in-memory table. */
  datatype BulkLoad =
    | BinaryImport(copy: string, calls: seq<ImportCall>)
    | BulkCopy(destination: string, columns: seq<string>, rows: seq<seq<Cell>>)

  /** A call made on the connection or transaction. */
  datatype Command =
    | OpenConnection
    | BeginTransaction
    | NonQuery(sql: string)
    | Load(load: BulkLoad)
    | Commit
    | Rollback

  /** Exceptions that leave an operation path: the ones raised outside the
      `try` and the one raised by `Rollback` inside the `catch`. */
  datatype Failure = OpenFailed | BeginFailed | RollbackFailed

  /** What a call of `Execute` gives its caller. */
  datatype Outcome = Returned(count: int) | Raised(failure: Failure)

  datatype TxState = Closed | Connected | Active | Committed | RolledBack

  /** How the driver answers each call of one operation path, and the clock.
      `affected` is the count `ExecuteNonQuery` returns for the merge
      statement, or `None` when it throws. */
  datatype Env = Env(
    ticks: nat,
    openOk: bool,
    beginOk: bool,
    createOk: bool,
    bulkOk: bool,
    affected: Option<int>,
    commitOk: bool,
    rollbackOk: bool)

  /** What a service prepares inside the `try`: either the staging-table name
      was refused (`ArgumentException` for an empty table name), or the
      staging name, its DDL, the bulk-load call (`None` when shaping the rows
      throws before the driver is called) and the merge statement. */
  datatype Stage =
    | EmptyName
    | Staged(temp: string, ddl: string, bulk: Option<BulkLoad>, merge: string)

  /** The staging table exists and holds the rows. */
  predicate Loaded(stage: Stage, env: Env)
  {
    stage.Staged? && env.createOk && stage.bulk.Some? && env.bulkOk
  }

  /** The calls made by `CreateAndFillTempTable`, up to the first that throws. */
  function StagingCalls(stage: Stage, env: Env): seq<Command>
  {
    match stage
    case EmptyName => []
    case Staged(_, ddl, bulk, _) =>
      if !env.createOk || bulk.None? then [NonQuery(ddl)] else [NonQuery(ddl), Load(bulk.value)]
  }

  predicate Succeeds(stage: Stage, env: Env)
  {
    env.openOk && env.beginOk && Loaded(stage, env) && env.affected.Some? && env.commitOk
  }

  /** The result of one operation path, the calls it made, and the state the
      transaction is left in. */
  datatype Run = Run(outcome: Outcome, log: seq<Command>, state: TxState)

  function PathRun(stage: Stage, env: Env): (r: Run)
    ensures |r.log| > 0 && r.log[0] == OpenConnection
    // it commits exactly when every step succeeds, and then returns the driver's count
    ensures r.state == Committed <==> Succeeds(stage, env)
    ensures Succeeds(stage, env) ==>
      r.outcome == Returned(env.affected.value) && r.log[|r.log| - 1] == Commit && Rollback !in r.log
    // on success the calls are, in order: open, begin, create, load, merge, commit
    ensures Succeeds(stage, env) ==>
      r.log == [OpenConnection, BeginTransaction, NonQuery(stage.ddl), Load(stage.bulk.value),
                NonQuery(stage.merge), Commit]
    // any exception inside the try rolls back, never commits, and (if the rollback succeeds) yields 0
    ensures env.openOk && env.beginOk && !Succeeds(stage, env) ==>
      r.log[|r.log| - 1] == Rollback &&
      (env.rollbackOk ==> r.outcome == Returned(0) && r.state == RolledBack) &&
      (!env.rollbackOk ==> r.outcome == Raised(RollbackFailed))
    // failures outside the try propagate and no transaction is finished
    ensures !env.openOk ==> r.outcome == Raised(OpenFailed) && r.log == [OpenConnection]
    ensures env.openOk && !env.beginOk ==>
      r.outcome == Raised(BeginFailed) && r.log == [OpenConnection, BeginTransaction]
    // the merge statement is run only on a loaded staging table
    ensures stage.Staged? && NonQuery(stage.merge) in r.log && stage.merge != stage.ddl ==> Loaded(stage, env)
    // a refused staging name issues no statement at all
    ensures stage.EmptyName? ==> forall c :: c in r.log ==> !c.NonQuery?
  {
    if !env.openOk then Run(Raised(OpenFailed), [OpenConnection], Closed)
    else if !env.beginOk then Run(Raised(BeginFailed), [OpenConnection, BeginTransaction], Connected)
    else
      var loaded := Loaded(stage, env);
      var calls := [OpenConnection, BeginTransaction] + StagingCalls(stage, env)
                   + (if loaded then [NonQuery(stage.merge)] else []);
      var affected := if loaded then env.affected else None;
      if affected.Some? && env.commitOk then
        Run(Returned(affected.value), calls + [Commit], Committed)
      else
        var attempted := calls + (if affected.Some? then [Commit] else []) + [Rollback];
        if env.rollbackOk then Run(Returned(0), attempted, RolledBack)
        else Run(Raised(RollbackFailed), attempted, Active)
  }

  /** When shaping the rows throws, the path creates the staging table,
      never calls the bulk load, and rolls back. */
  lemma UnshapedRollsBack(stage: Stage, env: Env)
    requires stage.Staged? && stage.bulk.None?
    requires env.openOk && env.beginOk && env.rollbackOk
    ensures PathRun(stage, env).log == [OpenConnection, BeginTransaction, NonQuery(stage.ddl), Rollback]
    ensures PathRun(stage, env).outcome == Returned(0) && PathRun(stage, env).state == RolledBack
    ensures forall c :: c in PathRun(stage, env).log ==> !c.Load?
  {
  }

  /** A returned 0 does not tell a committed merge that touched no row from a
      failure that was rolled back. */
  lemma ZeroIsAmbiguous(stage: Stage, env: Env)
    requires Succeeds(stage, env) && env.affected == Some(0) && env.rollbackOk
    ensures PathRun(stage, env).outcome == PathRun(stage, env.(createOk := false)).outcome
    ensures PathRun(stage, env).state == Committed
    ensures PathRun(stage, env.(createOk := false)).state == RolledBack
  {
  }

  /** The connection and its transaction, as the operation paths drive them.
      Each method is told by its `ok` argument whether the driver call
      succeeds. */
  class Session {
    var state: TxState
    var log: seq<Command>

    constructor ()
      ensures state == Closed && log == []
    {
      state := Closed;
      log := [];
    }

    method Open(ok: bool) returns (connected: bool)
      requires state == Closed
      modifies this
      ensures connected == ok
      ensures state == (if ok then Connected else Closed)
      ensures log == old(log) + [OpenConnection]
    {
      log := log + [OpenConnection];
      connected := ok;
      if ok { state := Connected; }
    }

    method Begin(ok: bool) returns (begun: bool)
      requires state == Connected
      modifies this
      ensures begun == ok
      ensures state == (if ok then Active else Connected)
      ensures log == old(log) + [BeginTransaction]
    {
      log := log + [BeginTransaction];
      begun := ok;
      if ok { state := Active; }
    }

    /** A statement or bulk load inside the transaction; `ok` is false when it throws. */
    method Send(cmd: Command, ok: bool) returns (done: bool)
      requires state == Active
      modifies this
      ensures done == ok
      ensures state == Active
      ensures log == old(log) + [cmd]
    {
      log := log + [cmd];
      done := ok;
    }

    /** `ExecuteNonQuery`: the driver's count, or `None` when it throws. */
    method ExecuteNonQuery(sql: string, result: Option<int>) returns (affected: Option<int>)
      requires state == Active
      modifies this
      ensures affected == result
      ensures state == Active
      ensures log == old(log) + [NonQuery(sql)]
    {
      log := log + [NonQuery(sql)];
      affected := result;
    }

    method Commit(ok: bool) returns (committed: bool)
      requires state == Active
      modifies this
      ensures committed == ok
      ensures state == (if ok then Committed else Active)
      ensures log == old(log) + [Command.Commit]
    {
      log := log + [Command.Commit];
      committed := ok;
      if ok { state := Committed; }
    }

    method Rollback(ok: bool) returns (rolledBack: bool)
      requires state == Active
      modifies this
      ensures rolledBack == ok
      ensures state == (if ok then RolledBack else Active)
      ensures log == old(log) + [Command.Rollback]
    {
      log := log + [Command.Rollback];
      rolledBack := ok;
      if ok { state := RolledBack; }
    }
  }

  /** `connection.Open()` and `BeginTransaction()`, both outside the `try`. */
  method Connect(s: Session, env: Env) returns (failure: Option<Failure>)
    requires s.state == Closed && s.log == []
    modifies s
    ensures failure.None? <==> env.openOk && env.beginOk
    ensures failure.None? ==> s.state == Active && s.log == [OpenConnection, BeginTransaction]
    ensures !env.openOk ==> failure == Some(OpenFailed) && s.state == Closed && s.log == [OpenConnection]
    ensures env.openOk && !env.beginOk ==>
      failure == Some(BeginFailed) && s.state == Connected && s.log == [OpenConnection, BeginTransaction]
  {
    var ok := s.Open(env.openOk);
    if !ok { return Some(OpenFailed); }
    ok := s.Begin(env.beginOk);
    if !ok { return Some(BeginFailed); }
    failure := None;
  }

  /** The end of the `try` (commit, then return the count) and the `catch`
      (roll back, then fall through to `return 0`). `affected` is `None`
      when the `try` threw before the commit. */
  method Conclude(s: Session, affected: Option<int>, env: Env) returns (outcome: Outcome)
    requires s.state == Active
    modifies s
    ensures affected.Some? && env.commitOk ==>
      outcome == Returned(affected.value) && s.state == Committed && s.log == old(s.log) + [Commit]
    ensures !(affected.Some? && env.commitOk) ==>
      s.log == old(s.log) + (if affected.Some? then [Commit] else []) + [Rollback] &&
      (env.rollbackOk ==> outcome == Returned(0) && s.state == RolledBack) &&
      (!env.rollbackOk ==> outcome == Raised(RollbackFailed) && s.state == Active)
  {
    if affected.Some? {
      var committed := s.Commit(env.commitOk);
      if committed { return Returned(affected.value); }
    }
    var rolledBack := s.Rollback(env.rollbackOk);
    if !rolledBack { return Raised(RollbackFailed); }
    outcome := Returned(0);
  }

  // ---------------------------------------------------------------------------
  // Batch execution

  /** The batch result: the counts in input order, or the first exception,
      which discards the list built so far. */
  datatype BatchOutcome = Completed(counts: seq<int>) | Aborted(failure: Failure)

  /** The `foreach` over the requests, stopping at the first exception. */
  function Collect(outcomes: seq<Outcome>): BatchOutcome
    decreases |outcomes|
  {
    if outcomes == [] then Completed([])
    else
      match Collect(outcomes[..|outcomes| - 1])
      case Aborted(f) => Aborted(f)
      case Completed(counts) =>
        match outcomes[|outcomes| - 1]
        case Returned(n) => Completed(counts + [n])
        case Raised(f) => Aborted(f)
  }

  /** The batch completes exactly when no request raised; then it has one
      count per request, in request order. Otherwise it reports the first
      request's exception. */
  lemma {:induction false} CollectPointwise(outcomes: seq<Outcome>)
    ensures Collect(outcomes).Completed? <==> forall i :: 0 <= i < |outcomes| ==> outcomes[i].Returned?
    ensures Collect(outcomes).Completed? ==>
      |Collect(outcomes).counts| == |outcomes| &&
      forall i :: 0 <= i < |outcomes| ==> Collect(outcomes).counts[i] == outcomes[i].count
    ensures Collect(outcomes).Aborted? ==>
      exists i :: 0 <= i < |outcomes| && outcomes[i] == Raised(Collect(outcomes).failure) &&
        forall j :: 0 <= j < i ==> outcomes[j].Returned?
    decreases |outcomes|
  {
    if outcomes != [] {
      var init := outcomes[..|outcomes| - 1];
      CollectPointwise(init);
      assert forall i :: 0 <= i < |init| ==> init[i] == outcomes[i];
    }
  }

  /** Extending a prefix by one element. */
  lemma PrefixStep(outcomes: seq<Outcome>, i: nat)
    requires i < |outcomes|
    ensures outcomes[..i + 1] == outcomes[..i] + [outcomes[i]]
  {
  }

  /** Once a request has raised, the rest of the batch does not run. */
  lemma {:induction false} CollectAbortedPrefix(outcomes: seq<Outcome>, k: nat)
    requires k <= |outcomes| && Collect(outcomes[..k]).Aborted?
    ensures Collect(outcomes) == Collect(outcomes[..k])
    decreases |outcomes| - k
  {
    if k < |outcomes| {
      assert outcomes[..k + 1][..k] == outcomes[..k];
      CollectAbortedPrefix(outcomes, k + 1);
    } else {
      assert outcomes[..k] == outcomes;
    }
  }
}
