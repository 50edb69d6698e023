/** The block-caching ID allocator SafeModeMysqlMaxValueIncreamenter: two counters,
    `nextId` and `maxId`, served from memory until the block is used up and then
    refilled from the sequence row with one UPDATE and one read-back. */
module SafeModeIncrementer {
  import opened Wrappers
  import opened IncrementerSql
  import opened Jdbc

  /** The sequence table, its column and the block size, inherited from the
      framework's column-based incrementer. */
  datatype Config = Config(incrementerName: string, columnName: string, cacheSize: int)

  datatype Counters = Counters(nextId: int, maxId: int)

  /** The exceptions `getNextKey` raises. All but the first are the framework's
      DataAccessResourceFailureException with different messages. */
  datatype Failure =
    | CannotGetJdbcConnection                              // shared connection could not be obtained
    | CouldNotObtainLastInsertId                           // an SQLException outside the UPDATE
    | CouldNotIncrement(columnName: string, incrementerName: string) // the UPDATE failed
    | LastInsertIdFailed                                   // the read-back returned no row
    | UnableToCommit(incrementerName: string)              // committing the new connection failed

  /** Everything one call decides: what it returns or raises, the counters, the
      sequence row and the connection afterwards. */
  datatype Outcome = Outcome(result: Result<int, Failure>, counters: Counters, row: int, con: ConnState)

  /** One call of `getNextKey` with the connection policy `useNew`, counters `c`, the
      sequence row at `row`, and `con` the connection the data source hands out. */
  function NextKey(cfg: Config, useNew: bool, c: Counters, row: int, con: ConnState, env: Env): Outcome {
    if c.maxId == c.nextId then Refill(cfg, useNew, c, row, con, env)
    else Outcome(Ok(c.nextId + 1), Counters(c.nextId + 1, c.maxId), row, con)
  }

  /** The slow path: acquire a connection, run the try block, then the finally block. */
  function Refill(cfg: Config, useNew: bool, c: Counters, row: int, con: ConnState, env: Env): Outcome {
    if env.fault == Some(GetConnectionFails) then
      // No connection is held, so the finally block releases nothing.
      Outcome(Err(if useNew then CouldNotObtainLastInsertId else CannotGetJdbcConnection), c, row, con)
    else
      var mustRestoreAutoCommit := useNew && con.autoCommit;
      Release(cfg, useNew, mustRestoreAutoCommit, RefillBody(cfg, mustRestoreAutoCommit, c, row, con, env), env)
  }

  /** The try block once a connection is held: switch auto-commit off if asked to,
      run the UPDATE, read the new high-water mark back and set the counters. */
  function RefillBody(cfg: Config, mustRestoreAutoCommit: bool, c: Counters, row: int, con: ConnState, env: Env): Outcome {
    if mustRestoreAutoCommit && env.fault == Some(DisableAutoCommitFails) then
      Outcome(Err(CouldNotObtainLastInsertId), c, row, con)
    else
      var con1 := if mustRestoreAutoCommit then con.(autoCommit := false) else con;
      if env.fault == Some(CreateStatementFails) then
        Outcome(Err(CouldNotObtainLastInsertId), c, row, con1)
      else if env.fault == Some(UpdateFails) then
        Outcome(Err(CouldNotIncrement(cfg.columnName, cfg.incrementerName)), c, row, con1)
      else
        var (row2, lastId) := IncrementRow(row, con1.lastInsertId, cfg.cacheSize);
        var con2 := con1.(lastInsertId := lastId, log := con1.log + [UpdateStatement(cfg.incrementerName, cfg.columnName, cfg.cacheSize)]);
        if env.fault == Some(QueryFails) then
          Outcome(Err(CouldNotObtainLastInsertId), c, row2, con2)
        else
          var con3 := con2.(log := con2.log + [ValueSql]);
          if !env.rowReturned then Outcome(Err(LastInsertIdFailed), c, row2, con3)
          else
            var maxId := lastId;
            var nextId := maxId - cfg.cacheSize + 1;
            Outcome(Ok(nextId), Counters(nextId, maxId), row2, con3)
  }

  /** The finally block. A new connection is committed, its auto-commit restored and
      then closed; a failing commit raises UnableToCommit in place of whatever the try
      block produced, and skips the restore and the close. A shared connection is
      handed back to the ambient transaction untouched. */
  function Release(cfg: Config, useNew: bool, mustRestoreAutoCommit: bool, o: Outcome, env: Env): Outcome {
    if !useNew then o
    else if env.commitFails then o.(result := Err(UnableToCommit(cfg.incrementerName)))
    else
      o.(con := o.con.(commits := o.con.commits + 1,
                       autoCommit := if mustRestoreAutoCommit then true else o.con.autoCommit,
                       open := false))
  }

  /** The counter invariant of a reachable allocator whose row was seeded above 0:
      blocks hold at least one ID, and the cached block lies at or below the row. */
  predicate Inv(cfg: Config, c: Counters, row: int) {
    cfg.cacheSize >= 1 && c.nextId <= c.maxId <= row && row > 0
  }

  /** While the block is not used up, a call serves the next ID from memory: the
      block's end, the row and the connection stay as they are (no store access). */
  lemma FastPath(cfg: Config, useNew: bool, c: Counters, row: int, con: ConnState, env: Env)
    requires c.nextId != c.maxId
    ensures var o := NextKey(cfg, useNew, c, row, con, env);
      o.result == Ok(c.nextId + 1) && o.counters.nextId == c.nextId + 1 && o.counters.maxId == c.maxId
      && o.row == row && o.con == con
  {
  }

  /** A successful refill of a row at `row > 0` serves `row + 1` and caches the block
      up to `row + cacheSize`, which is the row's new value; the connection ran the
      UPDATE and then the read-back. */
  lemma RefillServesNextAfterRow(cfg: Config, useNew: bool, c: Counters, row: int, con: ConnState, env: Env)
    requires c.nextId == c.maxId && row > 0 && Succeeds(env)
    ensures var o := NextKey(cfg, useNew, c, row, con, env);
      && o.result == Ok(row + 1)
      && o.counters == Counters(row + 1, row + cfg.cacheSize)
      && o.row == row + cfg.cacheSize
      && o.con.lastInsertId == row + cfg.cacheSize
      && o.con.log == con.log + [UpdateStatement(cfg.incrementerName, cfg.columnName, cfg.cacheSize), ValueSql]
  {
  }

  /** A refill moves the row by exactly the cache size, and does so exactly when the
      UPDATE reached the store; otherwise the row keeps its value. */
  lemma RefillRaisesRowByCacheSize(cfg: Config, useNew: bool, c: Counters, row: int, con: ConnState, env: Env)
    requires c.nextId == c.maxId && row > 0 && cfg.cacheSize >= 1
    ensures var o := NextKey(cfg, useNew, c, row, con, env);
      && (o.row == row || o.row == row + cfg.cacheSize)
      && (o.row == row + cfg.cacheSize <==> |o.con.log| > |con.log|)
      && (o.row == row + cfg.cacheSize ==> o.con.log[|con.log|] == UpdateStatement(cfg.incrementerName, cfg.columnName, cfg.cacheSize))
  {
  }

  /** A refill in which a JDBC call throws, or the read-back has no row, raises an
      error and leaves both counters as they were. (Switching auto-commit off is only
      attempted on a new connection that has it on.) */
  lemma FailedRefillKeepsCounters(cfg: Config, useNew: bool, c: Counters, row: int, con: ConnState, env: Env)
    requires c.nextId == c.maxId
    requires || !env.rowReturned
             || (env.fault.Some? && env.fault.value != DisableAutoCommitFails)
             || (env.fault == Some(DisableAutoCommitFails) && useNew && con.autoCommit)
    ensures var o := NextKey(cfg, useNew, c, row, con, env);
      o.result.Err? && o.counters == c
  {
  }

  /** A failing UPDATE raises CouldNotIncrement (unless a failing commit of a new
      connection replaces it) and leaves counters, row and statement log as they were. */
  lemma UpdateFailureLeavesState(cfg: Config, useNew: bool, c: Counters, row: int, con: ConnState, env: Env)
    requires c.nextId == c.maxId && env.fault == Some(UpdateFails)
    ensures var o := NextKey(cfg, useNew, c, row, con, env);
      && o.result == (if useNew && env.commitFails then Err(UnableToCommit(cfg.incrementerName))
                      else Err(CouldNotIncrement(cfg.columnName, cfg.incrementerName)))
      && o.counters == c && o.row == row && o.con.log == con.log
  {
  }

  /** An empty read-back raises LastInsertIdFailed (unless a failing commit replaces
      it) after the row was already advanced; the counters are not touched. */
  lemma EmptyReadBackLeavesCounters(cfg: Config, useNew: bool, c: Counters, row: int, con: ConnState, env: Env)
    requires c.nextId == c.maxId && row > 0 && env.fault == None && !env.rowReturned
    ensures var o := NextKey(cfg, useNew, c, row, con, env);
      && o.result == (if useNew && env.commitFails then Err(UnableToCommit(cfg.incrementerName))
                      else Err(LastInsertIdFailed))
      && o.counters == c && o.row == row + cfg.cacheSize
  {
  }

  /** A failing commit of a new connection raises UnableToCommit although the counters
      already moved to the new block; the connection is left open, with auto-commit off. */
  lemma CommitFailureAfterAdvance(cfg: Config, c: Counters, row: int, con: ConnState, env: Env)
    requires c.nextId == c.maxId && row > 0 && env.fault == None && env.rowReturned && env.commitFails
    ensures var o := NextKey(cfg, true, c, row, con, env);
      && o.result == Err(UnableToCommit(cfg.incrementerName))
      && o.counters == Counters(row + 1, row + cfg.cacheSize)
      && o.con.open == con.open && !o.con.autoCommit && o.con.commits == con.commits
  {
  }

  /** With a new connection, a refill that got the connection and committed it leaves
      its auto-commit flag as it found it, commits once and closes the connection. */
  lemma NewConnectionCommitsAndRestores(cfg: Config, c: Counters, row: int, con: ConnState, env: Env)
    requires c.nextId == c.maxId && env.fault != Some(GetConnectionFails) && !env.commitFails
    ensures var o := NextKey(cfg, true, c, row, con, env);
      o.con.autoCommit == con.autoCommit && o.con.commits == con.commits + 1 && !o.con.open
  {
  }

  /** Auto-commit is only ever switched off on a connection that had it on. */
  lemma AutoCommitOffOnlyIfOn(cfg: Config, useNew: bool, c: Counters, row: int, con: ConnState, env: Env)
    requires !con.autoCommit
    ensures !NextKey(cfg, useNew, c, row, con, env).con.autoCommit
  {
  }

  /** With the shared connection the refill neither commits, nor closes, nor touches
      auto-commit: the ambient transaction owns the connection. */
  lemma SharedConnectionLeftToTransaction(cfg: Config, c: Counters, row: int, con: ConnState, env: Env)
    ensures var o := NextKey(cfg, false, c, row, con, env);
      o.con.autoCommit == con.autoCommit && o.con.commits == con.commits && o.con.open == con.open
  {
  }

  /** Every call keeps the invariant, never lowers the row or `nextId`, and what it
      returns is the new `nextId`, above the old one. */
  lemma NextKeyKeepsInvariant(cfg: Config, useNew: bool, c: Counters, row: int, con: ConnState, env: Env)
    requires Inv(cfg, c, row)
    ensures var o := NextKey(cfg, useNew, c, row, con, env);
      && Inv(cfg, o.counters, o.row) && o.row >= row && o.counters.nextId >= c.nextId
      && (o.result.Ok? ==> o.result.value == o.counters.nextId > c.nextId)
  {
  }

  /** A row holding 0 never matches `C > 0`: with a cache size of 1 and a fresh
      session, the first call serves 0 and leaves the allocator exhausted at 0/0 with
      the row still at 0, so the next call serves 0 again. */
  lemma RowAtZeroRepeats(cfg: Config, useNew: bool, con: ConnState, env: Env)
    requires cfg.cacheSize == 1 && con.lastInsertId == 0 && Succeeds(env)
    ensures var o := NextKey(cfg, useNew, Counters(0, 0), 0, con, env);
      o.result == Ok(0) && o.counters == Counters(0, 0) && o.row == 0
  {
  }

  class MaxValueIncrementer {
    const incrementerName: string
    const columnName: string
    const cacheSize: int
    var nextId: int
    var maxId: int
    var useNewConnection: bool

    function Configuration(): Config {
      Config(incrementerName, columnName, cacheSize)
    }

    function State(): Counters
      reads this
    {
      Counters(nextId, maxId)
    }

    /** A new allocator holds the empty block 0/0 and uses a new connection per refill. */
    constructor (incrementerName: string, columnName: string, cacheSize: int)
      ensures Configuration() == Config(incrementerName, columnName, cacheSize)
      ensures State() == Counters(0, 0) && useNewConnection
    {
      this.incrementerName := incrementerName;
      this.columnName := columnName;
      this.cacheSize := cacheSize;
      nextId := 0;
      maxId := 0;
      useNewConnection := true;
    }

    method SetUseNewConnection(useNewConnection: bool)
      modifies this`useNewConnection
      ensures this.useNewConnection == useNewConnection
      ensures State() == old(State())
    {
      this.useNewConnection := useNewConnection;
    }

    /** Serves the next ID: from the cached block, or after refilling it from `row`
        through `con`, with `env` deciding which JDBC call, if any, throws. */
    method GetNextKey(row: SequenceRow, con: Connection, env: Env) returns (r: Result<int, Failure>)
      modifies this`nextId, this`maxId, row, con
      ensures Outcome(r, State(), row.value, con.State())
           == NextKey(Configuration(), useNewConnection, old(State()), old(row.value), old(con.State()), env)
    {
      if maxId == nextId {
        r := RefillBlock(row, con, env);
      } else {
        nextId := nextId + 1;
        r := Ok(nextId);
      }
    }

    /** The slow path of GetNextKey: acquire the connection, run the try block, then
        the finally block, and return the new `nextId` or the exception raised. */
    method RefillBlock(row: SequenceRow, con: Connection, env: Env) returns (r: Result<int, Failure>)
      modifies this`nextId, this`maxId, row, con
      ensures Outcome(r, State(), row.value, con.State())
           == Refill(Configuration(), useNewConnection, old(State()), old(row.value), old(con.State()), env)
    {
      if env.fault == Some(GetConnectionFails) {
        // No connection is held, so the finally block releases nothing.
        return Err(if useNewConnection then CouldNotObtainLastInsertId else CannotGetJdbcConnection);
      }
      var mustRestoreAutoCommit := useNewConnection && con.autoCommit;
      var failure := TryBlock(mustRestoreAutoCommit, row, con, env);
      // finally
      if useNewConnection {
        if env.commitFails {
          return Err(UnableToCommit(incrementerName));
        }
        con.Commit();
        if mustRestoreAutoCommit {
          con.SetAutoCommit(true);
        }
        con.Close();
      }
      r := if failure.Some? then Err(failure.value) else Ok(nextId);
    }

    /** The try block of the refill on a held connection; returns the exception it
        raises, if any. */
    method TryBlock(mustRestoreAutoCommit: bool, row: SequenceRow, con: Connection, env: Env) returns (failure: Option<Failure>)
      modifies this`nextId, this`maxId, row, con
      ensures Outcome(if failure.Some? then Err(failure.value) else Ok(nextId), State(), row.value, con.State())
           == RefillBody(Configuration(), mustRestoreAutoCommit, old(State()), old(row.value), old(con.State()), env)
    {
      if mustRestoreAutoCommit {
        if env.fault == Some(DisableAutoCommitFails) {
          return Some(CouldNotObtainLastInsertId);
        }
        con.SetAutoCommit(false);
      }
      if env.fault == Some(CreateStatementFails) {
        return Some(CouldNotObtainLastInsertId);
      }
      if env.fault == Some(UpdateFails) {
        return Some(CouldNotIncrement(columnName, incrementerName));
      }
      con.ExecuteIncrement(row, UpdateStatement(incrementerName, columnName, cacheSize), cacheSize);
      if env.fault == Some(QueryFails) {
        return Some(CouldNotObtainLastInsertId);
      }
      var rs := con.ExecuteQuery(ValueSql, env.rowReturned);
      if rs.None? {
        return Some(LastInsertIdFailed);
      }
      maxId := rs.value;
      nextId := maxId - cacheSize + 1;
      failure := None;
    }
  }
}
