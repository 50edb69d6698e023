/** The parts of JDBC and of MySQL that the allocator's refill touches: one sequence
    row, one connection, and which call of the refill (if any) throws. */
module Jdbc {
  import opened Wrappers

  /** What the model tracks about a connection: its auto-commit flag, MySQL's
      per-session LAST_INSERT_ID() value, whether it is still open, how many commits
      it has performed, and the statements it has executed, in order. */
  datatype ConnState = ConnState(autoCommit: bool, lastInsertId: int, open: bool, commits: nat, log: seq<string>)

  /** MySQL's effect of `update T set C = last_insert_id(C + k) where C > 0` on a row
      holding `row`, through a session whose LAST_INSERT_ID() is `lastInsertId`:
      the new row value and the new LAST_INSERT_ID(). A row that fails `C > 0` is not
      updated, so LAST_INSERT_ID(expr) is never evaluated and the session value stays. */
  function IncrementRow(row: int, lastInsertId: int, k: int): (int, int) {
    if row > 0 then (row + k, row + k) else (row, lastInsertId)
  }

  /** The single row of the sequence table. */
  class SequenceRow {
    var value: int

    constructor (value: int)
      ensures this.value == value
    {
      this.value := value;
    }
  }

  class Connection {
    var autoCommit: bool
    var lastInsertId: int
    var open: bool
    var commits: nat
    var log: seq<string>

    function State(): ConnState
      reads this
    {
      ConnState(autoCommit, lastInsertId, open, commits, log)
    }

    /** A connection as the data source hands it out. */
    constructor (autoCommit: bool, lastInsertId: int)
      ensures State() == ConnState(autoCommit, lastInsertId, true, 0, [])
    {
      this.autoCommit := autoCommit;
      this.lastInsertId := lastInsertId;
      open := true;
      commits := 0;
      log := [];
    }

    method SetAutoCommit(on: bool)
      modifies this
      ensures State() == old(State()).(autoCommit := on)
    {
      autoCommit := on;
    }

    method Commit()
      modifies this
      ensures State() == old(State()).(commits := old(commits) + 1)
    {
      commits := commits + 1;
    }

    method Close()
      modifies this
      ensures State() == old(State()).(open := false)
    {
      open := false;
    }

    /** Executes the refill UPDATE `sql`, which advances a matching row by `k`. */
    method ExecuteIncrement(row: SequenceRow, sql: string, k: int)
      modifies this, row
      ensures (row.value, lastInsertId) == IncrementRow(old(row.value), old(lastInsertId), k)
      ensures State() == old(State()).(lastInsertId := lastInsertId, log := old(log) + [sql])
    {
      if row.value > 0 {
        row.value := row.value + k;
        lastInsertId := row.value;
      }
      log := log + [sql];
    }

    /** Executes the read-back query `sql`; `rowReturned` says whether its result set
        has a row, which then holds the session's LAST_INSERT_ID(). */
    method ExecuteQuery(sql: string, rowReturned: bool) returns (rs: Option<int>)
      modifies this
      ensures rs == if rowReturned then Some(lastInsertId) else None
      ensures State() == old(State()).(log := old(log) + [sql])
    {
      log := log + [sql];
      rs := if rowReturned then Some(lastInsertId) else None;
    }
  }

  /** The JDBC call of the refill that throws an SQLException, if one does. */
  datatype Fault =
    | GetConnectionFails      // acquiring the connection
    | DisableAutoCommitFails  // switching auto-commit off on a new connection
    | CreateStatementFails    // creating the statement (or applying the transaction timeout)
    | UpdateFails             // executing the UPDATE
    | QueryFails              // executing or reading the read-back query

  /** How the environment answers one refill: the failing call, whether the read-back
      returns a row, and whether the commit of a new connection fails. */
  datatype Env = Env(fault: Option<Fault>, rowReturned: bool, commitFails: bool)

  /** An environment in which every call of the refill succeeds. */
  predicate Succeeds(env: Env) {
    env.fault == None && env.rowReturned && !env.commitFails
  }
}
