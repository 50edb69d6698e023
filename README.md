# Safe-mode MySQL ID allocator, modelled in Dafny

This project models `SafeModeMysqlMaxValueIncreamenter`, the block-caching ID
allocator that replaces Spring's MySQL incrementer so that Spring Batch can mint
job and step IDs on a MySQL server running in safe update mode. The allocator
keeps two counters, `nextId` and `maxId`. While `nextId != maxId` it serves
`nextId + 1` from memory. When the block is used up, including the initial 0/0
state, it refills the block from the single sequence row with

    update T set C = last_insert_id(C + cacheSize) where C > 0
    select last_insert_id()

then sets `maxId` to the value read back and `nextId` to `maxId - cacheSize + 1`.
The WHERE clause compares the key column with 0, which safe update mode accepts.

Files:

- `wrappers.dfy`: `Option` and `Result`.
- `sql_text.dfy` (module `IncrementerSql`): the UPDATE and read-back text. Java's
  decimal rendering of the cache size comes with a parser, and the round trip is
  proved. The statement is always qualified by the configured column, and its text
  determines the increment.
- `jdbc.dfy` (module `Jdbc`): the environment. `SequenceRow` is the row. `Connection`
  tracks auto-commit, MySQL's per-session `LAST_INSERT_ID()`, open/closed, the
  commit count and the log of executed statements. `IncrementRow` gives MySQL's
  effect of the UPDATE: a row that fails `C > 0` is not changed and the session
  value stays. `Env` says which JDBC call of a refill throws, whether the read-back
  has a row, and whether the commit fails.
- `incrementer.dfy` (module `SafeModeIncrementer`): the class `MaxValueIncrementer`
  with the fields `nextId`, `maxId` and `useNewConnection`. Its `GetNextKey` takes
  the fast path or calls `RefillBlock`, which acquires the connection, calls
  `TryBlock` for the try block and then runs the finally block, step by step. Each
  method is proved equal to a pure specification: `NextKey`, `Refill` and
  `RefillBody`, with `Release` for the finally block. Single-call properties are
  lemmas about `NextKey`.
- `sessions.dfy` (module `IncrementerSessions`): `Session` runs a sequence of calls
  on one instance. The lemmas cover strictly increasing IDs under any mix of
  failures, and consecutive IDs with exactly one round trip per `cacheSize`
  successful calls.

Behaviour of the code that the model keeps as written:

- The code never checks how many rows the UPDATE affected. A row holding 0 (or
  less) is never matched by `C > 0`. The read-back then returns the session's old
  `LAST_INSERT_ID()`, and the allocator hands out IDs it has already handed out
  (`RowAtZeroRepeats`). Uniqueness is therefore proved for a row seeded above 0,
  and an UPDATE that matches no row is not an error.
- The commit sits in the finally block. When it fails, `UnableToCommit` replaces
  any error the try block raised, and also replaces a successful result after the
  counters were advanced. The connection is then neither restored to auto-commit
  nor closed (`CommitFailureAfterAdvance`).
- A failing UPDATE raises `CouldNotIncrement` directly. Other SQL failures in the
  try block are wrapped as `CouldNotObtainLastInsertId`. With the shared-connection
  policy, a failure to get the connection propagates as `CannotGetJdbcConnection`.

## Model

| member | source | states |
|---|---|---|
| `SafeModeIncrementer.MaxValueIncrementer.constructor` | src/main/java/io/github/slankka/springbatch/safemode/patch/SafeModeMysqlMaxValueIncreamenter.java:35-67 | A new allocator holds the counters 0/0, uses a new connection per refill, and keeps the table, column and cache size it was given |
| `SafeModeIncrementer.MaxValueIncrementer.SetUseNewConnection` | src/main/java/io/github/slankka/springbatch/safemode/patch/SafeModeMysqlMaxValueIncreamenter.java:82-84 | Sets the connection policy to the argument and leaves the counters unchanged |
| `SafeModeIncrementer.MaxValueIncrementer.GetNextKey` | src/main/java/io/github/slankka/springbatch/safemode/patch/SafeModeMysqlMaxValueIncreamenter.java:88-160 | The result or error, the new counters, the row and the connection are exactly those of the specification `NextKey` applied to the old state |
| `SafeModeIncrementer.MaxValueIncrementer.RefillBlock` | src/main/java/io/github/slankka/springbatch/safemode/patch/SafeModeMysqlMaxValueIncreamenter.java:98-155 | The slow path (connection acquisition, try block, finally block) leaves result, counters, row and connection exactly as the specification `Refill` says |
| `SafeModeIncrementer.MaxValueIncrementer.TryBlock` | src/main/java/io/github/slankka/springbatch/safemode/patch/SafeModeMysqlMaxValueIncreamenter.java:102-134 | The try block on a held connection raises or completes, and leaves counters, row and connection, exactly as the specification `RefillBody` says |
| `SafeModeIncrementer.FastPath` | src/main/java/io/github/slankka/springbatch/safemode/patch/SafeModeMysqlMaxValueIncreamenter.java:156-159 | With `nextId != maxId` a call returns `nextId + 1` and increments `nextId` by one; `maxId`, the row and the connection are untouched |
| `SafeModeIncrementer.RefillServesNextAfterRow` | src/main/java/io/github/slankka/springbatch/safemode/patch/SafeModeMysqlMaxValueIncreamenter.java:118-134 | A successful refill of a row at v > 0 returns v + 1, sets `maxId` to v + cacheSize (the value read back) and `nextId` to v + 1, raises the row to v + cacheSize, and runs the UPDATE and then the read-back on the connection |
| `SafeModeIncrementer.RefillRaisesRowByCacheSize` | src/main/java/io/github/slankka/springbatch/safemode/patch/SafeModeMysqlMaxValueIncreamenter.java:117-125 | A refill leaves the row where it was or raises it by exactly cacheSize; it raises it exactly when statements reached the store, and then the first of them is the UPDATE |
| `SafeModeIncrementer.FailedRefillKeepsCounters` | src/main/java/io/github/slankka/springbatch/safemode/patch/SafeModeMysqlMaxValueIncreamenter.java:101-136 | When a JDBC call of the refill throws or the read-back has no row, the call raises an error and `nextId` and `maxId` are unchanged |
| `SafeModeIncrementer.UpdateFailureLeavesState` | src/main/java/io/github/slankka/springbatch/safemode/patch/SafeModeMysqlMaxValueIncreamenter.java:117-123 | A failing UPDATE raises CouldNotIncrement naming column and table (or UnableToCommit if the commit also fails); counters, row and statement log are unchanged |
| `SafeModeIncrementer.EmptyReadBackLeavesCounters` | src/main/java/io/github/slankka/springbatch/safemode/patch/SafeModeMysqlMaxValueIncreamenter.java:125-130 | A read-back without a row raises LastInsertIdFailed (or UnableToCommit); counters are unchanged while the row has already been raised by cacheSize |
| `SafeModeIncrementer.CommitFailureAfterAdvance` | src/main/java/io/github/slankka/springbatch/safemode/patch/SafeModeMysqlMaxValueIncreamenter.java:134-150 | A failed commit raises UnableToCommit after the counters have moved to the new block; the connection stays open, auto-commit stays off, and no commit is counted |
| `SafeModeIncrementer.NewConnectionCommitsAndRestores` | src/main/java/io/github/slankka/springbatch/safemode/patch/SafeModeMysqlMaxValueIncreamenter.java:139-150 | With a new connection, once it is obtained and the commit succeeds, it is committed once, its auto-commit flag ends as it was, and it is closed |
| `SafeModeIncrementer.AutoCommitOffOnlyIfOn` | src/main/java/io/github/slankka/springbatch/safemode/patch/SafeModeMysqlMaxValueIncreamenter.java:102-107 | A connection whose auto-commit is off never has it switched on or off by a call |
| `SafeModeIncrementer.SharedConnectionLeftToTransaction` | src/main/java/io/github/slankka/springbatch/safemode/patch/SafeModeMysqlMaxValueIncreamenter.java:151-153 | With the shared connection no call commits, closes or changes auto-commit |
| `SafeModeIncrementer.NextKeyKeepsInvariant` | src/main/java/io/github/slankka/springbatch/safemode/patch/SafeModeMysqlMaxValueIncreamenter.java:89-159 | From `nextId <= maxId <= row`, row > 0, cacheSize >= 1, every call keeps that invariant, never lowers the row or `nextId`, and a returned ID equals the new `nextId` and exceeds the old one |
| `SafeModeIncrementer.RowAtZeroRepeats` | src/main/java/io/github/slankka/springbatch/safemode/patch/SafeModeMysqlMaxValueIncreamenter.java:118-119 | A row at 0 fails `C > 0`: with cacheSize 1 and a fresh session, the first call returns 0, leaves the counters at 0/0 and the row at 0, so the next call returns 0 again |
| `IncrementerSql.UpdateIsKeyQualified` | src/main/java/io/github/slankka/springbatch/safemode/patch/SafeModeMysqlMaxValueIncreamenter.java:118-119 | For every table, column and cache size the statement starts with `update ` and ends with ` where <column> > 0` |
| `IncrementerSql.UpdateDeterminesIncrement` | src/main/java/io/github/slankka/springbatch/safemode/patch/SafeModeMysqlMaxValueIncreamenter.java:118-119 | Two statements for the same table and column are equal only if their cache sizes are equal |
| `IncrementerSql.IntStringRoundTrip` | src/main/java/io/github/slankka/springbatch/safemode/patch/SafeModeMysqlMaxValueIncreamenter.java:119 | The decimal text of the cache size in the statement parses back to the cache size, for every int |
| `IncrementerSql.DigitsRoundTrip` | src/main/java/io/github/slankka/springbatch/safemode/patch/SafeModeMysqlMaxValueIncreamenter.java:119 | The digits of a non-negative number parse back to it |
| `Jdbc.Connection.ExecuteIncrement` | src/main/java/io/github/slankka/springbatch/safemode/patch/SafeModeMysqlMaxValueIncreamenter.java:118-119 | Running the UPDATE raises a positive row by k and sets the session's LAST_INSERT_ID() to the new value; a row at or below 0 and the session value are left alone; the statement is logged |
| `Jdbc.Connection.SetAutoCommit` | src/main/java/io/github/slankka/springbatch/safemode/patch/SafeModeMysqlMaxValueIncreamenter.java:104-107 | Sets the auto-commit flag and changes nothing else on the connection |
| `Jdbc.Connection.Commit` | src/main/java/io/github/slankka/springbatch/safemode/patch/SafeModeMysqlMaxValueIncreamenter.java:142 | Counts one commit and changes nothing else on the connection |
| `Jdbc.Connection.Close` | src/main/java/io/github/slankka/springbatch/safemode/patch/SafeModeMysqlMaxValueIncreamenter.java:150 | Marks the connection closed and changes nothing else |
| `Jdbc.Connection.ExecuteQuery` | src/main/java/io/github/slankka/springbatch/safemode/patch/SafeModeMysqlMaxValueIncreamenter.java:125-130 | The read-back yields the session's LAST_INSERT_ID() when it has a row, nothing otherwise; the query is logged |
| `IncrementerSessions.Run` | src/main/java/io/github/slankka/springbatch/safemode/patch/SafeModeMysqlMaxValueIncreamenter.java:88-160 | A run of calls hands out at most one ID per call and makes at most one round trip per call |
| `IncrementerSessions.SessionIdsIncrease` | src/main/java/io/github/slankka/springbatch/safemode/patch/SafeModeMysqlMaxValueIncreamenter.java:88-160 | Under any mix of failures, the IDs one instance returns strictly increase, lie above the starting `nextId` and at or below the final one, and the invariant holds at the end |
| `IncrementerSessions.ServeFromBlock` | src/main/java/io/github/slankka/springbatch/safemode/patch/SafeModeMysqlMaxValueIncreamenter.java:156-159 | Calls within the cached block return the next IDs consecutively with no round trip and leave `maxId` and the row alone |
| `IncrementerSessions.OneBlock` | src/main/java/io/github/slankka/springbatch/safemode/patch/SafeModeMysqlMaxValueIncreamenter.java:89-159 | From a used-up block, cacheSize successful calls return row+1 .. row+cacheSize with exactly one round trip and end used up at the row's new value |
| `IncrementerSessions.BlocksOfCalls` | src/main/java/io/github/slankka/springbatch/safemode/patch/SafeModeMysqlMaxValueIncreamenter.java:89-159 | From a used-up block, successful calls in blocks of cacheSize return the consecutive IDs after the row with exactly one round trip per block, and the row rises by the number of IDs served |
| `IncrementerSessions.FreshAllocatorServes` | src/main/java/io/github/slankka/springbatch/safemode/patch/SafeModeMysqlMaxValueIncreamenter.java:35-40 | A new allocator (0/0) over a row seeded at r >= 1 returns r+1, r+2, ... for full blocks of successful calls, with one refill per block |
| `IncrementerSessions.RowAtHundredExample` | src/main/java/io/github/slankka/springbatch/safemode/patch/SafeModeMysqlMaxValueIncreamenter.java:118-134 | Row at 100, cacheSize 10: the 1st call returns 101, the 10th 110, the 11th 111 after a second refill, and the row ends at 120 |

## Left out

- JDBC and `DataSource` plumbing (`getConnection`, `DataSourceUtils`, `JdbcUtils.close*`, `ResultSet`) are foreign library calls. The model reduces them to the `Connection` state, the `SequenceRow` value and the `Env` fault choice.
- `getAutoCommit`, `applyTransactionTimeout` and `getLong` throwing are folded into the neighbouring faults (`DisableAutoCommitFails`, `CreateStatementFails`, `QueryFails`). `setAutoCommit(true)` failing after the commit is folded into `commitFails`.
- Closing the statement and result set, and `releaseConnection` for the shared connection, are not modelled: the model leaves the shared connection as it is.
- Transactions and durability: the UPDATE's effect on the row is visible at once and a failed commit does not roll it back, so the open question of whether the store advanced after a failed commit is not modelled.
- `synchronized` and cross-process writers: calls are sequential, and `Session` assumes no other allocator writes the row between calls.
- SafeModeIncrementer.MaxValueIncrementer.GetNextKey: does not model the 64-bit wrap-around of the Java `long` counters, because the row would need more than 2^63 IDs to reach it.
- Exception messages and cause chaining: failures are kept as kinds carrying the table and column names.
- `getIncrementerName`, `getColumnName` and `getCacheSize` come from the framework's superclass and are taken as constructor parameters. The bean-style no-argument constructor with setters is not modelled separately. A cache size below 1 is accepted by the class, and the session properties are proved for cache sizes of at least 1.
- SafeModeMysqlIncrementFactory.java (type dispatch into a framework factory not shown), SafeModeBatchConfigurer.java, AppConfig.java, SafeTaskExecutionDaoFactoryBean.java and SafeModelTaskConfigurer.java (Spring wiring and thread pools) are not part of this model.
