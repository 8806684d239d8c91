# kysely-postgres-js connection adapter, modelled in Dafny

This project models `PostgresJSConnection`, the class that connects the Kysely query
engine to one reserved connection of the postgres.js client. The class does four things:

- It keeps at most one transaction open. A transaction is a separate single-connection
  client, created when the transaction begins and ended when it commits or rolls back.
- It sends each query to that transaction client while one is open, and to the reserved
  connection otherwise.
- It shapes the client's raw result into Kysely's `{rows, numAffectedRows}`.
- It streams a query through a cursor, yielding one `{rows}` per chunk.

Files:

- `wrappers.dfy` (module `Wrappers`): `Option`, `Outcome` (completed or threw) and `Result`.
- `client.dfy` (module `PostgresClient`): the client library seen from the adapter.
  It holds executors (objects with an identity and options), statements, raw results,
  the reply to a statement (a result or a raised error) and the row batching of a cursor.
- `connection.dfy` (module `Connection`): the pure logic and the class
  `PostgresJSConnection`. The class has the field `transaction` (null when no
  transaction is open), a ghost `log` of every `(executor, statement)` pair sent, and a
  ghost set `ended` of the executors the adapter has ended.
- `scenarios.dfy` (module `Scenarios`): call sequences on one connection, and what the
  contracts let a caller conclude about them.

External behaviour is given as input:

- Every awaited client call takes its answer as a `Reply` parameter: `Done(raw)` or
  `Raised(message)`.
- Creating the transaction client takes, as the parameter `created`, the error that
  creation throws, if any.
- A cursor takes the chunk sequence it delivers, plus an optional error it raises after
  its last chunk.
- `chunkSize` is `Int(n)` or `NonInteger`.

### Behaviour of the code worth knowing

- **Begin statement.** The code builds `start transaction <level>` (src/connection.ts:27).
  The test at tests/nodejs/index.test.ts:118 expects
  `start transaction isolation level serializable`.
  `BeginStatementOmitsIsolationLevel` states the difference.
- **Row counts.** Only INSERT, UPDATE and DELETE report a row count
  (src/connection.ts:47). MERGE does not. `MergeReportsNoCount` states this.
- **Failed begin.** A begin can fail at two points, with opposite effects.
  - Creating the transaction client can throw (src/connection.ts:25). The transaction is
    then never assigned, nothing is sent, and a retried begin is accepted.
    `BeginTransaction` and `Scenarios.FailedCreateAllowsRetry` state this.
  - The code assigns the transaction (src/connection.ts:25) before it awaits the start
    statement (src/connection.ts:29). A begin whose start statement fails therefore
    leaves the transaction open. `BeginTransaction` and
    `Scenarios.FailedBeginStaysActive` state this.
- **How begin sends its statement.** The code sends the start statement with `unsafe`
  directly to the new transaction client (src/connection.ts:29), not through
  `executeQuery`.
- **Failed commit or rollback.** When the `commit` or `rollback` statement fails, the
  code never reaches `#releaseTransaction`. The transaction stays open and its client
  is not ended.

## Model

| member | source | states |
|---|---|---|
| `PostgresClient.SingleConnection` | src/connection.ts:25 | The transaction client's options are the configured options with a pool size of exactly one; all other settings are kept. |
| `PostgresClient.FlattenChunks` | src/connection.ts:74-80 | A cursor that batches a result set by `n` rows delivers every row once, in order, with nothing added. |
| `PostgresClient.Chunks` | src/connection.ts:76 | The batching that `.cursor(n)` is taken to perform. There are no chunks exactly when there are no rows. Every chunk is non-empty and holds at most `n` rows, and every chunk but the last holds exactly `n`. |
| `Connection.BeginStatement` | src/connection.ts:27 | The statement always starts with `start transaction`. It is exactly that when the level is absent or empty. Otherwise it is followed by one space and the level, and the level can be read back from it. |
| `Connection.BeginStatementOmitsIsolationLevel` | tests/nodejs/index.test.ts:117-119 | For `serializable` the statement is `start transaction serializable`, not the `start transaction isolation level serializable` that the test expects. |
| `Connection.ValidChunkSize` | src/connection.ts:70 | A non-integer chunk size (a fraction, NaN, an infinity) is refused. An integer is accepted exactly when it is at least 1. |
| `Connection.Shape` | src/connection.ts:45-53 | The rows are the client's rows, unchanged and in order. `numAffectedRows` equals the reported count exactly when the command is INSERT, UPDATE or DELETE, and is absent otherwise. |
| `Connection.MergeReportsNoCount` | src/connection.ts:47 | A MERGE result carries no row count, whatever the client reported. |
| `Connection.ForwardChunks` | src/connection.ts:78-80 | The result holds one `{rows}` per cursor chunk, in cursor order, with nothing added or dropped. |
| `Connection.ForwardedRows` | src/connection.ts:78-80 | The forwarded results' row batches are exactly the cursor's chunks, so flattening them gives exactly the cursor's rows. |
| `Connection.ChunkSizeKeepsRows` | tests/nodejs/index.test.ts:176-203 | Streaming a result set through a cursor of chunk size `n` yields exactly that result set's rows, in batches of 1 to `n` rows. |
| `Connection.SameRowsForAnyChunkSize` | tests/nodejs/index.test.ts:147-203 | Two streams of the same result set with different chunk sizes yield the same rows. |
| `Connection.PostgresJSConnection.constructor` | src/connection.ts:13-16 | A new connection keeps its config copy and reserved connection. It has no open transaction, has sent nothing and has ended nothing. |
| `Connection.PostgresJSConnection.ResolveExecutor` | src/connection.ts:83-85 | Queries go to the open transaction's executor when there is one, otherwise to the reserved connection. The chosen executor has never been ended. |
| `Connection.PostgresJSConnection.Unsafe` | src/connection.ts:43 | Sending a statement appends exactly one `(executor, statement)` entry to the log. The call yields the client's result, or its error unchanged. |
| `Connection.PostgresJSConnection.BeginTransaction` | src/connection.ts:18-30 | While a transaction is open: fails with "transaction already begun!" and changes nothing. If creating the client throws: fails with that error and changes nothing. Otherwise: a fresh single-connection executor becomes the transaction, and exactly one start statement is sent to it. The transaction stays open whether or not that statement fails, and the call fails with the client's error if it does. |
| `Connection.PostgresJSConnection.CommitTransaction` | src/connection.ts:32-40 | With nothing open: fails with "no transaction to commit!" and changes nothing. Otherwise `commit` is sent to the transaction's executor. On success that executor is ended and the state returns to none. On failure the state is unchanged. |
| `Connection.PostgresJSConnection.ExecuteQuery` | src/connection.ts:42-54 | The query's SQL and an equal copy of its parameters are sent once, to the executor `ResolveExecutor` picks. The result is the shaped client result or the client's error unchanged. The transaction state does not change. |
| `Connection.PostgresJSConnection.RollbackTransaction` | src/connection.ts:56-64 | With nothing open: fails with "no transaction to rollback!" and changes nothing. Otherwise `rollback` is sent to the transaction's executor. On success that executor is ended and the state returns to none. On failure the state is unchanged. |
| `Connection.PostgresJSConnection.StreamQuery` | src/connection.ts:66-81 | A non-integer or non-positive chunk size fails with "chunkSize must be a positive integer", before anything is sent or yielded. Otherwise the query is sent once, to the executor `ResolveExecutor` picks, and one `{rows}` is yielded per cursor chunk, in order. A cursor error is passed on after the chunks already yielded. |
| `Connection.PostgresJSConnection.ReleaseTransaction` | src/connection.ts:87-92 | Any open transaction's executor is added to the ended set and the state becomes none. The log is untouched. |
| `Scenarios.BeginAfterCommit` | src/connection.ts:37-39 | After begin and a successful commit, a new begin succeeds on a different executor, which is the connection's transaction. Only the first executor has been ended. The log holds exactly the first start, the commit on the first executor and the second start, in that order. |
| `Scenarios.BeginWhileActive` | src/connection.ts:19-21 | A second begin is refused with "transaction already begun!" and sends nothing. Committing the first transaction still succeeds and ends it. The log holds exactly the start and the commit, both on that transaction's executor. |
| `Scenarios.FailedBeginStaysActive` | src/connection.ts:25-29 | A begin whose start statement fails returns the client's error. A retried begin is then refused and sends nothing. A rollback succeeds on the same executor and ends it. The log holds exactly the start and the rollback. |
| `Scenarios.FailedCreateAllowsRetry` | src/connection.ts:23-25 | A begin whose client creation throws returns that error and sends nothing. A retried begin is then accepted, and the log holds only its start statement. |
| `Scenarios.NothingToFinish` | src/connection.ts:33-35 | On a fresh connection, commit and rollback fail with their "no transaction" messages. Nothing is sent, nothing is ended and no transaction is open. |
| `Scenarios.RoutingAroundCommit` | src/connection.ts:83-85 | The log holds exactly the start and the query on the transaction's executor, its commit, and then the same query on the reserved connection. The transaction's executor has been ended and none is open. Both queries return the shaped client result. |
| `Scenarios.StreamChecksChunkSizeFirst` | src/connection.ts:70-72 | A stream fails with the chunk-size message exactly when the chunk size is invalid, and then yields and sends nothing. Otherwise the query is sent once, to the reserved connection, and its rows are the cursor's rows. |

## Left out

- The driver (src/driver.ts) is not part of this model. It only forwards: `init` does
  nothing, acquire reserves a connection, destroy ends the client, and the transaction
  verbs call the connection. As written it also does not match the connection class:
  - it calls the two-argument constructor with one argument;
  - it calls a `releaseConnection` method the class does not have.
- The dialect factory (src/dialect.ts), the config type, the error class and
  `Object.freeze` (src/types.ts, src/errors.ts, src/utils.ts) hold no logic. The frozen
  config copy is the `const config` field.
- The postgres.js library (`unsafe`, `cursor`, `end`, `reserve`, and creating a client
  from options) is outside the model. Each call is one step whose answer or thrown error
  is a parameter.
  Pooling, sockets and cursor cleanup when a consumer stops early belong to the library.
- Asynchrony: each awaited call is one atomic step. `streamQuery` is an async generator,
  so its chunk-size check runs when iteration starts; the model runs the whole generator
  in one call. A consumer stopping early is not modelled.
- Concurrency: parallel transactions on a pool and pool exhaustion under early-stopped
  streams need a live database and a scheduler.
- `ReleaseTransaction`: `end()` is not awaited in the code. The model records the
  executor as ended at once.
- `BigInt` conversion: the row count is a `nat`, and 64-bit bounds are not modelled.
- Values and rows are stand-ins. `Value` has four cases and a row is a map from column
  name to value, because the adapter never inspects either.
- `Connection.PostgresJSConnection.StreamQuery`: the cursor's chunk sequence is any input,
  so the method does not tie the chunks to `chunkSize`. The chunk-size lemmas
  (`ChunkSizeKeepsRows`, `SameRowsForAnyChunkSize`) assume the cursor batches as
  `PostgresClient.Chunks` does.
