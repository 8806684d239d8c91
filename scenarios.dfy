/** Sequences of calls on one connection, and what its contracts let a caller
    conclude about them without a database. */
module Scenarios {
  import opened Wrappers
  import opened PostgresClient
  import opened Connection

  /** After a successful commit the connection takes a new transaction, on a new
      executor, and the committed one has been ended. */
  method BeginAfterCommit(config: Config, sql: Executor, settings: TransactionSettings, ok: RawResult)
    returns (c: PostgresJSConnection, begun: Outcome<Error>, committed: Outcome<Error>,
             begunAgain: Outcome<Error>, first: Executor, second: Executor)
    ensures begun == Pass && committed == Pass && begunAgain == Pass
    ensures c.sql == sql && c.transaction == second && first != second && first != sql
    ensures c.ended == {first}
    ensures c.log == [Sent(first, Plain(BeginStatement(settings.isolationLevel))),
                      Sent(first, Plain("commit")),
                      Sent(second, Plain(BeginStatement(settings.isolationLevel)))]
  {
    c := new PostgresJSConnection(config, sql);
    begun := c.BeginTransaction(settings, None, Done(ok));
    first := c.transaction;
    committed := c.CommitTransaction(Done(ok));
    begunAgain := c.BeginTransaction(settings, None, Done(ok));
    second := c.transaction;
  }

  /** A second begin is refused and sends nothing; the first transaction is
      still the open one, and committing it succeeds and ends it. */
  method BeginWhileActive(config: Config, sql: Executor, settings: TransactionSettings, ok: RawResult)
    returns (c: PostgresJSConnection, begun: Outcome<Error>, again: Outcome<Error>,
             committed: Outcome<Error>, tx: Executor)
    ensures begun == Pass
    ensures again == Fail(DialectError("transaction already begun!"))
    ensures committed == Pass
    ensures tx != sql && c.transaction == null && c.ended == {tx}
    ensures c.log == [Sent(tx, Plain(BeginStatement(settings.isolationLevel))), Sent(tx, Plain("commit"))]
  {
    c := new PostgresJSConnection(config, sql);
    begun := c.BeginTransaction(settings, None, Done(ok));
    tx := c.transaction;
    again := c.BeginTransaction(settings, None, Done(ok));
    committed := c.CommitTransaction(Done(ok));
  }

  /** A begin whose start statement fails still leaves the transaction open: a
      retried begin is refused and sends nothing, and a rollback is accepted,
      sent to that transaction's executor, and ends it. */
  method FailedBeginStaysActive(config: Config, sql: Executor, settings: TransactionSettings,
                                message: string, ok: RawResult)
    returns (c: PostgresJSConnection, begun: Outcome<Error>, retried: Outcome<Error>,
             rolledBack: Outcome<Error>, tx: Executor)
    ensures begun == Fail(ClientError(message))
    ensures retried == Fail(DialectError("transaction already begun!"))
    ensures rolledBack == Pass
    ensures tx != sql && c.transaction == null && c.ended == {tx}
    ensures c.log == [Sent(tx, Plain(BeginStatement(settings.isolationLevel))), Sent(tx, Plain("rollback"))]
  {
    c := new PostgresJSConnection(config, sql);
    begun := c.BeginTransaction(settings, None, Raised(message));
    tx := c.transaction;
    retried := c.BeginTransaction(settings, None, Done(ok));
    rolledBack := c.RollbackTransaction(Done(ok));
  }

  /** A begin whose client cannot be created leaves no transaction behind and
      sends nothing, so a retried begin is accepted. */
  method FailedCreateAllowsRetry(config: Config, sql: Executor, settings: TransactionSettings,
                                 message: string, ok: RawResult)
    returns (c: PostgresJSConnection, begun: Outcome<Error>, retried: Outcome<Error>, tx: Executor)
    ensures begun == Fail(ClientError(message))
    ensures retried == Pass
    ensures tx != sql && c.transaction == tx && c.ended == {}
    ensures c.log == [Sent(tx, Plain(BeginStatement(settings.isolationLevel)))]
  {
    c := new PostgresJSConnection(config, sql);
    begun := c.BeginTransaction(settings, Some(message), Done(ok));
    retried := c.BeginTransaction(settings, None, Done(ok));
    tx := c.transaction;
  }

  /** With nothing open, commit and rollback are both refused and nothing is sent. */
  method NothingToFinish(config: Config, sql: Executor, ok: RawResult)
    returns (c: PostgresJSConnection, committed: Outcome<Error>, rolledBack: Outcome<Error>)
    ensures committed == Fail(DialectError("no transaction to commit!"))
    ensures rolledBack == Fail(DialectError("no transaction to rollback!"))
    ensures c.log == [] && c.transaction == null && c.ended == {}
  {
    c := new PostgresJSConnection(config, sql);
    committed := c.CommitTransaction(Done(ok));
    rolledBack := c.RollbackTransaction(Done(ok));
  }

  /** A query inside a transaction runs on the transaction's executor; the same
      query after the commit runs on the reserved connection. Both return the
      shaped client result. */
  method RoutingAroundCommit(config: Config, sql: Executor, query: CompiledQuery, raw: RawResult)
    returns (c: PostgresJSConnection, inside: Result<QueryResult, Error>,
             outside: Result<QueryResult, Error>, tx: Executor)
    ensures c.sql == sql && tx != sql && c.transaction == null && c.ended == {tx}
    ensures c.log == [Sent(tx, Plain("start transaction")),
                      Sent(tx, Statement(query.sql, query.parameters)),
                      Sent(tx, Plain("commit")),
                      Sent(sql, Statement(query.sql, query.parameters))]
    ensures inside == outside == Success(Shape(raw))
  {
    c := new PostgresJSConnection(config, sql);
    var begun := c.BeginTransaction(TransactionSettings(None), None, Done(raw));
    tx := c.transaction;
    inside := c.ExecuteQuery(query, Done(raw));
    var committed := c.CommitTransaction(Done(raw));
    outside := c.ExecuteQuery(query, Done(raw));
  }

  /** A rejected chunk size sends nothing; a valid one sends the query once, to
      the reserved connection, and yields the cursor's rows. */
  method StreamChecksChunkSizeFirst(config: Config, sql: Executor, query: CompiledQuery,
                                    chunkSize: ChunkSize, cursor: seq<seq<Row>>)
    returns (c: PostgresJSConnection, yielded: seq<QueryResult>, r: Outcome<Error>)
    ensures !ValidChunkSize(chunkSize) <==> r == Fail(DialectError("chunkSize must be a positive integer"))
    ensures !ValidChunkSize(chunkSize) ==> yielded == [] && c.log == []
    ensures ValidChunkSize(chunkSize) ==>
      RowsOf(yielded) == Flatten(cursor) && c.log == [Sent(sql, Statement(query.sql, query.parameters))]
  {
    c := new PostgresJSConnection(config, sql);
    yielded, r := c.StreamQuery(query, chunkSize, cursor, None);
    if ValidChunkSize(chunkSize) {
      ForwardedRows(yielded, cursor);
    }
  }
}
