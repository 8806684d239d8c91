/** The connection adapter: one reserved client connection presented as a query
    engine connection, with at most one transaction open on it at a time.
    The pure parts (the begin statement, the chunk-size check, result shaping,
    chunk forwarding) are functions and a loop method; the transaction state
    lives in the class `PostgresJSConnection`. */
module Connection {
  import opened Wrappers
  import opened PostgresClient

  /** What the adapter throws. */
  datatype Error =
    | DialectError(message: string)  // raised by the adapter itself
    | ClientError(message: string)   // raised by the client, passed on unchanged

  /** The isolation level is optional; the query engine passes it as a string. */
  datatype TransactionSettings = TransactionSettings(isolationLevel: Option<string>)

  /** A query as the query engine compiled it. */
  datatype CompiledQuery = CompiledQuery(sql: string, parameters: seq<Value>)

  /** What the query engine receives: the rows and, for row-changing commands, their count. */
  datatype QueryResult = QueryResult(rows: seq<Row>, numAffectedRows: Option<nat>)

  /** The `chunkSize` number: an integer, or anything else (a fraction, NaN, an infinity). */
  datatype ChunkSize = Int(n: int) | NonInteger

  /** The adapter's own copy of its configuration. */
  datatype Config = Config(options: Options)

  /** One entry of the record of what was sent where. */
  datatype Sent = Sent(to: Executor, statement: Statement)

  const AlreadyBegun := "transaction already begun!"
  const NothingToCommit := "no transaction to commit!"
  const NothingToRollback := "no transaction to rollback!"
  const BadChunkSize := "chunkSize must be a positive integer"

  /** JavaScript truthiness of the optional isolation level: absent and "" are false. */
  predicate Requested(level: Option<string>)
  {
    level.Some? && level.value != ""
  }

  /** Reads the isolation level back out of a begin statement. */
  function LevelOf(statement: string): Option<string>
  {
    if |statement| > 18 && statement[..18] == "start transaction " then Some(statement[18..]) else None
  }

  /** The statement that opens a transaction: `start transaction`, followed by a
      space and the level itself when a level is requested. */
  function BeginStatement(level: Option<string>): (s: string)
    ensures |s| >= 17 && s[..17] == "start transaction"
    ensures s == "start transaction" <==> !Requested(level)
    ensures LevelOf(s) == if Requested(level) then level else None
  {
    if Requested(level) then "start transaction " + level.value else "start transaction"
  }

  /** The statement carries the level's own text after one space and nothing
      else: the words `isolation level` are not part of it. */
  lemma BeginStatementOmitsIsolationLevel()
    ensures BeginStatement(Some("serializable")) == "start transaction serializable"
    ensures BeginStatement(Some("serializable")) != "start transaction isolation level serializable"
  {
  }

  /** `Number.isInteger(chunkSize) && chunkSize > 0`: a fraction, NaN or an
      infinity is refused, and so is every integer below one. */
  function ValidChunkSize(chunkSize: ChunkSize): (ok: bool)
    ensures chunkSize == NonInteger ==> !ok
    ensures chunkSize.Int? ==> (ok <==> chunkSize.n >= 1)
  {
    chunkSize.Int? && chunkSize.n > 0
  }

  /** The command verbs for which a row count is reported. */
  const RowCountCommands: set<string> := {"INSERT", "UPDATE", "DELETE"}

  /** The query engine's view of a settled result. */
  function Shape(raw: RawResult): (r: QueryResult)
    ensures r.rows == raw.rows
    ensures r.numAffectedRows == Some(raw.count) <==> raw.command in RowCountCommands
    ensures r.numAffectedRows == None <==> raw.command !in RowCountCommands
  {
    if raw.command in RowCountCommands then QueryResult(raw.rows, Some(raw.count))
    else QueryResult(raw.rows, None)
  }

  /** A MERGE reports no row count, whatever the client counted. */
  lemma MergeReportsNoCount(count: nat, rows: seq<Row>)
    ensures Shape(RawResult("MERGE", count, rows)).numAffectedRows == None
  {
  }

  /** The outcome of awaiting a statement whose value is not used. */
  function Completion(reply: Reply): (r: Outcome<Error>)
    ensures r.Pass? <==> reply.Done?
    ensures reply.Raised? ==> r == Fail(ClientError(reply.message))
  {
    match reply
    case Done(_) => Pass
    case Raised(m) => Fail(ClientError(m))
  }

  /** `out` holds one `{rows}` result per cursor chunk, in cursor order. */
  ghost predicate Forwards(out: seq<QueryResult>, cursor: seq<seq<Row>>)
  {
    |out| == |cursor| && forall i :: 0 <= i < |cursor| ==> out[i] == QueryResult(cursor[i], None)
  }

  /** The row batches of a sequence of results, one per result. */
  function Batches(results: seq<QueryResult>): (batches: seq<seq<Row>>)
    ensures |batches| == |results|
    ensures forall i :: 0 <= i < |results| ==> batches[i] == results[i].rows
  {
    seq(|results|, i requires 0 <= i < |results| => results[i].rows)
  }

  /** All rows of a sequence of results, in order. */
  function RowsOf(results: seq<QueryResult>): seq<Row>
  {
    Flatten(Batches(results))
  }

  /** The loop of `streamQuery`: yield `{rows}` for each chunk the cursor delivers. */
  method ForwardChunks(cursor: seq<seq<Row>>) returns (out: seq<QueryResult>)
    ensures Forwards(out, cursor)
  {
    out := [];
    for i := 0 to |cursor|
      invariant |out| == i
      invariant forall k :: 0 <= k < i ==> out[k] == QueryResult(cursor[k], None)
    {
      out := out + [QueryResult(cursor[i], None)];
    }
  }

  /** Flattening the forwarded results gives back exactly the cursor's rows. */
  lemma ForwardedRows(out: seq<QueryResult>, cursor: seq<seq<Row>>)
    requires Forwards(out, cursor)
    ensures Batches(out) == cursor
    ensures RowsOf(out) == Flatten(cursor)
  {
    assert Batches(out) == cursor;
  }

  /** Over a cursor that batches `rows` by `n`, the stream yields exactly `rows`:
      the chunk size decides the batching and never the content. */
  lemma ChunkSizeKeepsRows(rows: seq<Row>, n: nat, out: seq<QueryResult>)
    requires n > 0
    requires Forwards(out, Chunks(rows, n))
    ensures RowsOf(out) == rows
    ensures forall k :: 0 <= k < |out| ==> 0 < |out[k].rows| <= n
  {
    ForwardedRows(out, Chunks(rows, n));
    FlattenChunks(rows, n);
    forall k | 0 <= k < |out| ensures 0 < |out[k].rows| <= n {
      assert out[k].rows in Chunks(rows, n);
    }
  }

  /** Two streams of the same result set, one by `n` rows and one by `m`, yield the same rows. */
  lemma SameRowsForAnyChunkSize(rows: seq<Row>, n: nat, m: nat, byN: seq<QueryResult>, byM: seq<QueryResult>)
    requires n > 0 && m > 0
    requires Forwards(byN, Chunks(rows, n)) && Forwards(byM, Chunks(rows, m))
    ensures RowsOf(byN) == RowsOf(byM) == rows
  {
    ChunkSizeKeepsRows(rows, n, byN);
    ChunkSizeKeepsRows(rows, m, byM);
  }

  /** One reserved client connection. `transaction` is the executor of the open
      transaction, or null when none is open. `log` records every statement sent
      and to which executor; `ended` is every executor the adapter has ended. */
  class PostgresJSConnection {
    const config: Config
    const sql: Executor
    var transaction: Executor?
    ghost var log: seq<Sent>
    ghost var ended: set<Executor>

    /** The reserved connection is never ended here, and an open transaction
        runs on its own executor, which is still live. */
    ghost predicate Valid()
      reads this
    {
      sql !in ended &&
      (transaction != null ==> transaction != sql && transaction !in ended)
    }

    constructor (config: Config, sql: Executor)
      ensures Valid()
      ensures this.config == config && this.sql == sql
      ensures transaction == null && log == [] && ended == {}
    {
      this.config := config;
      this.sql := sql;
      transaction := null;
      log := [];
      ended := {};
    }

    /** Where a query goes: the open transaction's executor, else the reserved connection. */
    function ResolveExecutor(): (e: Executor)
      reads this
      ensures transaction != null ==> e == transaction
      ensures transaction == null ==> e == sql
      ensures Valid() ==> e !in ended
    {
      if transaction != null then transaction else sql
    }

    /** Sends `statement` to `to` and awaits it; `reply` is what the client answers. */
    method Unsafe(to: Executor, statement: Statement, reply: Reply) returns (r: Result<RawResult, Error>)
      modifies this`log
      ensures log == old(log) + [Sent(to, statement)]
      ensures reply.Done? ==> r == Success(reply.result)
      ensures reply.Raised? ==> r == Failure(ClientError(reply.message))
    {
      log := log + [Sent(to, statement)];
      match reply
      case Done(raw) => r := Success(raw);
      case Raised(m) => r := Failure(ClientError(m));
    }

    /** Refused while a transaction is open. Otherwise a fresh single-connection
        client is created; `created` is the error its creation throws, if any, in
        which case nothing is assigned and nothing is sent. Once created, the
        client becomes the transaction before the start statement is sent to it,
        so the transaction stays open even when that statement fails. */
    method BeginTransaction(settings: TransactionSettings, created: Option<string>, reply: Reply)
      returns (r: Outcome<Error>)
      requires Valid()
      modifies this
      ensures Valid()
      ensures old(transaction) != null ==>
        r == Fail(DialectError(AlreadyBegun)) &&
        transaction == old(transaction) && log == old(log) && ended == old(ended)
      ensures old(transaction) == null && created.Some? ==>
        r == Fail(ClientError(created.value)) &&
        transaction == null && log == old(log) && ended == old(ended)
      ensures old(transaction) == null && created.None? ==>
        transaction != null && fresh(transaction) &&
        transaction.options == SingleConnection(config.options) &&
        log == old(log) + [Sent(transaction, Plain(BeginStatement(settings.isolationLevel)))] &&
        ended == old(ended) &&
        r == Completion(reply)
    {
      if transaction != null {
        return Fail(DialectError(AlreadyBegun));
      }
      var level := settings.isolationLevel;
      if created.Some? {
        return Fail(ClientError(created.value));
      }
      var tx := new Executor(SingleConnection(config.options));
      transaction := tx;
      var statement := BeginStatement(level);
      var result := Unsafe(tx, Plain(statement), reply);
      r := if result.Success? then Pass else Fail(result.error);
    }

    /** Refused when no transaction is open. Otherwise `commit` goes to the
        transaction's executor; only when it succeeds is the transaction released. */
    method CommitTransaction(reply: Reply) returns (r: Outcome<Error>)
      requires Valid()
      modifies this
      ensures Valid()
      ensures old(transaction) == null ==>
        r == Fail(DialectError(NothingToCommit)) &&
        transaction == null && log == old(log) && ended == old(ended)
      ensures old(transaction) != null ==>
        log == old(log) + [Sent(old(transaction), Plain("commit"))] &&
        r == Completion(reply) &&
        (reply.Done? ==> transaction == null && ended == old(ended) + {old(transaction)}) &&
        (reply.Raised? ==> transaction == old(transaction) && ended == old(ended))
    {
      if transaction == null {
        return Fail(DialectError(NothingToCommit));
      }
      var result := Unsafe(transaction, Plain("commit"), reply);
      if result.Failure? {
        return Fail(result.error);
      }
      ReleaseTransaction();
      r := Pass;
    }

    /** Sends the compiled query, with a copy of its parameters, to the current
        executor and shapes what comes back. The transaction state is untouched. */
    method ExecuteQuery(query: CompiledQuery, reply: Reply) returns (r: Result<QueryResult, Error>)
      requires Valid()
      modifies this`log
      ensures Valid()
      ensures log == old(log) + [Sent(ResolveExecutor(), Statement(query.sql, query.parameters))]
      ensures reply.Done? ==> r == Success(Shape(reply.result))
      ensures reply.Raised? ==> r == Failure(ClientError(reply.message))
    {
      var parameters := query.parameters[..];
      var result := Unsafe(ResolveExecutor(), Statement(query.sql, parameters), reply);
      if result.Failure? {
        return Failure(result.error);
      }
      r := Success(Shape(result.value));
    }

    /** Refused when no transaction is open. Otherwise `rollback` goes to the
        transaction's executor; only when it succeeds is the transaction released. */
    method RollbackTransaction(reply: Reply) returns (r: Outcome<Error>)
      requires Valid()
      modifies this
      ensures Valid()
      ensures old(transaction) == null ==>
        r == Fail(DialectError(NothingToRollback)) &&
        transaction == null && log == old(log) && ended == old(ended)
      ensures old(transaction) != null ==>
        log == old(log) + [Sent(old(transaction), Plain("rollback"))] &&
        r == Completion(reply) &&
        (reply.Done? ==> transaction == null && ended == old(ended) + {old(transaction)}) &&
        (reply.Raised? ==> transaction == old(transaction) && ended == old(ended))
    {
      if transaction == null {
        return Fail(DialectError(NothingToRollback));
      }
      var result := Unsafe(transaction, Plain("rollback"), reply);
      if result.Failure? {
        return Fail(result.error);
      }
      ReleaseTransaction();
      r := Pass;
    }

    /** Rejects a bad chunk size before anything is sent. Otherwise opens a cursor
        over the query on the current executor and yields one `{rows}` per chunk;
        `cursor` is what the cursor delivers and `failure` what it raises after
        its last chunk, if anything. */
    method StreamQuery(query: CompiledQuery, chunkSize: ChunkSize, cursor: seq<seq<Row>>, failure: Option<string>)
      returns (yielded: seq<QueryResult>, r: Outcome<Error>)
      requires Valid()
      modifies this`log
      ensures Valid()
      ensures !ValidChunkSize(chunkSize) ==>
        r == Fail(DialectError(BadChunkSize)) && yielded == [] && log == old(log)
      ensures ValidChunkSize(chunkSize) ==>
        log == old(log) + [Sent(ResolveExecutor(), Statement(query.sql, query.parameters))] &&
        Forwards(yielded, cursor) &&
        r == (if failure.Some? then Fail(ClientError(failure.value)) else Pass)
    {
      if !ValidChunkSize(chunkSize) {
        return [], Fail(DialectError(BadChunkSize));
      }
      var parameters := query.parameters[..];
      log := log + [Sent(ResolveExecutor(), Statement(query.sql, parameters))];
      yielded := ForwardChunks(cursor);
      r := if failure.Some? then Fail(ClientError(failure.value)) else Pass;
    }

    /** Ends the transaction's executor, if there is one, and forgets it. */
    method ReleaseTransaction()
      requires Valid()
      modifies this`transaction, this`ended
      ensures Valid()
      ensures transaction == null
      ensures ended == if old(transaction) != null then old(ended) + {old(transaction)} else old(ended)
    {
      if transaction != null {
        ended := ended + {transaction};
        transaction := null;
      }
    }
  }
}
