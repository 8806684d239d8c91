/** The boundary of the postgres client library, as the connection adapter sees it.
    Nothing here is the library itself: an executor is an opaque object with an
    identity, what it answers to a statement is given from outside, and a cursor
    is the sequence of row chunks it delivers. */
module PostgresClient {
  import opened Wrappers

  /** A bound parameter or a column value. The adapter never looks inside one. */
  datatype Value = Null | Bool(b: bool) | Number(i: int) | Text(s: string)

  /** One returned row: column name to value. */
  type Row = map<string, Value>

  /** What is sent to an executor: SQL text and positional parameters. */
  datatype Statement = Statement(sql: string, parameters: seq<Value>)

  /** A statement sent with no parameters (the tagged-template and plain `unsafe(text)` forms). */
  function Plain(sql: string): (s: Statement)
    ensures s.sql == sql && s.parameters == []
  {
    Statement(sql, [])
  }

  /** The settled value of a pending result: the command verb, the row count and the rows. */
  datatype RawResult = RawResult(command: string, count: nat, rows: seq<Row>)

  /** What awaiting a statement produces: its result, or the error the client raised. */
  datatype Reply = Done(result: RawResult) | Raised(message: string)

  /** Client options; `max` is the pool size, everything else is carried along untouched. */
  datatype Options = Options(max: Option<nat>, settings: map<string, Value>)

  /** `{...options, max: 1}`: the same options with a pool of one connection. */
  function SingleConnection(options: Options): (r: Options)
    ensures r.max == Some(1) && r.settings == options.settings
  {
    options.(max := Some(1))
  }

  /** A client instance (a `Sql` object): a reserved connection, or a client
      created from options. Only its identity and its options matter here. */
  class Executor {
    const options: Options

    constructor (options: Options)
      ensures this.options == options
    {
      this.options := options;
    }
  }

  /** All rows of a chunk sequence, in order. */
  function Flatten(chunks: seq<seq<Row>>): (rows: seq<Row>)
  {
    if chunks == [] then [] else chunks[0] + Flatten(chunks[1..])
  }

  /** The batching a cursor opened with `cursor(n)` performs on a result set:
      consecutive chunks of `n` rows, the last one possibly shorter. */
  function Chunks(rows: seq<Row>, n: nat): (chunks: seq<seq<Row>>)
    requires n > 0
    ensures chunks == [] <==> rows == []
    ensures forall c :: c in chunks ==> 0 < |c| <= n
    ensures forall i :: 0 <= i < |chunks| - 1 ==> |chunks[i]| == n
    decreases |rows|
  {
    if |rows| <= n then (if rows == [] then [] else [rows])
    else [rows[..n]] + Chunks(rows[n..], n)
  }

  /** Chunking loses, adds and reorders nothing. */
  lemma {:induction false} FlattenChunks(rows: seq<Row>, n: nat)
    requires n > 0
    ensures Flatten(Chunks(rows, n)) == rows
    decreases |rows|
  {
    if |rows| > n {
      var rest := Chunks(rows[n..], n);
      var all := [rows[..n]] + rest;
      assert Chunks(rows, n) == all;
      assert all[0] == rows[..n] && all[1..] == rest;
      FlattenChunks(rows[n..], n);
      assert rows == rows[..n] + rows[n..];
    } else if rows != [] {
      assert Chunks(rows, n) == [rows];
      assert [rows][1..] == [];
    }
  }
}
