/** The database adapter behind the service (IDbAdapter, implemented by
    SqliteAdapter). Everything the SQLite library does is an `Engine`: a set of
    function values that answer each call from the adapter's file path and the
    calls the library has seen so far, which stand for the database's state.
    Every property of this model holds for every engine. */
module Adapters {
  import opened Wrappers
  import opened Rows

  /** A command text with its optional parameter dictionary. */
  datatype Statement = Statement(sql: string, parameters: Parameters)

  /** What reaches the library, in order. */
  datatype Call = OpenCall | QueryCall(statement: Statement) | ExecuteCall(statement: Statement) | CloseCall

  /** The library: whether opening succeeds, and what a query or a command returns. */
  datatype Engine = Engine(
    open: (string, seq<Call>) -> Outcome,
    query: (string, seq<Call>, Statement) -> Result<ResultSet>,
    execute: (string, seq<Call>, Statement) -> Result<int>)

  /** The adapter's `_connection`: none, created but not open, or open. */
  datatype Connection = NoConnection | Closed | Open

  /** The message of EnsureConnectionOpen's exception. */
  const NotOpen: string := "Database connection is not open. Call InitializeAsync first."

  /** The bookkeeping table every database acquires when it is opened. */
  const InsightsTable: string :=
    "\n                CREATE TABLE IF NOT EXISTS mcp_insights (\n"
    + "                    id INTEGER PRIMARY KEY AUTOINCREMENT,\n"
    + "                    insight TEXT NOT NULL,\n"
    + "                    created_at TIMESTAMP DEFAULT CURRENT_TIMESTAMP\n"
    + "                )\n            "

  /** The outcome of opening an adapter whose library has seen `history`:
      the open's failure, else the bookkeeping command's failure, else success. */
  function InitializeOutcome(engine: Engine, path: string, history: seq<Call>): Outcome {
    match engine.open(path, history)
    case Fail(e) => Fail(e)
    case Pass =>
      match engine.execute(path, history + [OpenCall], Statement(InsightsTable, None))
      case Failure(e) => Fail(e)
      case Success(_) => Pass
  }

  /** What the library has seen after an open: the open, then, if it
      succeeded, the bookkeeping command. */
  function InitializedHistory(engine: Engine, path: string, history: seq<Call>): seq<Call> {
    if engine.open(path, history).Fail? then history + [OpenCall]
    else history + [OpenCall, ExecuteCall(Statement(InsightsTable, None))]
  }

  class Adapter {
    const path: string
    const engine: Engine
    var connection: Connection
    var history: seq<Call>

    /** new SqliteAdapter(dbPath): remembers the path, opens nothing. */
    constructor (path: string, engine: Engine)
      ensures this.path == path && this.engine == engine
      ensures connection == NoConnection && history == []
    {
      this.path := path;
      this.engine := engine;
      connection := NoConnection;
      history := [];
    }

    /** The adapter's DatabaseType property. */
    function DatabaseType(): (t: string)
      ensures t == "sqlite"
    {
      "sqlite"
    }

    /** What a query would return now: the connection check first, then the library. */
    function QueryAnswer(s: Statement): Result<ResultSet>
      reads this
    {
      if connection != Open then Failure(NotOpen) else engine.query(path, history, s)
    }

    /** What a command would return now. */
    function ExecuteAnswer(s: Statement): Result<int>
      reads this
    {
      if connection != Open then Failure(NotOpen) else engine.execute(path, history, s)
    }

    /** The library's history after `c`: only an open connection lets a call through. */
    function After(c: Call): seq<Call>
      reads this
    {
      if connection == Open then history + [c] else history
    }

    /** InitializeAsync: creates the connection, opens it and creates the
        bookkeeping table. A failed open leaves a connection that is not open;
        a failed bookkeeping command leaves it open. */
    method Initialize() returns (r: Outcome)
      modifies this
      ensures r == InitializeOutcome(engine, path, old(history))
      ensures connection == (if engine.open(path, old(history)).Pass? then Open else Closed)
      ensures history == InitializedHistory(engine, path, old(history))
    {
      connection := Closed;
      var connected := engine.open(path, history);
      history := history + [OpenCall];
      if connected.Fail? {
        return connected;
      }
      connection := Open;
      var created := Execute(InsightsTable, None);
      r := if created.Failure? then Fail(created.error) else Pass;
    }

    /** CloseAsync: closes and drops an existing connection; nothing otherwise. */
    method Close()
      modifies this
      ensures connection == NoConnection
      ensures history == if old(connection) == NoConnection then old(history) else old(history) + [CloseCall]
    {
      if connection != NoConnection {
        history := history + [CloseCall];
        connection := NoConnection;
      }
    }

    /** QueryAsync: the library's rows for exactly this statement, once the
        connection is known to be open. */
    method Query(sql: string, parameters: Parameters) returns (r: Result<ResultSet>)
      modifies this`history
      ensures r == old(QueryAnswer(Statement(sql, parameters)))
      ensures history == old(After(QueryCall(Statement(sql, parameters))))
      ensures old(connection) != Open ==> r == Failure(NotOpen)
    {
      var s := Statement(sql, parameters);
      if connection != Open {
        return Failure(NotOpen);
      }
      r := engine.query(path, history, s);
      history := history + [QueryCall(s)];
    }

    /** ExecuteAsync: the library's affected-row count for exactly this
        statement, once the connection is known to be open. */
    method Execute(sql: string, parameters: Parameters) returns (r: Result<int>)
      modifies this`history
      ensures r == old(ExecuteAnswer(Statement(sql, parameters)))
      ensures history == old(After(ExecuteCall(Statement(sql, parameters))))
      ensures old(connection) != Open ==> r == Failure(NotOpen)
    {
      var s := Statement(sql, parameters);
      if connection != Open {
        return Failure(NotOpen);
      }
      r := engine.execute(path, history, s);
      history := history + [ExecuteCall(s)];
    }
  }
}
