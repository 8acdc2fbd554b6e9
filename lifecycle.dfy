/** Lifecycle: what the service's shared state makes of whole sequences of
    calls. Each scenario starts from the service's initial state and reports
    what a client would observe. */
module Lifecycle {
  import opened Wrappers
  import opened Text
  import opened Rows
  import opened Adapters
  import opened Services
  import opened QueryTools
  import opened SchemaTools

  /** Before any InitializeAsync every query fails with the not-initialized
      message, and so does the list statement. */
  method QueryBeforeInitialize(sql: string) returns (r: Result<ResultSet>, list: Result<string>)
    ensures r == Failure(NotInitialized)
    ensures list == Failure(NotInitialized)
  {
    var db := new DatabaseService();
    r := db.QueryAsync(sql);
    list := db.GetListTablesQuery();
  }

  /** After CloseAsync the service is back to "not initialized" whatever the
      open did, and its metadata is the fixed "none" record. */
  method QueryAfterClose(path: string, engine: Engine, sql: string)
    returns (r: Result<ResultSet>, metadata: map<string, string>)
    ensures r == Failure(NotInitialized)
    ensures metadata == map["type" := "none", "name" := "No database initialized"]
  {
    var db := new DatabaseService();
    var _ := db.InitializeAsync(path, engine);
    db.CloseAsync();
    r := db.QueryAsync(sql);
    metadata := db.GetDatabaseMetadata();
  }

  /** A failed open still installs the adapter: the service no longer reports
      "not initialized" but every statement fails with the adapter's
      connection-not-open message, and the metadata describes the database. */
  method QueryAfterFailedOpen(path: string, engine: Engine, sql: string)
    returns (init: Outcome, r: Result<ResultSet>, metadata: map<string, string>)
    requires engine.open(path, []).Fail?
    ensures init == engine.open(path, [])
    ensures r == Failure(NotOpen)
    ensures metadata == map["type" := "sqlite", "name" := "SQLite", "connectionInfo" := path]
  {
    var db := new DatabaseService();
    init := db.InitializeAsync(path, engine);
    r := db.QueryAsync(sql);
    metadata := db.GetDatabaseMetadata();
  }

  /** After a successful open the first query reaches the library, which has
      seen exactly the open and the bookkeeping command; this holds even when
      the bookkeeping command failed and InitializeAsync reported it. */
  method FirstQuerySeesBookkeeping(path: string, engine: Engine, sql: string)
    returns (init: Outcome, r: Result<ResultSet>)
    requires engine.open(path, []).Pass?
    ensures init.Fail? <==> engine.execute(path, [OpenCall], Statement(InsightsTable, None)).Failure?
    ensures r == engine.query(path, [OpenCall, ExecuteCall(Statement(InsightsTable, None))], Statement(sql, None))
  {
    var db := new DatabaseService();
    init := db.InitializeAsync(path, engine);
    assert [] + [OpenCall] == [OpenCall];
    assert InitializedHistory(engine, path, []) == [OpenCall, ExecuteCall(Statement(InsightsTable, None))];
    r := db.QueryAsync(sql);
  }

  /** A second InitializeAsync with "sqlite" replaces the adapter: queries go to
      the new path only, and the first adapter is left open, never closed. */
  method ReinitializeSwitchesDatabase(first: string, firstEngine: Engine, second: string, secondEngine: Engine, sql: string)
    returns (r: Result<ResultSet>, firstStillOpen: bool)
    ensures firstStillOpen == firstEngine.open(first, []).Pass?
    ensures r == if secondEngine.open(second, []).Fail? then Failure(NotOpen)
                 else secondEngine.query(second, InitializedHistory(secondEngine, second, []), Statement(sql, None))
  {
    var db := new DatabaseService();
    var _ := db.InitializeAsync(first, firstEngine);
    var previous := db.adapter;
    var _ := db.InitializeAsync(second, secondEngine);
    r := db.QueryAsync(sql);
    firstStillOpen := previous.connection == Open;
  }

  /** Tool calls never open or close the connection: after a read and a
      write, the adapter is open exactly when the first open succeeded. */
  method ToolsKeepConnection(path: string, engine: Engine, read: string, write: string)
    returns (stillOpen: bool)
    ensures stillOpen == engine.open(path, []).Pass?
  {
    var db := new DatabaseService();
    var _ := db.InitializeAsync(path, engine);
    var adapter := db.adapter;
    var wasOpen := adapter.connection == Open;
    var _ := ReadQuery(db, read);
    assert adapter.connection == Open <==> wasOpen;
    var _ := WriteQuery(db, write);
    stillOpen := adapter.connection == Open;
  }

  /** The tag "MySQL": lower-cased, unknown to every dialect table. */
  lemma MySqlTag()
    ensures Lower("MySQL") == "mysql"
    ensures DisplayName("mysql") == "Unknown"
    ensures ListTablesSql("mysql") == Failure("Database type not supported: mysql")
    ensures UnsupportedDatabase("MySQL") == "Unsupported database type: MySQL"
  {
    var l := Lower("MySQL");
    assert l[0] == 'm' && l[1] == 'y' && l[2] == 's' && l[3] == 'q' && l[4] == 'l';
  }

  /** An unsupported tag after a successful start fails, yet it has already
      overwritten the stored tag and descriptor: the metadata reports the new
      tag as "Unknown" with the new descriptor, the dialect statements fail,
      and plain queries still reach the first database. */
  method FailedReinitialize(path: string, engine: Engine, other: string, sql: string)
    returns (init: Outcome, metadata: map<string, string>, list: Result<string>, r: Result<ResultSet>)
    ensures init == Fail("Unsupported database type: MySQL")
    ensures metadata == map["type" := "mysql", "name" := "Unknown", "connectionInfo" := other]
    ensures list == Failure("Database type not supported: mysql")
    ensures r == if engine.open(path, []).Fail? then Failure(NotOpen)
                 else engine.query(path, InitializedHistory(engine, path, []), Statement(sql, None))
  {
    var db := new DatabaseService();
    var _ := db.InitializeAsync(path, engine);
    MySqlTag();
    init := db.InitializeAsync(other, engine, "MySQL");
    metadata := db.GetDatabaseMetadata();
    list := db.GetListTablesQuery();
    r := db.QueryAsync(sql);
  }
}
