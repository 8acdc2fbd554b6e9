/** DatabaseService: the process-wide slot holding the active adapter, the
    engine tag and the connection descriptor, the pass-through of queries and
    commands to that adapter, and the dialect tables for listing and describing
    tables. The source keeps the slot in static fields; here it is one object,
    created once and handed to every tool. */
module Services {
  import opened Wrappers
  import opened Rows
  import opened Text
  import opened Adapters

  /** The message of EnsureAdapterInitialized's exception. */
  const NotInitialized: string := "Database is not initialized. Call InitializeAsync first."

  /** The message of InitializeAsync's exception; it quotes the tag as given. */
  function UnsupportedDatabase(dbType: string): string {
    "Unsupported database type: " + dbType
  }

  /** The message of the Get...Query exceptions; it quotes the stored tag. */
  function NotSupported(dbType: string): string {
    "Database type not supported: " + dbType
  }

  /** The three engine tags the dialect tables know. */
  predicate IsKnownType(dbType: string) {
    dbType == "sqlite" || dbType == "sqlserver" || dbType == "postgresql"
  }

  /** The dialect statements are written keyword first, so that proofs can
      see the leading keyword without unfolding the whole literal. */
  const SqliteListTables: string :=
    "SELECT" + " name FROM sqlite_master WHERE type='table' AND name NOT LIKE 'sqlite_%'"
  const SqlServerListTables: string :=
    "SELECT" + " TABLE_NAME FROM INFORMATION_SCHEMA.TABLES WHERE TABLE_TYPE = 'BASE TABLE'"
  const PostgreSqlListTables: string :=
    "SELECT" + " tablename FROM pg_catalog.pg_tables WHERE schemaname != 'pg_catalog' AND schemaname != 'information_schema'"

  /** What follows SELECT in the SQL Server and PostgreSQL describe statements,
      up to the quoted name. */
  const SqlServerColumns: string :=
    " COLUMN_NAME, DATA_TYPE, CHARACTER_MAXIMUM_LENGTH, IS_NULLABLE FROM INFORMATION_SCHEMA.COLUMNS WHERE TABLE_NAME = '"
  const PostgreSqlColumns: string :=
    " column_name, data_type, character_maximum_length, is_nullable FROM information_schema.columns WHERE table_name = '"

  /** The switch of GetListTablesQuery, keyed by the stored tag. */
  function ListTablesSql(dbType: string): Result<string> {
    match dbType
    case "sqlite" => Success(SqliteListTables)
    case "sqlserver" => Success(SqlServerListTables)
    case "postgresql" => Success(PostgreSqlListTables)
    case _ => Failure(NotSupported(dbType))
  }

  /** The switch of GetDescribeTableQuery: the name is interpolated as given. */
  function DescribeTableSql(dbType: string, tableName: string): Result<string> {
    match dbType
    case "sqlite" => Success("PRAGMA table_info(" + tableName + ")")
    case "sqlserver" =>
      Success("SELECT" + SqlServerColumns
        + tableName + "'")
    case "postgresql" =>
      Success("SELECT" + PostgreSqlColumns
        + tableName + "'")
    case _ => Failure(NotSupported(dbType))
  }

  /** The display-name switch of GetDatabaseMetadata. */
  function DisplayName(dbType: string): string {
    match dbType
    case "sqlite" => "SQLite"
    case "sqlserver" => "SQL Server"
    case "postgresql" => "PostgreSQL"
    case _ => "Unknown"
  }

  /** The fixed text around the table name in each dialect's describe statement. */
  function DescribeFrame(dbType: string): (string, string) {
    match dbType
    case "sqlite" => ("PRAGMA table_info(", ")")
    case "sqlserver" =>
      ("SELECT" + SqlServerColumns, "'")
    case _ =>
      ("SELECT" + PostgreSqlColumns, "'")
  }

  /** Recovers the text between a fixed prefix and a fixed suffix. */
  function Unframed(prefix: string, suffix: string, sql: string): Option<string> {
    if |prefix| + |suffix| <= |sql| && sql[..|prefix|] == prefix && sql[|sql| - |suffix|..] == suffix
    then Some(sql[|prefix|..|sql| - |suffix|])
    else None
  }

  /** Recovers the table name from a describe statement of a known dialect. */
  function TableNameOf(dbType: string, sql: string): Option<string> {
    Unframed(DescribeFrame(dbType).0, DescribeFrame(dbType).1, sql)
  }

  // ---------------------------------------------------------------- lemmas

  /** The three tables cover the same tags: a tag has a display name exactly
      when it has a list statement, exactly when it has a describe statement,
      exactly when it is one of the three known tags; any other tag fails both
      statements with the same message. */
  lemma DialectTablesAgree(dbType: string, tableName: string)
    ensures ListTablesSql(dbType).Success? <==> IsKnownType(dbType)
    ensures DescribeTableSql(dbType, tableName).Success? <==> IsKnownType(dbType)
    ensures DisplayName(dbType) != "Unknown" <==> IsKnownType(dbType)
    ensures !IsKnownType(dbType) ==>
      ListTablesSql(dbType) == DescribeTableSql(dbType, tableName) == Failure(NotSupported(dbType))
  {
    ListTablesKnown(dbType);
    DescribeTableKnown(dbType, tableName);
    DisplayNameKnown(dbType);
    UnknownTagFails(dbType, tableName);
  }

  lemma ListTablesKnown(dbType: string)
    ensures ListTablesSql(dbType).Success? <==> IsKnownType(dbType)
  {
    if dbType == "sqlite" {
    } else if dbType == "sqlserver" {
    } else if dbType == "postgresql" {
    }
  }

  lemma DescribeTableKnown(dbType: string, tableName: string)
    ensures DescribeTableSql(dbType, tableName).Success? <==> IsKnownType(dbType)
  {
    if dbType == "sqlite" {
    } else if dbType == "sqlserver" {
    } else if dbType == "postgresql" {
    }
  }

  lemma DisplayNameKnown(dbType: string)
    ensures DisplayName(dbType) != "Unknown" <==> IsKnownType(dbType)
  {
    if dbType == "sqlite" {
      assert DisplayName(dbType) == "SQLite";
    } else if dbType == "sqlserver" {
      assert DisplayName(dbType) == "SQL Server";
    } else if dbType == "postgresql" {
      assert DisplayName(dbType) == "PostgreSQL";
    }
  }

  lemma UnknownTagFails(dbType: string, tableName: string)
    ensures !IsKnownType(dbType) ==>
      ListTablesSql(dbType) == DescribeTableSql(dbType, tableName) == Failure(NotSupported(dbType))
  {
  }

  /** The describe statement is the dialect's fixed prefix, the name verbatim,
      and the fixed suffix, and the name can be read back out of it. */
  lemma DescribeTableRoundTrip(dbType: string, tableName: string)
    requires IsKnownType(dbType)
    ensures DescribeTableSql(dbType, tableName) == Success(DescribeFrame(dbType).0 + tableName + DescribeFrame(dbType).1)
    ensures TableNameOf(dbType, DescribeTableSql(dbType, tableName).value) == Some(tableName)
  {
    if dbType == "sqlite" {
      SqliteFramed(tableName);
    } else if dbType == "sqlserver" {
      SqlServerFramed(tableName);
    } else {
      PostgreSqlFramed(tableName);
    }
    UnframeFramed(DescribeFrame(dbType).0, tableName, DescribeFrame(dbType).1);
  }

  lemma SqliteFramed(tableName: string)
    ensures DescribeTableSql("sqlite", tableName)
      == Success(DescribeFrame("sqlite").0 + tableName + DescribeFrame("sqlite").1)
  {
  }

  lemma SqlServerFramed(tableName: string)
    ensures DescribeTableSql("sqlserver", tableName)
      == Success(DescribeFrame("sqlserver").0 + tableName + DescribeFrame("sqlserver").1)
  {
  }

  lemma PostgreSqlFramed(tableName: string)
    ensures DescribeTableSql("postgresql", tableName)
      == Success(DescribeFrame("postgresql").0 + tableName + DescribeFrame("postgresql").1)
  {
  }

  lemma UnframeFramed(prefix: string, name: string, suffix: string)
    ensures Unframed(prefix, suffix, prefix + name + suffix) == Some(name)
  {
    var sql := prefix + name + suffix;
    assert sql[..|prefix|] == prefix;
    assert sql[|sql| - |suffix|..] == suffix;
    assert sql[|prefix|..|sql| - |suffix|] == name;
  }

  /** Different names give different describe statements. */
  lemma DescribeTableInjective(dbType: string, a: string, b: string)
    requires IsKnownType(dbType)
    requires DescribeTableSql(dbType, a) == DescribeTableSql(dbType, b)
    ensures a == b
  {
    DescribeTableRoundTrip(dbType, a);
    DescribeTableRoundTrip(dbType, b);
  }

  // ---------------------------------------------------------------- the service

  class DatabaseService {
    /** `_adapter`: null until the first successful construction. */
    var adapter: Adapter?
    /** `_dbType`: the lower-cased tag of the last InitializeAsync call. */
    var dbType: string
    /** `_connectionInfo`: the descriptor of the last InitializeAsync call. */
    var connectionInfo: string
    /** Every QueryAsync and ExecuteAsync call, in order, whether or not it succeeded. */
    ghost var calls: seq<Call>

    /** The static fields' initial values. */
    constructor ()
      ensures adapter == null && dbType == "" && connectionInfo == "" && calls == []
    {
      adapter := null;
      dbType := "";
      connectionInfo := "";
      calls := [];
    }

    /** InitializeAsync: stores the lower-cased tag and the descriptor first;
        then, for "sqlite" only, stores a new adapter and opens it; any other tag
        fails and leaves the previous adapter in place. The previous adapter is
        never closed. */
    method InitializeAsync(connectionInfo: string, engine: Engine, dbType: string := "sqlite") returns (r: Outcome)
      modifies this
      ensures this.dbType == Lower(dbType) && this.connectionInfo == connectionInfo && calls == old(calls)
      ensures Lower(dbType) != "sqlite" ==> adapter == old(adapter) && r == Fail(UnsupportedDatabase(dbType))
      ensures Lower(dbType) == "sqlite" ==>
        && adapter != null && fresh(adapter)
        && adapter.path == connectionInfo && adapter.engine == engine
        && adapter.connection == (if engine.open(connectionInfo, []).Pass? then Open else Closed)
        && adapter.history == InitializedHistory(engine, connectionInfo, [])
        && r == InitializeOutcome(engine, connectionInfo, [])
      ensures old(adapter) != null ==>
        old(adapter).connection == old(adapter.connection) && old(adapter).history == old(adapter.history)
    {
      this.dbType := Lower(dbType);
      this.connectionInfo := connectionInfo;
      if this.dbType != "sqlite" {
        return Fail(UnsupportedDatabase(dbType));
      }
      var created := new Adapter(connectionInfo, engine);
      adapter := created;
      r := created.Initialize();
    }

    /** CloseAsync: closes and forgets the adapter, if there is one; the tag and
        the descriptor stay. */
    method CloseAsync()
      modifies this, adapter
      ensures adapter == null
      ensures dbType == old(dbType) && connectionInfo == old(connectionInfo) && calls == old(calls)
      ensures old(adapter) != null ==>
        && old(adapter).connection == NoConnection
        && old(adapter).history == (if old(adapter.connection) == NoConnection then old(adapter.history)
                                    else old(adapter.history) + [CloseCall])
    {
      if adapter != null {
        adapter.Close();
        adapter := null;
      }
    }

    /** EnsureAdapterInitialized: fails exactly when there is no adapter. */
    function EnsureAdapterInitialized(): (r: Outcome)
      reads this
      ensures r.Fail? <==> adapter == null
      ensures r.Fail? ==> r.error == NotInitialized
    {
      if adapter == null then Fail(NotInitialized) else Pass
    }

    /** What QueryAsync would return now. */
    ghost function QueryAnswer(s: Statement): Result<ResultSet>
      reads this, adapter
    {
      if adapter == null then Failure(NotInitialized) else adapter.QueryAnswer(s)
    }

    /** What ExecuteAsync would return now. */
    ghost function ExecuteAnswer(s: Statement): Result<int>
      reads this, adapter
    {
      if adapter == null then Failure(NotInitialized) else adapter.ExecuteAnswer(s)
    }

    /** QueryAsync: hands the statement, unchanged, to the active adapter and
        returns its answer unchanged; fails without touching any adapter when
        there is none. */
    method QueryAsync(query: string, parameters: Parameters := None) returns (r: Result<ResultSet>)
      modifies this`calls, adapter
      ensures calls == old(calls) + [QueryCall(Statement(query, parameters))]
      ensures r == old(QueryAnswer(Statement(query, parameters)))
      ensures adapter != null ==>
        && adapter.connection == old(adapter.connection)
        && adapter.history == old(adapter.After(QueryCall(Statement(query, parameters))))
      ensures old(adapter) == null ==> r == Failure(NotInitialized)
    {
      calls := calls + [QueryCall(Statement(query, parameters))];
      var ready := EnsureAdapterInitialized();
      if ready.Fail? {
        return Failure(ready.error);
      }
      r := adapter.Query(query, parameters);
    }

    /** ExecuteAsync: the same pass-through for commands, returning the
        adapter's affected-row count unchanged. */
    method ExecuteAsync(command: string, parameters: Parameters := None) returns (r: Result<int>)
      modifies this`calls, adapter
      ensures calls == old(calls) + [ExecuteCall(Statement(command, parameters))]
      ensures r == old(ExecuteAnswer(Statement(command, parameters)))
      ensures adapter != null ==>
        && adapter.connection == old(adapter.connection)
        && adapter.history == old(adapter.After(ExecuteCall(Statement(command, parameters))))
      ensures old(adapter) == null ==> r == Failure(NotInitialized)
    {
      calls := calls + [ExecuteCall(Statement(command, parameters))];
      var ready := EnsureAdapterInitialized();
      if ready.Fail? {
        return Failure(ready.error);
      }
      r := adapter.Execute(command, parameters);
    }

    /** GetDatabaseMetadata: never fails; a fixed "none" record without an
        adapter, else the stored tag, its display name and the descriptor. */
    function GetDatabaseMetadata(): (m: map<string, string>)
      reads this
      ensures adapter == null ==> m == map["type" := "none", "name" := "No database initialized"]
      ensures adapter != null ==>
        && m.Keys == {"type", "name", "connectionInfo"}
        && m["type"] == dbType && m["name"] == DisplayName(dbType) && m["connectionInfo"] == connectionInfo
    {
      if adapter == null then map["type" := "none", "name" := "No database initialized"]
      else map["type" := dbType, "name" := DisplayName(dbType), "connectionInfo" := connectionInfo]
    }

    /** GetListTablesQuery: the not-initialized check, then the stored tag's statement. */
    function GetListTablesQuery(): (r: Result<string>)
      reads this
      ensures adapter == null ==> r == Failure(NotInitialized)
      ensures adapter != null ==> r == ListTablesSql(dbType)
    {
      match EnsureAdapterInitialized()
      case Fail(e) => Failure(e)
      case Pass => ListTablesSql(dbType)
    }

    /** GetDescribeTableQuery: the not-initialized check, then the stored tag's
        statement for `tableName`. */
    function GetDescribeTableQuery(tableName: string): (r: Result<string>)
      reads this
      ensures adapter == null ==> r == Failure(NotInitialized)
      ensures adapter != null ==> r == DescribeTableSql(dbType, tableName)
    {
      match EnsureAdapterInitialized()
      case Fail(e) => Failure(e)
      case Pass => DescribeTableSql(dbType, tableName)
    }
  }
}
