/** SchemaTools: create_table, alter_table, drop_table, list_tables and
    describe_table. The first three gate on a two-word prefix and execute the
    statement as given; list_tables asks the service for its dialect statement;
    describe_table refuses a blank name and asks the service for the describe
    statement of that name. Every failure is re-raised with "SQL Error: ". */
module SchemaTools {
  import opened Wrappers
  import opened Text
  import opened Rows
  import opened Adapters
  import opened Services
  import opened FormatUtils
  import opened QueryTools

  /** The create_table gate ("create table" with exactly one space). */
  predicate IsCreateTable(query: string) {
    StartsWith(Normalize(query), "create table")
  }

  /** The alter_table gate. */
  predicate IsAlterTable(query: string) {
    StartsWith(Normalize(query), "alter table")
  }

  /** The drop_table gate. */
  predicate IsDropTable(query: string) {
    StartsWith(Normalize(query), "drop table")
  }

  const CreateOnlyMessage: string := "Only CREATE TABLE statements are allowed"
  const AlterOnlyMessage: string := "Only ALTER TABLE statements are allowed"
  const DropOnlyMessage: string := "Only DROP TABLE statements are allowed"
  const TableNameRequired: string := "Table name is required"

  const CreatedMessage: string := "Table created successfully"
  const AlteredMessage: string := "Table altered successfully"
  const DroppedMessage: string := "Table dropped successfully"

  /** A schema change's fixed status in a success envelope (the affected-row
      count is dropped), or the command's error re-raised. */
  function StatusResponse(answer: Result<int>, message: string): Result<Envelope> {
    match answer
    case Success(_) => Success(FormatSuccessResponse(Status(true, message)))
    case Failure(e) => Failure(SqlError(e))
  }

  /** The protocol the three schema-change tools share: reject before any call,
      else one ExecuteAsync of the statement as given. */
  method GatedExecute(db: DatabaseService, query: string, accepted: bool, rejection: string, message: string)
    returns (r: Result<Envelope>)
    modifies db`calls, db.adapter
    ensures db.adapter != null ==> db.adapter.connection == old(db.adapter.connection)
    ensures !accepted ==>
      && r == Failure(SqlError(rejection))
      && db.calls == old(db.calls)
      && (db.adapter != null ==> unchanged(db.adapter))
    ensures accepted ==>
      && db.calls == old(db.calls) + [ExecuteCall(Statement(query, None))]
      && r == StatusResponse(old(db.ExecuteAnswer(Statement(query, None))), message)
      && (db.adapter != null ==> db.adapter.history == old(db.adapter.After(ExecuteCall(Statement(query, None)))))
  {
    if !accepted {
      return Failure(SqlError(rejection));
    }
    var affectedRows := db.ExecuteAsync(query);
    r := StatusResponse(affectedRows, message);
  }

  /** create_table. */
  method CreateTable(db: DatabaseService, query: string) returns (r: Result<Envelope>)
    modifies db`calls, db.adapter
    ensures db.adapter != null ==> db.adapter.connection == old(db.adapter.connection)
    ensures !IsCreateTable(query) ==>
      && r == Failure(SqlError(CreateOnlyMessage))
      && db.calls == old(db.calls)
      && (db.adapter != null ==> unchanged(db.adapter))
    ensures IsCreateTable(query) ==>
      && db.calls == old(db.calls) + [ExecuteCall(Statement(query, None))]
      && r == StatusResponse(old(db.ExecuteAnswer(Statement(query, None))), CreatedMessage)
      && (db.adapter != null ==> db.adapter.history == old(db.adapter.After(ExecuteCall(Statement(query, None)))))
  {
    r := GatedExecute(db, query, IsCreateTable(query), CreateOnlyMessage, CreatedMessage);
  }

  /** alter_table. */
  method AlterTable(db: DatabaseService, query: string) returns (r: Result<Envelope>)
    modifies db`calls, db.adapter
    ensures db.adapter != null ==> db.adapter.connection == old(db.adapter.connection)
    ensures !IsAlterTable(query) ==>
      && r == Failure(SqlError(AlterOnlyMessage))
      && db.calls == old(db.calls)
      && (db.adapter != null ==> unchanged(db.adapter))
    ensures IsAlterTable(query) ==>
      && db.calls == old(db.calls) + [ExecuteCall(Statement(query, None))]
      && r == StatusResponse(old(db.ExecuteAnswer(Statement(query, None))), AlteredMessage)
      && (db.adapter != null ==> db.adapter.history == old(db.adapter.After(ExecuteCall(Statement(query, None)))))
  {
    r := GatedExecute(db, query, IsAlterTable(query), AlterOnlyMessage, AlteredMessage);
  }

  /** drop_table. */
  method DropTable(db: DatabaseService, query: string) returns (r: Result<Envelope>)
    modifies db`calls, db.adapter
    ensures db.adapter != null ==> db.adapter.connection == old(db.adapter.connection)
    ensures !IsDropTable(query) ==>
      && r == Failure(SqlError(DropOnlyMessage))
      && db.calls == old(db.calls)
      && (db.adapter != null ==> unchanged(db.adapter))
    ensures IsDropTable(query) ==>
      && db.calls == old(db.calls) + [ExecuteCall(Statement(query, None))]
      && r == StatusResponse(old(db.ExecuteAnswer(Statement(query, None))), DroppedMessage)
      && (db.adapter != null ==> db.adapter.history == old(db.adapter.After(ExecuteCall(Statement(query, None)))))
  {
    r := GatedExecute(db, query, IsDropTable(query), DropOnlyMessage, DroppedMessage);
  }

  /** list_tables: no input to check; the service's statement for the stored
      tag is queried, and a not-initialized or unsupported-tag error surfaces
      before any query is made. */
  method ListTables(db: DatabaseService) returns (r: Result<Envelope>)
    modifies db`calls, db.adapter
    ensures db.adapter != null ==> db.adapter.connection == old(db.adapter.connection)
    ensures var q := old(db.GetListTablesQuery());
      && (q.Failure? ==>
            && r == Failure(SqlError(q.error))
            && db.calls == old(db.calls)
            && (db.adapter != null ==> unchanged(db.adapter)))
      && (q.Success? ==>
            && db.calls == old(db.calls) + [QueryCall(Statement(q.value, None))]
            && r == RowsResponse(old(db.QueryAnswer(Statement(q.value, None))))
            && (db.adapter != null ==> db.adapter.history == old(db.adapter.After(QueryCall(Statement(q.value, None))))))
  {
    var query := db.GetListTablesQuery();
    if query.Failure? {
      return Failure(SqlError(query.error));
    }
    var results := db.QueryAsync(query.value);
    r := RowsResponse(results);
  }

  /** describe_table: a blank name fails before the service is consulted;
      otherwise the service's describe statement for exactly that name is
      queried. */
  method DescribeTable(db: DatabaseService, tableName: string) returns (r: Result<Envelope>)
    modifies db`calls, db.adapter
    ensures db.adapter != null ==> db.adapter.connection == old(db.adapter.connection)
    ensures IsNullOrWhiteSpace(tableName) ==>
      && r == Failure(SqlError(TableNameRequired))
      && db.calls == old(db.calls)
      && (db.adapter != null ==> unchanged(db.adapter))
    ensures !IsNullOrWhiteSpace(tableName) ==>
      var q := old(db.GetDescribeTableQuery(tableName));
      && (q.Failure? ==>
            && r == Failure(SqlError(q.error))
            && db.calls == old(db.calls)
            && (db.adapter != null ==> unchanged(db.adapter)))
      && (q.Success? ==>
            && db.calls == old(db.calls) + [QueryCall(Statement(q.value, None))]
            && r == RowsResponse(old(db.QueryAnswer(Statement(q.value, None))))
            && (db.adapter != null ==> db.adapter.history == old(db.adapter.After(QueryCall(Statement(q.value, None))))))
  {
    if IsNullOrWhiteSpace(tableName) {
      return Failure(SqlError(TableNameRequired));
    }
    var query := db.GetDescribeTableQuery(tableName);
    if query.Failure? {
      return Failure(SqlError(query.error));
    }
    var results := db.QueryAsync(query.value);
    r := RowsResponse(results);
  }

  // ---------------------------------------------------------------- lemmas

  /** A string that starts with `p` agrees with `p` at every index of `p`. */
  lemma StartsWithAt(n: string, p: string, i: nat)
    requires StartsWith(n, p) && i < |p|
    ensures n[i] == p[i]
  {
    assert n[..|p|][i] == n[i];
  }

  /** No text starts with two keywords of different tools. */
  lemma KeywordsExclusive(n: string)
    ensures var read := StartsWith(n, "select");
      var write := StartsWith(n, "insert") || StartsWith(n, "update") || StartsWith(n, "delete");
      var create := StartsWith(n, "create table");
      var alter := StartsWith(n, "alter table");
      var drop := StartsWith(n, "drop table");
      && !(read && (write || create || alter || drop))
      && !(write && (create || alter || drop))
      && !(create && (alter || drop))
      && !(alter && drop)
  {
    if StartsWith(n, "select") { StartsWithAt(n, "select", 0); }
    if StartsWith(n, "insert") { StartsWithAt(n, "insert", 0); }
    if StartsWith(n, "update") { StartsWithAt(n, "update", 0); }
    if StartsWith(n, "delete") { StartsWithAt(n, "delete", 0); StartsWithAt(n, "delete", 1); }
    if StartsWith(n, "create table") { StartsWithAt(n, "create table", 0); }
    if StartsWith(n, "alter table") { StartsWithAt(n, "alter table", 0); }
    if StartsWith(n, "drop table") { StartsWithAt(n, "drop table", 0); StartsWithAt(n, "drop table", 1); }
  }

  /** The five statement gates are pairwise exclusive: no statement is accepted
      by two different tools among read, write, create, alter and drop. */
  lemma GatesExclusive(query: string)
    ensures !(IsReadQuery(query) && (IsWriteQuery(query) || IsCreateTable(query) || IsAlterTable(query) || IsDropTable(query)))
    ensures !(IsWriteQuery(query) && (IsCreateTable(query) || IsAlterTable(query) || IsDropTable(query)))
    ensures !(IsCreateTable(query) && (IsAlterTable(query) || IsDropTable(query)))
    ensures !(IsAlterTable(query) && IsDropTable(query))
  {
    KeywordsExclusive(Normalize(query));
  }

  /** Every dialect's list statement would itself pass the read gate. */
  lemma ListTablesStatementsAreReads(dbType: string)
    requires ListTablesSql(dbType).Success?
    ensures IsReadQuery(ListTablesSql(dbType).value)
  {
    SelectStatementIsRead(ListTablesSql(dbType).value);
  }

  /** SQLite's describe statement starts with PRAGMA, whatever the name. */
  lemma PragmaIsNotRead(tableName: string)
    ensures !IsReadQuery("PRAGMA table_info(" + tableName + ")")
  {
    var sql := "PRAGMA table_info(" + tableName + ")";
    assert sql[0] == 'P' && sql[|sql| - 1] == ')';
    TrimStartNoLeading(sql);
    TrimEndNoTrailing(sql);
    assert Normalize(sql)[0] == 'p';
  }

  /** A describe statement that opens with SELECT and closes with a quote. */
  lemma QuotedSelectIsRead(rest: string, tableName: string)
    ensures IsReadQuery("SELECT" + rest + tableName + "'")
  {
    var sql := "SELECT" + rest + tableName + "'";
    assert sql[..6] == "SELECT";
    SelectStatementIsRead(sql);
  }

  lemma SqliteDescribeIsNotRead(tableName: string)
    ensures !IsReadQuery(DescribeTableSql("sqlite", tableName).value)
  {
    assert DescribeTableSql("sqlite", tableName).value == "PRAGMA table_info(" + tableName + ")";
    PragmaIsNotRead(tableName);
  }

  lemma SqlServerDescribeIsRead(tableName: string)
    ensures IsReadQuery(DescribeTableSql("sqlserver", tableName).value)
  {
    var rest := SqlServerColumns;
    assert DescribeTableSql("sqlserver", tableName).value == "SELECT" + rest + tableName + "'";
    QuotedSelectIsRead(rest, tableName);
  }

  lemma PostgreSqlDescribeIsRead(tableName: string)
    ensures IsReadQuery(DescribeTableSql("postgresql", tableName).value)
  {
    var rest := PostgreSqlColumns;
    assert DescribeTableSql("postgresql", tableName).value == "SELECT" + rest + tableName + "'";
    QuotedSelectIsRead(rest, tableName);
  }

  /** The describe statements of SQL Server and PostgreSQL pass the read gate
      whatever the name, while SQLite's PRAGMA statement never does: describe
      runs a statement read_query would refuse. */
  lemma DescribeStatementsAndReadGate(dbType: string, tableName: string)
    requires IsKnownType(dbType)
    ensures DescribeTableSql(dbType, tableName).Success?
      && (IsReadQuery(DescribeTableSql(dbType, tableName).value) <==> dbType != "sqlite")
  {
    if dbType == "sqlite" {
      SqliteDescribeIsNotRead(tableName);
    } else if dbType == "sqlserver" {
      SqlServerDescribeIsRead(tableName);
    } else {
      PostgreSqlDescribeIsRead(tableName);
    }
  }
}
