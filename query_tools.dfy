/** QueryTools: read_query, write_query and export_query. Each normalises the
    statement (trim, lower-case) only to test its leading keyword, runs the
    statement exactly as given, and turns every failure, its own rejection
    included, into an error whose message starts with "SQL Error: ". */
module QueryTools {
  import opened Wrappers
  import opened Text
  import opened Rows
  import opened Adapters
  import opened Services
  import opened FormatUtils

  /** The message of the exception every tool re-raises. */
  function SqlError(message: string): string {
    "SQL Error: " + message
  }

  /** query.Trim().ToLowerInvariant(): the text the gates look at. */
  function Normalize(query: string): string {
    Lower(Trim(query))
  }

  /** The read gate: a plain prefix test, with no word boundary after "select". */
  predicate IsReadQuery(query: string) {
    StartsWith(Normalize(query), "select")
  }

  /** The write gate. */
  predicate IsWriteQuery(query: string) {
    var n := Normalize(query);
    StartsWith(n, "insert") || StartsWith(n, "update") || StartsWith(n, "delete")
  }

  const ReadOnlyMessage: string := "Only SELECT queries are allowed with read_query"
  const WriteOnlyMessage: string := "Only INSERT, UPDATE, or DELETE queries are allowed with write_query"
  const ExportOnlyMessage: string := "Only SELECT queries are allowed with export_query"

  /** A query's rows in a success envelope, or its error re-raised. */
  function RowsResponse(answer: Result<ResultSet>): Result<Envelope> {
    match answer
    case Success(rows) => Success(FormatSuccessResponse(Rows(rows)))
    case Failure(e) => Failure(SqlError(e))
  }

  /** A command's affected-row count in a success envelope, or its error re-raised. */
  function CountResponse(answer: Result<int>): Result<Envelope> {
    match answer
    case Success(n) => Success(FormatSuccessResponse(Affected(n)))
    case Failure(e) => Failure(SqlError(e))
  }

  /** A query's rows as CSV text, or the query's or the conversion's error re-raised. */
  function CsvResponse(answer: Result<ResultSet>, show: Value -> string): Result<string> {
    match answer
    case Failure(e) => Failure(SqlError(e))
    case Success(rows) =>
      match ConvertToCsv(rows, show)
      case Success(csv) => Success(csv)
      case Failure(e) => Failure(SqlError(e))
  }

  /** read_query: a statement the read gate rejects fails before the service is
      called; an accepted one reaches QueryAsync unmodified, and its rows come
      back in a success envelope. */
  method ReadQuery(db: DatabaseService, query: string) returns (r: Result<Envelope>)
    modifies db`calls, db.adapter
    ensures db.adapter != null ==> db.adapter.connection == old(db.adapter.connection)
    ensures !IsReadQuery(query) ==>
      && r == Failure(SqlError(ReadOnlyMessage))
      && db.calls == old(db.calls)
      && (db.adapter != null ==> unchanged(db.adapter))
    ensures IsReadQuery(query) ==>
      && db.calls == old(db.calls) + [QueryCall(Statement(query, None))]
      && r == RowsResponse(old(db.QueryAnswer(Statement(query, None))))
      && (db.adapter != null ==> db.adapter.history == old(db.adapter.After(QueryCall(Statement(query, None)))))
  {
    if !IsReadQuery(query) {
      return Failure(SqlError(ReadOnlyMessage));
    }
    var result := db.QueryAsync(query);
    r := RowsResponse(result);
  }

  /** write_query: the same protocol with the write gate and ExecuteAsync; the
      envelope carries exactly the count ExecuteAsync returned. */
  method WriteQuery(db: DatabaseService, query: string) returns (r: Result<Envelope>)
    modifies db`calls, db.adapter
    ensures db.adapter != null ==> db.adapter.connection == old(db.adapter.connection)
    ensures !IsWriteQuery(query) ==>
      && r == Failure(SqlError(WriteOnlyMessage))
      && db.calls == old(db.calls)
      && (db.adapter != null ==> unchanged(db.adapter))
    ensures IsWriteQuery(query) ==>
      && db.calls == old(db.calls) + [ExecuteCall(Statement(query, None))]
      && r == CountResponse(old(db.ExecuteAnswer(Statement(query, None))))
      && (db.adapter != null ==> db.adapter.history == old(db.adapter.After(ExecuteCall(Statement(query, None)))))
  {
    if !IsWriteQuery(query) {
      return Failure(SqlError(WriteOnlyMessage));
    }
    var affectedRows := db.ExecuteAsync(query);
    r := CountResponse(affectedRows);
  }

  /** export_query: the read gate, then the rows converted to CSV and returned
      as bare text, not in an envelope. `show` is the runtime's ToString(). */
  method ExportQuery(db: DatabaseService, query: string, show: Value -> string) returns (r: Result<string>)
    modifies db`calls, db.adapter
    ensures db.adapter != null ==> db.adapter.connection == old(db.adapter.connection)
    ensures !IsReadQuery(query) ==>
      && r == Failure(SqlError(ExportOnlyMessage))
      && db.calls == old(db.calls)
      && (db.adapter != null ==> unchanged(db.adapter))
    ensures IsReadQuery(query) ==>
      && db.calls == old(db.calls) + [QueryCall(Statement(query, None))]
      && r == CsvResponse(old(db.QueryAnswer(Statement(query, None))), show)
      && (db.adapter != null ==> db.adapter.history == old(db.adapter.After(QueryCall(Statement(query, None)))))
  {
    if !IsReadQuery(query) {
      return Failure(SqlError(ExportOnlyMessage));
    }
    var result := db.QueryAsync(query);
    if result.Failure? {
      return Failure(SqlError(result.error));
    }
    var csv := ConvertToCsvLoop(result.value, show);
    r := if csv.Failure? then Failure(SqlError(csv.error)) else csv;
  }

  // ---------------------------------------------------------------- lemmas

  /** Normalising is trimming the lower-cased statement. */
  lemma NormalizeIsTrimOfLower(query: string)
    ensures Normalize(query) == Trim(Lower(query))
  {
    TrimStartLower(query);
    TrimEndLower(TrimStart(query));
  }

  /** The gates ignore letter case: two statements that agree up to ASCII case
      pass or fail every gate together. */
  lemma GatesIgnoreCase(a: string, b: string)
    requires Lower(a) == Lower(b)
    ensures Normalize(a) == Normalize(b)
    ensures IsReadQuery(a) == IsReadQuery(b) && IsWriteQuery(a) == IsWriteQuery(b)
  {
    NormalizeIsTrimOfLower(a);
    NormalizeIsTrimOfLower(b);
  }

  /** The gates ignore leading and trailing white space. */
  lemma GatesIgnorePadding(w1: string, query: string, w2: string)
    requires AllWhiteSpace(w1) && AllWhiteSpace(w2)
    ensures Normalize(w1 + query + w2) == Normalize(query)
    ensures IsReadQuery(w1 + query + w2) == IsReadQuery(query)
    ensures IsWriteQuery(w1 + query + w2) == IsWriteQuery(query)
  {
    TrimPadded(w1, query, w2);
  }

  /** A statement with no surrounding white space whose first |keyword|
      characters fold to `keyword` passes that keyword's gate. */
  lemma NormalizedStartsWith(sql: string, keyword: string)
    requires |sql| > 0 && !IsWhiteSpace(sql[0]) && !IsWhiteSpace(sql[|sql| - 1])
    requires |keyword| <= |sql| && Lower(sql[..|keyword|]) == keyword
    ensures StartsWith(Normalize(sql), keyword)
  {
    TrimStartNoLeading(sql);
    TrimEndNoTrailing(sql);
    LowerPrefix(sql, |keyword|);
  }

  lemma LowerSelect()
    ensures Lower("SELECT") == "select"
  {
    var l := Lower("SELECT");
    assert l[0] == 's' && l[1] == 'e' && l[2] == 'l' && l[3] == 'e' && l[4] == 'c' && l[5] == 't';
  }

  /** A statement that begins "SELECT" passes the read gate, whatever
      follows, trailing white space included. */
  lemma SelectStatementIsRead(sql: string)
    requires |sql| >= 6 && sql[..6] == "SELECT"
    ensures IsReadQuery(sql)
  {
    var t := TrimEnd(sql);
    assert sql[5] == "SELECT"[5];
    TrimEndKeeps(sql, 6);
    assert IsReadQuery(t) by {
      assert t[..6] == "SELECT";
      LowerSelect();
      NormalizedStartsWith(t, "select");
    }
  }

  /** White space, then a text that starts with "SELECT", passes the read gate. */
  lemma PaddedSelectIsRead(w: string, s: string)
    requires AllWhiteSpace(w) && |s| >= 6 && s[..6] == "SELECT"
    ensures IsReadQuery(w + s)
  {
    assert w + s == w + s + "";
    GatesIgnorePadding(w, s, "");
    SelectStatementIsRead(s);
  }

  /** The read gate is a raw prefix test: it lets through a statement whose
      first word merely begins with "select". */
  lemma ReadGateHasNoWordBoundary()
    ensures IsReadQuery("selection")
  {
    var a := "selection";
    TrimStartNoLeading(a);
    TrimEndNoTrailing(a);
    assert Normalize(a)[..6] == "select";
  }

  /** No statement passes both the read gate and the write gate. */
  lemma ReadWriteExclusive(query: string)
    ensures !(IsReadQuery(query) && IsWriteQuery(query))
  {
    var n := Normalize(query);
    if StartsWith(n, "select") {
      assert n[0] == 's';
    }
  }
}
