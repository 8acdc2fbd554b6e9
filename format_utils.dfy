/** FormatUtils: the CSV export of a result set and the success / error
    envelopes every tool except the export returns. */
module FormatUtils {
  import opened Wrappers
  import opened Text
  import opened Rows

  /** Environment.NewLine, taken as a single line feed. */
  const NewLine: string := "\n"

  /** The message of the KeyNotFoundException the dictionary indexer throws. */
  function KeyNotFound(key: string): string {
    "The given key '" + key + "' was not present in the dictionary."
  }

  // ------------------------------------------------------------- quoting

  /** s.Replace("\"", "\"\""): every double quote doubled. */
  function DoubleQuotes(s: string): (r: string)
    ensures |r| >= |s|
    ensures '"' !in s ==> r == s
  {
    if |s| == 0 then ""
    else (if s[0] == '"' then "\"\"" else [s[0]]) + DoubleQuotes(s[1..])
  }

  /** A string cell: wrapped in double quotes with its own quotes doubled
      (the escaping rule of RFC 4180, section 2, rule 7). */
  function Quote(s: string): (r: string)
    ensures |r| >= 2 && r[0] == '"' && r[|r| - 1] == '"'
  {
    "\"" + DoubleQuotes(s) + "\""
  }

  /** Reads back the inside of a quoted field: a doubled quote stands for one
      quote, a lone quote is malformed. */
  function UndoubleQuotes(e: string): Option<string> {
    if |e| == 0 then Some("")
    else if e[0] != '"' then
      match UndoubleQuotes(e[1..])
      case Some(t) => Some([e[0]] + t)
      case None => None
    else if |e| >= 2 && e[1] == '"' then
      match UndoubleQuotes(e[2..])
      case Some(t) => Some("\"" + t)
      case None => None
    else None
  }

  /** Reads back a quoted field. */
  function Unquote(f: string): Option<string> {
    if |f| >= 2 && f[0] == '"' && f[|f| - 1] == '"' then UndoubleQuotes(f[1..|f| - 1])
    else None
  }

  /** The text of one cell: empty for null, quoted for a string, and `show`
      (the runtime's ToString()) for every other kind. */
  function CellText(v: Value, show: Value -> string): string {
    match v
    case Null => ""
    case Text(s) => Quote(s)
    case _ => show(v)
  }

  // ------------------------------------------------------------- CSV

  /** The row contains every one of `keys`. */
  predicate HasKeys(row: Row, keys: seq<string>) {
    forall i :: 0 <= i < |keys| ==> Lookup(row, keys[i]).Some?
  }

  /** The cells of `row` in the order of `keys`, or the indexer's error for the
      first key the row lacks. */
  function RowCells(keys: seq<string>, row: Row, show: Value -> string): (r: Result<seq<string>>)
    ensures r.Success? ==> |r.value| == |keys|
  {
    if |keys| == 0 then Success([])
    else
      var key := keys[|keys| - 1];
      match RowCells(keys[..|keys| - 1], row, show)
      case Failure(e) => Failure(e)
      case Success(cells) =>
        match Lookup(row, key)
        case None => Failure(KeyNotFound(key))
        case Some(v) => Success(cells + [CellText(v, show)])
  }

  /** The cells succeed exactly when the row has every key. */
  lemma {:induction false} RowCellsSuccess(keys: seq<string>, row: Row, show: Value -> string)
    ensures RowCells(keys, row, show).Success? <==> HasKeys(row, keys)
  {
    if |keys| > 0 {
      var front := keys[..|keys| - 1];
      RowCellsSuccess(front, row, show);
      assert forall i :: 0 <= i < |front| ==> front[i] == keys[i];
      assert HasKeys(row, keys) <==> HasKeys(row, front) && Lookup(row, keys[|keys| - 1]).Some?;
    }
  }

  /** Cell i of a successful row is the rendering of the value stored under
      key i: empty for null, quoted for a string, `show` for the rest. */
  lemma {:induction false} RowCellAt(keys: seq<string>, row: Row, show: Value -> string, i: nat)
    requires RowCells(keys, row, show).Success? && i < |keys|
    ensures Lookup(row, keys[i]).Some?
    ensures RowCells(keys, row, show).value[i] == CellText(Lookup(row, keys[i]).value, show)
  {
    var front := keys[..|keys| - 1];
    if i < |front| {
      RowCellAt(front, row, show, i);
      assert front[i] == keys[i];
    }
  }

  /** When the cells fail, they fail on the first key the row lacks. */
  lemma {:induction false} RowCellsFailure(keys: seq<string>, row: Row, show: Value -> string)
    requires RowCells(keys, row, show).Failure?
    ensures exists k :: (0 <= k < |keys| && Lookup(row, keys[k]).None?
      && HasKeys(row, keys[..k])
      && RowCells(keys, row, show).error == KeyNotFound(keys[k]))
  {
    var front := keys[..|keys| - 1];
    if RowCells(front, row, show).Failure? {
      RowCellsFailure(front, row, show);
      var k :| 0 <= k < |front| && Lookup(row, front[k]).None?
        && HasKeys(row, front[..k])
        && RowCells(front, row, show).error == KeyNotFound(front[k]);
      assert front[..k] == keys[..k];
    } else {
      RowCellsSuccess(front, row, show);
      assert front == keys[..|keys| - 1];
    }
  }

  /** One text line per row (without its terminator), or the first error. */
  function DataLines(keys: seq<string>, rows: ResultSet, show: Value -> string): (r: Result<seq<string>>)
    ensures r.Success? ==> |r.value| == |rows|
  {
    if |rows| == 0 then Success([])
    else
      match DataLines(keys, rows[..|rows| - 1], show)
      case Failure(e) => Failure(e)
      case Success(lines) =>
        match RowCells(keys, rows[|rows| - 1], show)
        case Failure(e) => Failure(e)
        case Success(cells) => Success(lines + [Join(",", cells)])
  }

  /** StringBuilder.AppendLine applied to each line in turn. */
  function Terminated(lines: seq<string>): string {
    if |lines| == 0 then ""
    else Terminated(lines[..|lines| - 1]) + lines[|lines| - 1] + NewLine
  }

  /** ConvertToCSV: nothing for no rows; otherwise the first row's keys as the
      header line, then one line per row with its values in the header's order. */
  function ConvertToCsv(data: ResultSet, show: Value -> string): (r: Result<string>)
    ensures |data| == 0 ==> r == Success("")
  {
    if |data| == 0 then Success("")
    else
      var keys := Names(data[0]);
      match DataLines(keys, data, show)
      case Failure(e) => Failure(e)
      case Success(lines) => Success(Terminated([Join(",", keys)] + lines))
  }

  /** The inner loop of the source: the values of one row, in the header's
      key order, stopping at the first key the row lacks. */
  method RowValues(keys: seq<string>, row: Row, show: Value -> string) returns (r: Result<seq<string>>)
    ensures r == RowCells(keys, row, show)
  {
    var values: seq<string> := [];
    var j := 0;
    while j < |keys|
      invariant 0 <= j <= |keys|
      invariant RowCells(keys[..j], row, show) == Success(values)
    {
      var v := Lookup(row, keys[j]);
      assert keys[..j + 1][..j] == keys[..j];
      if v.None? {
        RowCellsExtend(keys, j + 1, row, show);
        return Failure(KeyNotFound(keys[j]));
      }
      values := values + [CellText(v.value, show)];
      j := j + 1;
    }
    assert keys[..j] == keys;
    r := Success(values);
  }

  /** The outer loop of the source: a string builder seeded with the header
      line, then one line per row. */
  method ConvertToCsvLoop(data: ResultSet, show: Value -> string) returns (r: Result<string>)
    ensures r == ConvertToCsv(data, show)
  {
    if |data| == 0 {
      return Success("");
    }
    var keys := Names(data[0]);
    var header := Join(",", keys);
    var csv := header + NewLine;
    ghost var lines: seq<string> := [];
    var i := 0;
    while i < |data|
      invariant 0 <= i <= |data|
      invariant DataLines(keys, data[..i], show) == Success(lines)
      invariant csv == Terminated([header] + lines)
    {
      var values := RowValues(keys, data[i], show);
      DataLinesStep(keys, data, i, show);
      if values.Failure? {
        DataLinesExtend(keys, data, i + 1, show);
        return Failure(values.error);
      }
      TerminatedSnoc([header] + lines, Join(",", values.value));
      assert [header] + (lines + [Join(",", values.value)]) == ([header] + lines) + [Join(",", values.value)];
      lines := lines + [Join(",", values.value)];
      csv := csv + Join(",", values.value) + NewLine;
      i := i + 1;
    }
    assert data[..i] == data;
    r := Success(csv);
  }

  /** AppendLine adds one terminated line at the end. */
  lemma TerminatedSnoc(lines: seq<string>, line: string)
    ensures Terminated(lines + [line]) == Terminated(lines) + line + NewLine
  {
    assert (lines + [line])[..|lines|] == lines;
  }

  /** One more row extends the lines of the rows before it. */
  lemma DataLinesStep(keys: seq<string>, data: ResultSet, i: nat, show: Value -> string)
    requires i < |data| && DataLines(keys, data[..i], show).Success?
    ensures DataLines(keys, data[..i + 1], show)
      == match RowCells(keys, data[i], show)
         case Failure(e) => Failure(e)
         case Success(cells) => Success(DataLines(keys, data[..i], show).value + [Join(",", cells)])
  {
    assert data[..i + 1][..i] == data[..i];
  }

  /** A failure on a prefix of the keys is the failure on all of them. */
  lemma {:induction false} RowCellsExtend(keys: seq<string>, n: nat, row: Row, show: Value -> string)
    requires n <= |keys|
    requires RowCells(keys[..n], row, show).Failure?
    ensures RowCells(keys, row, show) == RowCells(keys[..n], row, show)
  {
    if n < |keys| {
      assert keys[..|keys| - 1][..n] == keys[..n];
      RowCellsExtend(keys[..|keys| - 1], n, row, show);
    } else {
      assert keys[..n] == keys;
    }
  }

  /** A failure on a prefix of the rows is the failure on all of them. */
  lemma {:induction false} DataLinesExtend(keys: seq<string>, rows: ResultSet, n: nat, show: Value -> string)
    requires n <= |rows|
    requires DataLines(keys, rows[..n], show).Failure?
    ensures DataLines(keys, rows, show) == DataLines(keys, rows[..n], show)
  {
    if n < |rows| {
      assert rows[..|rows| - 1][..n] == rows[..n];
      DataLinesExtend(keys, rows[..|rows| - 1], n, show);
    } else {
      assert rows[..n] == rows;
    }
  }

  // ------------------------------------------------------------- envelopes

  /** The `data` value of a success envelope: a result set, the affected-row
      count of a write, or the fixed status object of a schema change. */
  datatype Payload =
    | Rows(rows: ResultSet)
    | Affected(affectedRows: int)
    | Status(success: bool, message: string)

  /** The values a response dictionary holds. */
  datatype Field = Flag(flag: bool) | Data(payload: Payload) | Message(text: string)

  /** A response dictionary (Dictionary<string, object>). */
  type Envelope = map<string, Field>

  /** FormatSuccessResponse: exactly `success = true` and `data`. */
  function FormatSuccessResponse(data: Payload): (e: Envelope)
    ensures e.Keys == {"success", "data"}
    ensures e["success"] == Flag(true) && e["data"] == Data(data)
  {
    map["success" := Flag(true), "data" := Data(data)]
  }

  /** FormatErrorResponse: exactly `success = false` and `error`. */
  function FormatErrorResponse(message: string): (e: Envelope)
    ensures e.Keys == {"success", "error"}
    ensures e["success"] == Flag(false) && e["error"] == Message(message)
  {
    map["success" := Flag(false), "error" := Message(message)]
  }

  /** What a client reads from an envelope: the data of a success, the message
      of an error, or nothing for a dictionary of any other shape. */
  function ReadEnvelope(e: Envelope): Option<Result<Payload>> {
    if e.Keys == {"success", "data"} && e["success"] == Flag(true) && e["data"].Data? then
      Some(Success(e["data"].payload))
    else if e.Keys == {"success", "error"} && e["success"] == Flag(false) && e["error"].Message? then
      Some(Failure(e["error"].text))
    else None
  }

  // ------------------------------------------------------------- lemmas

  /** Both envelopes read back as what they were built from, so a success is
      never mistaken for an error nor the other way round. */
  lemma EnvelopesRoundTrip(data: Payload, message: string)
    ensures ReadEnvelope(FormatSuccessResponse(data)) == Some(Success(data))
    ensures ReadEnvelope(FormatErrorResponse(message)) == Some(Failure(message))
    ensures FormatSuccessResponse(data) != FormatErrorResponse(message)
  {
    var s := FormatSuccessResponse(data);
    assert "data" in s.Keys;
    var f := FormatErrorResponse(message);
    assert "error" in f.Keys && "data" !in f.Keys;
  }

  /** Quoting is undone by reading the field back (RFC 4180 decoding). */
  lemma QuoteRoundTrip(s: string)
    ensures Unquote(Quote(s)) == Some(s)
  {
    var q := Quote(s);
    assert q[1..|q| - 1] == DoubleQuotes(s);
    UndoubleQuotesInverse(s);
  }

  lemma {:induction false} UndoubleQuotesInverse(s: string)
    ensures UndoubleQuotes(DoubleQuotes(s)) == Some(s)
  {
    if |s| > 0 {
      UndoubleQuotesInverse(s[1..]);
      var d := DoubleQuotes(s);
      if s[0] == '"' {
        assert d[2..] == DoubleQuotes(s[1..]);
      } else {
        assert d[1..] == DoubleQuotes(s[1..]);
      }
      assert [s[0]] + s[1..] == s;
    }
  }

  /** Every one of `rows` contains every one of `keys`. */
  predicate AllHaveKeys(rows: ResultSet, keys: seq<string>) {
    forall i :: 0 <= i < |rows| ==> HasKeys(rows[i], keys)
  }

  /** Every row contains every key of the first row. */
  predicate CoversHeader(data: ResultSet) {
    |data| > 0 ==> AllHaveKeys(data, Names(data[0]))
  }

  /** Every row of `rows + [last]` has the keys exactly when every row of
      `rows` does and `last` does. */
  lemma AllHaveKeysSnoc(rows: ResultSet, last: Row, keys: seq<string>)
    ensures AllHaveKeys(rows + [last], keys) <==> AllHaveKeys(rows, keys) && HasKeys(last, keys)
  {
    var all := rows + [last];
    assert all[|rows|] == last;
    assert forall i :: 0 <= i < |rows| ==> all[i] == rows[i];
  }

  /** The lines succeed exactly when every row has every key. */
  lemma {:induction false} DataLinesSuccess(keys: seq<string>, rows: ResultSet, show: Value -> string)
    ensures DataLines(keys, rows, show).Success? <==> AllHaveKeys(rows, keys)
  {
    if |rows| > 0 {
      var front := rows[..|rows| - 1];
      var last := rows[|rows| - 1];
      DataLinesSuccess(keys, front, show);
      RowCellsSuccess(keys, last, show);
      AllHaveKeysSnoc(front, last, keys);
      assert rows == front + [last];
    }
  }

  /** Line i of a successful rendering is row i's cells joined by commas. */
  lemma {:induction false} DataLineAt(keys: seq<string>, rows: ResultSet, show: Value -> string, i: nat)
    requires DataLines(keys, rows, show).Success? && i < |rows|
    ensures RowCells(keys, rows[i], show).Success?
    ensures DataLines(keys, rows, show).value[i] == Join(",", RowCells(keys, rows[i], show).value)
  {
    var front := rows[..|rows| - 1];
    if i < |front| {
      DataLineAt(keys, front, show, i);
      assert front[i] == rows[i];
    }
  }

  /** When the lines fail, they fail with the error of the first row that
      lacks a key. */
  lemma {:induction false} DataLinesFailure(keys: seq<string>, rows: ResultSet, show: Value -> string)
    requires DataLines(keys, rows, show).Failure?
    ensures exists i :: (0 <= i < |rows| && AllHaveKeys(rows[..i], keys)
      && RowCells(keys, rows[i], show).Failure?
      && DataLines(keys, rows, show).error == RowCells(keys, rows[i], show).error)
  {
    var front := rows[..|rows| - 1];
    if DataLines(keys, front, show).Failure? {
      DataLinesFailure(keys, front, show);
      var i :| 0 <= i < |front| && AllHaveKeys(front[..i], keys)
        && RowCells(keys, front[i], show).Failure?
        && DataLines(keys, front, show).error == RowCells(keys, front[i], show).error;
      assert front[..i] == rows[..i] && front[i] == rows[i];
    } else {
      DataLinesSuccess(keys, front, show);
      assert front == rows[..|rows| - 1];
    }
  }

  /** The shape of a successful export: n rows give n + 1 newline-terminated
      lines, the header (the first row's keys joined by commas) first, then row
      i as line i + 1 with its values in the first row's key order. */
  lemma CsvShape(data: ResultSet, show: Value -> string)
    requires |data| > 0 && CoversHeader(data)
    ensures var keys := Names(data[0]);
      var lines := DataLines(keys, data, show);
      && lines.Success? && |lines.value| == |data|
      && ConvertToCsv(data, show) == Success(Terminated([Join(",", keys)] + lines.value))
      && (forall i :: 0 <= i < |data| ==>
            RowCells(keys, data[i], show).Success? && lines.value[i] == Join(",", RowCells(keys, data[i], show).value))
  {
    var keys := Names(data[0]);
    DataLinesSuccess(keys, data, show);
    forall i | 0 <= i < |data|
      ensures RowCells(keys, data[i], show).Success?
      ensures DataLines(keys, data, show).value[i] == Join(",", RowCells(keys, data[i], show).value)
    {
      DataLineAt(keys, data, show, i);
    }
  }

  /** The first row always holds its own keys. */
  lemma FirstRowHasKeys(row: Row)
    ensures HasKeys(row, Names(row))
  {
    forall i | 0 <= i < |row| ensures Lookup(row, Names(row)[i]).Some? {
      assert Names(row)[i] in Names(row);
    }
  }

  /** An export fails exactly when some row lacks a key of the first row, and
      then with the indexer's error for the first such (row, key) pair in
      row-major order; that row is never the first. */
  lemma CsvFailure(data: ResultSet, show: Value -> string)
    ensures ConvertToCsv(data, show).Failure? <==> !CoversHeader(data)
    ensures ConvertToCsv(data, show).Failure? ==>
      var keys := Names(data[0]);
      exists i, k :: 0 < i < |data| && 0 <= k < |keys|
        && AllHaveKeys(data[..i], keys)
        && HasKeys(data[i], keys[..k]) && Lookup(data[i], keys[k]).None?
        && ConvertToCsv(data, show) == Failure(KeyNotFound(keys[k]))
  {
    if |data| > 0 {
      var keys := Names(data[0]);
      DataLinesSuccess(keys, data, show);
      if DataLines(keys, data, show).Failure? {
        DataLinesFailure(keys, data, show);
        var i :| 0 <= i < |data| && AllHaveKeys(data[..i], keys)
          && RowCells(keys, data[i], show).Failure?
          && DataLines(keys, data, show).error == RowCells(keys, data[i], show).error;
        RowCellsFailure(keys, data[i], show);
        var k :| 0 <= k < |keys| && Lookup(data[i], keys[k]).None?
          && HasKeys(data[i], keys[..k])
          && RowCells(keys, data[i], show).error == KeyNotFound(keys[k]);
        FirstRowHasKeys(data[0]);
        assert i != 0;
      }
    }
  }

  /** Number of line feeds in a string. */
  function LineFeeds(s: string): nat {
    if |s| == 0 then 0 else (if s[0] == '\n' then 1 else 0) + LineFeeds(s[1..])
  }

  lemma {:induction false} LineFeedsAppend(a: string, b: string)
    ensures LineFeeds(a + b) == LineFeeds(a) + LineFeeds(b)
  {
    if |a| > 0 {
      assert (a + b)[1..] == a[1..] + b;
      LineFeedsAppend(a[1..], b);
    } else {
      assert a + b == b;
    }
  }

  /** Terminated lines hold one line feed per line, as long as no line holds one
      of its own (a string cell may contain a line feed inside its quotes). */
  lemma {:induction false} TerminatedLineFeeds(lines: seq<string>)
    requires forall i :: 0 <= i < |lines| ==> LineFeeds(lines[i]) == 0
    ensures LineFeeds(Terminated(lines)) == |lines|
  {
    if |lines| > 0 {
      var front := lines[..|lines| - 1];
      TerminatedLineFeeds(front);
      LineFeedsAppend(Terminated(front), lines[|lines| - 1]);
      LineFeedsAppend(Terminated(front) + lines[|lines| - 1], NewLine);
    }
  }

  /** The header line is the first row's keys: splitting it at commas gives them
      back whenever no key contains a comma (keys are not escaped). */
  lemma HeaderRoundTrip(data: ResultSet)
    requires |data| > 0 && |data[0]| > 0
    requires forall k :: 0 <= k < |data[0]| ==> ',' !in data[0][k].name
    ensures Split(Join(",", Names(data[0])), ',') == Names(data[0])
  {
    SplitJoin(Names(data[0]), ',');
  }
}
