# MCP SQL server core, modelled in Dafny

This project models the core of a Model Context Protocol server that
exposes a SQL database to a language model through eight tools:
`read_query`, `write_query`, `export_query`, `create_table`, `alter_table`,
`drop_table`, `list_tables` and `describe_table`.

The tools gate each statement on its leading keyword, after trimming and
lower-casing. A statement that passes the gate goes to a process-wide
`DatabaseService`, unmodified. The service delegates to a database adapter.
Only the SQLite adapter exists. The results come back in a
`{success, data}` envelope, or as CSV text for the export. Every failure is
re-raised with the prefix `SQL Error: `.

Files and modules:

- `wrappers.dfy` (`Wrappers`): `Option`, `Result` and `Outcome`. A failure
  carries the .NET exception message.
- `text.dfy` (`Text`): the string functions the core relies on. They are
  `Trim`, `ToLowerInvariant`, `StartsWith`, `IsNullOrWhiteSpace` and
  `String.Join`, with `Split` as the partner of `Join`.
- `rows.dfy` (`Rows`): cell values, rows kept in dictionary order, and the
  dictionary indexer.
- `format_utils.dfy` (`FormatUtils`): the CSV conversion, both as the
  source's loop and as the function specifying it, plus the success and
  error envelopes.
- `adapters.dfy` (`Adapters`): the SQLite adapter as a class. It holds the
  connection state and the calls the database library has seen. The library
  itself is an `Engine` parameter, so every property holds for any database
  behaviour.
- `database_service.dfy` (`Services`): the static service as a class. Its
  fields are the adapter, the lower-cased type tag and the connection
  descriptor. The module also holds the dialect tables for the list and
  describe statements.
- `query_tools.dfy` (`QueryTools`) and `schema_tools.dfy` (`SchemaTools`):
  the eight tools, as methods on the service.
- `lifecycle.dfy` (`Lifecycle`): call sequences starting from a fresh
  service, with what a client observes after each of them.

The SQLite library and its file are not part of this model. Neither is
the MCP host (`src/Program.cs`). `Engine` stands for the library:

- `open(path, history)` gives the outcome of opening the file;
- `query(path, history, statement)` gives the rows;
- `execute(path, history, statement)` gives the affected-row count.

Here `history` is every call that adapter has passed to the library so
far, so the engine may answer from the database's current state.

## Model

| member | source | states |
|---|---|---|
| Text.TrimStart | src/Tools/QueryTools.cs:29 | the result is a suffix of the input; everything removed is white space; the result is empty or starts with a non-white character |
| Text.TrimEnd | src/Tools/QueryTools.cs:29 | the result is a prefix of the input; everything removed is white space; the result is empty or ends with a non-white character |
| Text.Trim | src/Tools/QueryTools.cs:29 | the trimmed statement is empty or both begins and ends with a non-white character |
| Text.LowerChar | src/Tools/QueryTools.cs:29 | the folded character is never an upper-case ASCII letter, and it is a lower-case letter exactly when the input was a letter |
| Text.Lower | src/Tools/QueryTools.cs:29 | lower-casing keeps the length and folds every character on its own |
| Text.Join | src/Utils/FormatUtils.cs:22 | joining one part gives that part |
| Text.Split | src/Utils/FormatUtils.cs:22 | splitting always gives at least one field (the partner of Join) |
| Text.TrimIsSlice | src/Tools/QueryTools.cs:29 | the trimmed text is a contiguous slice of the input, and only white space lies outside it on either side |
| Text.TrimIdempotent | src/Tools/QueryTools.cs:29 | trimming twice gives the same text as trimming once |
| Text.TrimStartNoLeading | src/Tools/QueryTools.cs:29 | a text that starts with a non-white character is left unchanged by TrimStart |
| Text.TrimEndNoTrailing | src/Tools/QueryTools.cs:29 | a text that ends with a non-white character is left unchanged by TrimEnd |
| Text.TrimStartPadded | src/Tools/QueryTools.cs:29 | white space put in front never changes TrimStart's result |
| Text.TrimEndPadded | src/Tools/QueryTools.cs:29 | white space put after never changes TrimEnd's result |
| Text.TrimEndKeeps | src/Tools/QueryTools.cs:29 | TrimEnd never removes a non-white character or anything before it |
| Text.TrimAppended | src/Tools/QueryTools.cs:29 | trailing white space never changes what trimming both sides gives |
| Text.TrimPadded | src/Tools/QueryTools.cs:29 | white space on both sides never changes Trim's result |
| Text.BlankIffTrimEmpty | src/Tools/SchemaTools.cs:127 | a name is blank exactly when trimming it leaves nothing |
| Text.AllWhiteSpaceTrimStart | src/Tools/SchemaTools.cs:127 | an all-white text trims to nothing |
| Text.LowerIdempotent | src/Tools/QueryTools.cs:29 | lower-casing twice is lower-casing once |
| Text.LowerPrefix | src/Tools/QueryTools.cs:29 | lower-casing commutes with taking a prefix |
| Text.LowerKeepsWhiteSpace | src/Tools/QueryTools.cs:29 | lower-casing turns white space into white space and everything else into non-white characters |
| Text.TrimStartLower | src/Tools/QueryTools.cs:29 | TrimStart and lower-casing commute |
| Text.TrimEndLower | src/Tools/QueryTools.cs:29 | TrimEnd and lower-casing commute |
| Text.SplitJoin | src/Utils/FormatUtils.cs:22 | Split undoes Join when the separator occurs in no part |
| Text.SplitField | src/Utils/FormatUtils.cs:22 | a text without the separator splits into itself alone |
| Text.SplitFieldThen | src/Utils/FormatUtils.cs:22 | splitting a field, the separator and a rest gives the field followed by the split of the rest |
| Rows.Names | src/Utils/FormatUtils.cs:22 | the row's keys, one per column and in column order |
| Rows.Lookup | src/Utils/FormatUtils.cs:34 | the indexer finds nothing exactly when the key is absent; what it finds is a value stored under that key |
| Rows.LookupAt | src/Utils/FormatUtils.cs:34 | in a row without duplicate keys, the indexer returns the value of the column with that name |
| FormatUtils.DoubleQuotes | src/Utils/FormatUtils.cs:40 | escaping never shortens the text and leaves a text without quotes unchanged |
| FormatUtils.Quote | src/Utils/FormatUtils.cs:40 | a string cell is wrapped in double quotes |
| FormatUtils.QuoteRoundTrip | src/Utils/FormatUtils.cs:37-41 | reading a quoted cell back under RFC 4180 gives the original string |
| FormatUtils.UndoubleQuotesInverse | src/Utils/FormatUtils.cs:40 | un-doubling the quotes undoes the doubling |
| FormatUtils.RowCells | src/Utils/FormatUtils.cs:31-46 | a successful row gives exactly one cell per header key |
| FormatUtils.RowCellsSuccess | src/Utils/FormatUtils.cs:31-46 | a row renders exactly when it holds every header key |
| FormatUtils.RowCellAt | src/Utils/FormatUtils.cs:34-45 | cell i of a rendered row is the rendering of the value under key i: empty for null, quoted for a string, ToString otherwise |
| FormatUtils.RowCellsFailure | src/Utils/FormatUtils.cs:34 | a row that fails does so with the indexer's KeyNotFound message for the first header key it lacks |
| FormatUtils.RowCellsExtend | src/Utils/FormatUtils.cs:32-34 | once a key is missing, the later keys are never looked at |
| FormatUtils.DataLines | src/Utils/FormatUtils.cs:29-49 | a successful rendering has one line per row |
| FormatUtils.DataLinesExtend | src/Utils/FormatUtils.cs:29-34 | once a row fails, the later rows are never looked at |
| FormatUtils.AllHaveKeysSnoc | src/Utils/FormatUtils.cs:29-49 | every row of a longer list has the keys exactly when every earlier row and the new row have them |
| FormatUtils.TerminatedSnoc | src/Utils/FormatUtils.cs:48 | appending a line to the builder adds it with its line terminator at the end |
| FormatUtils.DataLinesStep | src/Utils/FormatUtils.cs:29-49 | one more row adds its joined cells as one more line, or fails with its error |
| FormatUtils.DataLinesSuccess | src/Utils/FormatUtils.cs:29-49 | the rows render exactly when every row holds every header key |
| FormatUtils.DataLineAt | src/Utils/FormatUtils.cs:48 | line i is row i's cells joined by commas |
| FormatUtils.DataLinesFailure | src/Utils/FormatUtils.cs:29-34 | a failed rendering has the error of the first row that lacks a key |
| FormatUtils.ConvertToCsv | src/Utils/FormatUtils.cs:19 | no rows give the empty text |
| FormatUtils.RowValues | src/Utils/FormatUtils.cs:31-46 | the inner loop over the header keys computes exactly RowCells: one rendered value per key, or the error for the first missing key |
| FormatUtils.ConvertToCsvLoop | src/Utils/FormatUtils.cs:17-52 | the outer loop over a string builder computes exactly the specifying function ConvertToCsv, its missing-key error included |
| FormatUtils.CsvShape | src/Utils/FormatUtils.cs:19-51 | n rows give n + 1 newline-terminated lines: the first row's keys joined by commas, then each row's values in that key order |
| FormatUtils.FirstRowHasKeys | src/Utils/FormatUtils.cs:22 | the first row always holds its own keys |
| FormatUtils.CsvFailure | src/Utils/FormatUtils.cs:29-34 | the export fails exactly when some row lacks one of the first row's keys; the error names the first such key of the first such row, and that row is never the first |
| FormatUtils.LineFeedsAppend | src/Utils/FormatUtils.cs:48 | line feeds in a concatenation add up |
| FormatUtils.TerminatedLineFeeds | src/Utils/FormatUtils.cs:26 | n lines without line feeds of their own give text with exactly n line feeds |
| FormatUtils.HeaderRoundTrip | src/Utils/FormatUtils.cs:22 | the header line splits back into the first row's keys when no key holds a comma |
| FormatUtils.FormatSuccessResponse | src/Utils/FormatUtils.cs:59-66 | the envelope holds exactly `success = true` and `data` |
| FormatUtils.FormatErrorResponse | src/Utils/FormatUtils.cs:73-80 | the envelope holds exactly `success = false` and `error` |
| FormatUtils.EnvelopesRoundTrip | src/Utils/FormatUtils.cs:59-80 | a client reads back the data of a success and the message of an error, and the two envelopes never coincide |
| Adapters.Adapter.constructor | src/Adapters/SqliteAdapter.cs:32-35 | the adapter keeps its path and has no connection and no history |
| Adapters.Adapter.DatabaseType | src/Adapters/SqliteAdapter.cs:21 | the adapter's type tag is "sqlite" |
| Adapters.Adapter.Initialize | src/Adapters/SqliteAdapter.cs:40-54 | the connection is created, then opened; on a successful open the bookkeeping table is created; the outcome and the new state follow from the engine's answers |
| Adapters.Adapter.Close | src/Adapters/SqliteAdapter.cs:59-67 | an existing connection is closed and dropped; without one nothing happens |
| Adapters.Adapter.Query | src/Adapters/SqliteAdapter.cs:75-107 | without an open connection it fails with the not-open message and reaches nothing; otherwise the library answers exactly this statement |
| Adapters.Adapter.Execute | src/Adapters/SqliteAdapter.cs:115-142 | the same for a command and its affected-row count |
| Services.DialectTablesAgree | src/Services/DatabaseService.cs:95-139 | a tag has a display name, a list statement and a describe statement exactly when it is one of the three known tags; any other tag fails both statements with the same message |
| Services.ListTablesKnown | src/Services/DatabaseService.cs:114-120 | a tag has a list statement exactly when it is one of the three known tags |
| Services.DescribeTableKnown | src/Services/DatabaseService.cs:132-138 | a tag has a describe statement exactly when it is one of the three known tags |
| Services.DisplayNameKnown | src/Services/DatabaseService.cs:95-101 | a tag has a display name other than "Unknown" exactly when it is one of the three known tags |
| Services.UnknownTagFails | src/Services/DatabaseService.cs:119-137 | any other tag fails the list and the describe statement with the same not-supported message |
| Services.DescribeTableRoundTrip | src/Services/DatabaseService.cs:128-139 | the describe statement is the dialect's fixed prefix, the name verbatim and the fixed suffix, and the name can be read back out of it |
| Services.SqliteFramed | src/Services/DatabaseService.cs:134 | SQLite's describe statement is its frame around the name |
| Services.SqlServerFramed | src/Services/DatabaseService.cs:135 | SQL Server's describe statement is its frame around the name |
| Services.PostgreSqlFramed | src/Services/DatabaseService.cs:136 | PostgreSQL's describe statement is its frame around the name |
| Services.UnframeFramed | src/Services/DatabaseService.cs:128-139 | removing a frame gives back what was framed |
| Services.DescribeTableInjective | src/Services/DatabaseService.cs:128-139 | different names give different describe statements |
| Services.DatabaseService.constructor | src/Services/DatabaseService.cs:13-15 | no adapter, an empty tag, and no calls yet |
| Services.DatabaseService.InitializeAsync | src/Services/DatabaseService.cs:23-38 | the lower-cased tag and the descriptor are stored first; an unsupported tag fails with the original tag in its message and keeps the previous adapter; "sqlite" installs a fresh adapter before opening it; the previous adapter is never closed |
| Services.DatabaseService.CloseAsync | src/Services/DatabaseService.cs:44-51 | the adapter is closed and forgotten; the tag and the descriptor stay |
| Services.DatabaseService.EnsureAdapterInitialized | src/Services/DatabaseService.cs:141-147 | fails with the not-initialized message exactly when there is no adapter |
| Services.DatabaseService.QueryAsync | src/Services/DatabaseService.cs:59-63 | the statement reaches the adapter unchanged and the adapter's answer comes back unchanged; without an adapter it fails with the not-initialized message |
| Services.DatabaseService.ExecuteAsync | src/Services/DatabaseService.cs:71-75 | the same for a command |
| Services.DatabaseService.GetDatabaseMetadata | src/Services/DatabaseService.cs:81-104 | without an adapter, the fixed "none" record; otherwise exactly the tag, its display name and the descriptor |
| Services.DatabaseService.GetListTablesQuery | src/Services/DatabaseService.cs:109-121 | the not-initialized check, then the stored tag's list statement or the not-supported error |
| Services.DatabaseService.GetDescribeTableQuery | src/Services/DatabaseService.cs:128-139 | the not-initialized check, then the stored tag's describe statement for the name |
| QueryTools.ReadQuery | src/Tools/QueryTools.cs:24-41 | a statement the read gate refuses fails with "SQL Error: Only SELECT queries are allowed with read_query" and reaches nothing; an accepted one reaches QueryAsync once, unmodified, and its rows or its error come back; the adapter's connection state is left as it was |
| QueryTools.WriteQuery | src/Tools/QueryTools.cs:50-68 | the same with the insert/update/delete gate and ExecuteAsync; the envelope carries exactly the affected-row count, and the adapter's connection state is left as it was |
| QueryTools.ExportQuery | src/Tools/QueryTools.cs:77-94 | the read gate, then the rows as CSV text, with a query error or a conversion error re-raised; the adapter's connection state is left as it was |
| QueryTools.NormalizeIsTrimOfLower | src/Tools/QueryTools.cs:29 | trimming and then lower-casing gives the same text as lower-casing and then trimming |
| QueryTools.GatesIgnoreCase | src/Tools/QueryTools.cs:29-56 | statements that agree up to letter case pass or fail both gates together |
| QueryTools.GatesIgnorePadding | src/Tools/QueryTools.cs:29-56 | white space around a statement never changes whether it passes a gate |
| QueryTools.ReadGateHasNoWordBoundary | src/Tools/QueryTools.cs:29 | the read gate is a bare prefix test with no word boundary: "selection" passes it |
| QueryTools.PaddedSelectIsRead | src/Tools/QueryTools.cs:29 | white space followed by a statement that starts with "SELECT" passes the read gate, whatever follows |
| QueryTools.ReadWriteExclusive | src/Tools/QueryTools.cs:29-56 | no statement passes both the read gate and the write gate |
| SchemaTools.GatedExecute | src/Tools/SchemaTools.cs:27-40 | the shared protocol of the three schema-change tools: refuse before any call, or execute once, leave the adapter's connection state as it was, and answer with the fixed status |
| SchemaTools.CreateTable | src/Tools/SchemaTools.cs:24-41 | a statement that does not start with "create table" fails with its message and reaches nothing; otherwise it is executed once, unmodified, the adapter's connection state is left as it was, and the fixed "Table created successfully" status comes back, the affected-row count dropped |
| SchemaTools.AlterTable | src/Tools/SchemaTools.cs:50-67 | the same with "alter table" |
| SchemaTools.DropTable | src/Tools/SchemaTools.cs:76-93 | the same with "drop table" |
| SchemaTools.ListTables | src/Tools/SchemaTools.cs:101-113 | a not-initialized or unsupported-tag error surfaces before any query; otherwise the dialect's list statement is queried once and the adapter's connection state is left as it was |
| SchemaTools.DescribeTable | src/Tools/SchemaTools.cs:122-140 | a blank name fails with "Table name is required" before the service is consulted; otherwise the dialect's describe statement for exactly that name is queried once and the adapter's connection state is left as it was |
| SchemaTools.StartsWithAt | src/Tools/SchemaTools.cs:29 | a text that starts with a keyword agrees with it at every position of the keyword |
| SchemaTools.KeywordsExclusive | src/Tools/SchemaTools.cs:29-81 | no text starts with the keywords of two different tools |
| SchemaTools.GatesExclusive | src/Tools/SchemaTools.cs:29-81 | no statement is accepted by two of the read, write, create, alter and drop gates |
| QueryTools.NormalizedStartsWith | src/Tools/SchemaTools.cs:29 | a statement without surrounding white space whose start folds to a keyword passes that keyword's gate |
| QueryTools.LowerSelect | src/Tools/QueryTools.cs:29 | "SELECT" lower-cases to "select" |
| QueryTools.SelectStatementIsRead | src/Tools/QueryTools.cs:29 | a statement that starts with "SELECT" passes the read gate, whatever follows, trailing white space included |
| SchemaTools.ListTablesStatementsAreReads | src/Services/DatabaseService.cs:116-118 | every dialect's list statement would itself pass the read gate |
| SchemaTools.PragmaIsNotRead | src/Services/DatabaseService.cs:134 | SQLite's PRAGMA describe statement never passes the read gate |
| SchemaTools.QuotedSelectIsRead | src/Services/DatabaseService.cs:135-136 | "SELECT", any text, any name and a closing quote pass the read gate |
| SchemaTools.SqliteDescribeIsNotRead | src/Services/DatabaseService.cs:134 | SQLite's describe statement fails the read gate for every name |
| SchemaTools.SqlServerDescribeIsRead | src/Services/DatabaseService.cs:135 | SQL Server's describe statement passes the read gate for every name |
| SchemaTools.PostgreSqlDescribeIsRead | src/Services/DatabaseService.cs:136 | PostgreSQL's describe statement passes the read gate for every name |
| SchemaTools.DescribeStatementsAndReadGate | src/Services/DatabaseService.cs:128-139 | every known dialect has a describe statement, and it passes the read gate exactly when the dialect is not SQLite, whatever the name |
| Lifecycle.QueryBeforeInitialize | src/Services/DatabaseService.cs:141-147 | before any initialisation every query and the list statement fail with the not-initialized message |
| Lifecycle.QueryAfterClose | src/Services/DatabaseService.cs:44-51 | after closing, queries fail with the not-initialized message and the metadata is the "none" record |
| Lifecycle.QueryAfterFailedOpen | src/Services/DatabaseService.cs:29-37 | a failed open still installs the adapter: queries then fail with the connection-not-open message, not the not-initialized one, and the metadata describes the database |
| Lifecycle.FirstQuerySeesBookkeeping | src/Adapters/SqliteAdapter.cs:40-54 | after a successful open, the library has seen exactly the open and the bookkeeping command when the first query arrives; the initialisation reports failure exactly when that command failed |
| Lifecycle.ReinitializeSwitchesDatabase | src/Services/DatabaseService.cs:23-38 | a second "sqlite" initialisation sends every later query to the new path, and the first adapter stays open |
| Lifecycle.ToolsKeepConnection | src/Tools/QueryTools.cs:24-68 | a read and a write in a row neither open nor close the connection: afterwards it is open exactly when the first open succeeded |
| Lifecycle.MySqlTag | src/Services/DatabaseService.cs:25-119 | "MySQL" is stored as "mysql", which has the display name "Unknown" and no list statement; the rejection message keeps the original spelling |
| Lifecycle.FailedReinitialize | src/Services/DatabaseService.cs:23-38 | an unsupported tag after a successful start fails, yet it has already overwritten the tag and the descriptor: the metadata reports "Unknown" with the new descriptor, the list statement fails as not supported, and queries still reach the first database |

## Left out

- The SQLite library, the database file and SQL semantics are the `Engine` parameter. Query results, affected-row counts and open failures are whatever the engine answers. Reading a result set into dictionaries (src/Adapters/SqliteAdapter.cs:93-104) is part of the engine. A row with a repeated column name is therefore not collapsed the way the dictionary indexer would collapse it.
- The engine sees one history per adapter, not per database file. Two adapters on one path are not modelled as sharing state.
- `async`/`await`, tasks and concurrent tool calls are not modelled. Each call runs to completion, in order.
- The log line written to the console on open is not modelled.
- `DisposeAsync` and the connection object's own life cycle are not modelled.
- The MCP attributes, the tool descriptions and the host in `src/Program.cs` are not modelled.
- Text.IsWhiteSpace covers the Latin-1 white space of `char.IsWhiteSpace` only: U+0009 to U+000D, space, U+0085 and U+00A0. Other Unicode separators are not modelled.
- Text.LowerChar folds ASCII letters only. `ToLowerInvariant` also folds other Unicode letters. The gates compare against ASCII keywords, so the difference shows only for text outside ASCII.
- Text.StartsWith is ordinal. .NET's `StartsWith(string)` is culture-sensitive, and in every culture, the invariant one included, it skips characters of zero collation weight such as the soft hyphen U+00AD. So `"\u00ADselect x"` passes the source's read gate but fails the model's. Without such characters the two agree on the ASCII keywords the gates test.
- FormatUtils.NewLine is a single line feed. `AppendLine` writes `Environment.NewLine`, which is CR LF on Windows.
- FormatUtils.CellText takes the runtime's `ToString()` of numbers, booleans and blobs as a parameter `show`. Number formatting and culture are not modelled. The source's null and `DBNull` both render as the empty text; `DBNull.ToString()` gives the empty text too, so both are `Null` here.
- Null strings are not modelled; a Dafny string is never null. In the source:
  - a null statement makes `Trim()` throw NullReferenceException inside the tool, re-raised as `SQL Error: ` and its message;
  - a null table name is caught by `string.IsNullOrWhiteSpace` (src/Tools/SchemaTools.cs:127) and fails with "Table name is required", exactly as the blank names SchemaTools.DescribeTable models;
  - a null descriptor with the tag "sqlite" makes `connectionInfo.ToString()` throw NullReferenceException before the `?? throw` is reached (src/Services/DatabaseService.cs:31); with any other tag the switch throws the "Unsupported database type" ArgumentException first. The `ArgumentNullException` is never thrown, and in both cases the null descriptor has already been stored;
  - a null type tag makes `ToLowerInvariant()` throw NullReferenceException before anything is stored.
- Services.DatabaseService.InitializeAsync models the descriptor as a string. The source stores any object and passes its `ToString()` to the adapter.
- Services.DatabaseService.QueryAsync and ExecuteAsync log every call in a ghost field, including calls that fail, so that the tools' contracts can say whether the service was reached.
- The parameter dictionaries of QueryAsync and ExecuteAsync are passed through to the engine without a model of how SQLite binds them. The tools always pass none.
