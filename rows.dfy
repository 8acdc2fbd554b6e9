/** The row model shared by the adapter, the service and the formatter: a
    result set is a list of rows, a row an ordered dictionary from column name
    to a dynamically typed scalar (List<Dictionary<string, object>> in the
    source). */
module Rows {
  import opened Wrappers

  /** The scalar kinds a cell can hold; `Null` stands for both C# null and DBNull. */
  datatype Value =
    | Null
    | Text(text: string)
    | Integer(integer: int)
    | Real(number: real)
    | Boolean(boolean: bool)
    | Blob(bytes: seq<bv8>)

  datatype Column = Column(name: string, value: Value)

  /** A row keeps its columns in the dictionary's enumeration order. */
  type Row = seq<Column>

  type ResultSet = seq<Row>

  /** The optional parameter dictionary of QueryAsync / ExecuteAsync. */
  type Parameters = Option<map<string, Value>>

  /** The row's keys, in enumeration order (Dictionary.Keys). */
  function Names(row: Row): (names: seq<string>)
    ensures |names| == |row|
    ensures forall i :: 0 <= i < |row| ==> names[i] == row[i].name
  {
    seq(|row|, i requires 0 <= i < |row| => row[i].name)
  }

  /** A dictionary never holds one key twice. */
  predicate WellFormed(row: Row) {
    forall i, j :: 0 <= i < j < |row| ==> row[i].name != row[j].name
  }

  /** The indexer row[key]: the value stored under `key`, if there is one. */
  function Lookup(row: Row, key: string): (v: Option<Value>)
    ensures v.None? <==> key !in Names(row)
    ensures v.Some? ==> exists i :: 0 <= i < |row| && row[i] == Column(key, v.value)
  {
    if |row| == 0 then None
    else if row[0].name == key then Some(row[0].value)
    else Lookup(row[1..], key)
  }

  /** In a well-formed row the indexer returns the column stored under that name. */
  lemma {:induction false} LookupAt(row: Row, i: nat)
    requires WellFormed(row) && i < |row|
    ensures Lookup(row, row[i].name) == Some(row[i].value)
  {
    if i > 0 {
      assert row[0].name != row[i].name;
      assert row[1..][i - 1] == row[i];
      LookupAt(row[1..], i - 1);
    }
  }
}
