/** Column types inferred from one document, and the conditional table creation
    (create_table_if_not_exists). */
module Schema {
  import opened Documents
  import opened Driver
  import opened Bson

  /** isinstance(v, int): Python's bool is a subclass of int. */
  predicate IsPythonInt(v: Value) {
    v.Int? || v.Bool?
  }

  /** The type chosen for one value. The int test comes before the bool test,
      so booleans are typed INT and the BIT branch is never taken. */
  function ColumnType(v: Value): (t: SqlType)
    ensures t == SqlInt <==> v.Int? || v.Bool?
    ensures t == SqlFloat <==> v.Float?
    ensures t != SqlBit
    ensures t == SqlVarCharMax <==> v.Null? || v.Str? || v.Dict? || v.List?
  {
    if IsPythonInt(v) then SqlInt
    else if v.Float? then SqlFloat
    else if v.Bool? then SqlBit
    else if v.Dict? then SqlVarCharMax
    else SqlVarCharMax
  }

  /** The column list derived from a document: one column per key, in key order. */
  function SchemaOf(entries: Entries): (cols: seq<Column>)
    ensures |cols| == |entries|
    ensures forall i :: 0 <= i < |entries| ==> cols[i] == Column(entries[i].0, ColumnType(entries[i].1))
  {
    seq(|entries|, i requires 0 <= i < |entries| => Column(entries[i].0, ColumnType(entries[i].1)))
  }

  /** The loop that appends one `[key] TYPE` entry per key of the document. */
  method ColumnsWithTypes(data: Entries) returns (columns: seq<Column>)
    ensures columns == SchemaOf(data)
    ensures |columns| == |data|
    ensures forall i :: 0 <= i < |data| ==> columns[i].name == data[i].0
    ensures forall i :: 0 <= i < |data| ==> columns[i].sqlType != SqlBit
  {
    columns := [];
    var i := 0;
    while i < |data|
      invariant 0 <= i <= |data|
      invariant columns == SchemaOf(data[..i])
    {
      var (key, value) := data[i];
      var dataType := SqlVarCharMax;
      if value.Int? || value.Bool? {
        dataType := SqlInt;
      } else if value.Float? {
        dataType := SqlFloat;
      } else if value.Bool? {
        dataType := SqlBit;
      } else if value.Dict? {
        dataType := SqlVarCharMax;
      }
      columns := columns + [Column(key, dataType)];
      i := i + 1;
    }
    assert data[..i] == data;
  }

  /** Builds the column list from data and issues the conditional CREATE:
      an existing table is left as it is, a missing one gets exactly that list. */
  method CreateTableIfNotExists(data: Entries, tableName: string, db: Database)
    modifies db
    ensures db.tables == EnsureTable(old(db.tables), tableName, SchemaOf(data))
    ensures db.calls == old(db.calls) + [CreateTableIfAbsent(tableName, SchemaOf(data))]
    ensures db.pending == old(db.pending) && db.committed == old(db.committed)
  {
    var columns := ColumnsWithTypes(data);
    db.ExecuteCreateIfAbsent(tableName, columns);
  }

  /** The ObjectId conversion never changes a column's type, so creating the
      table from the raw first document or from its converted form is the same. */
  lemma SchemaIgnoresConversion(entries: Entries, toText: ToText)
    ensures SchemaOf(NormalizedEntries(entries, toText)) == SchemaOf(entries)
  {
    var converted := NormalizedEntries(entries, toText);
    assert Keys(converted) == Keys(entries);
    forall i | 0 <= i < |entries|
      ensures ColumnType(converted[i].1) == ColumnType(entries[i].1)
    {
      assert converted[i].0 == Keys(converted)[i];
    }
  }
}
