/** Loading one staging file into its table inside one transaction
    (process_json_file): literal rendering, the insert loop, commit or rollback. */
module Loader {
  import opened Documents
  import opened Identifiers
  import opened Bson
  import opened Driver
  import opened Schema
  import opened Sequences

  // ---------------------------------------------------------------------------
  // Literal rendering

  const NullLiteral: string := "NULL"

  /** str.replace('\\', '\\\\'): every backslash doubled. */
  function EscapeBackslashes(s: string): (r: string)
    ensures |r| == |s| + multiset(s)['\\']
    ensures '\\' !in s ==> r == s
  {
    if s == [] then []
    else
      var r := (if s[0] == '\\' then "\\\\" else [s[0]]) + EscapeBackslashes(s[1..]);
      assert s == [s[0]] + s[1..];
      assert multiset(s) == multiset([s[0]]) + multiset(s[1..]);
      r
  }

  /** Reading a doubled backslash back as one backslash. */
  function HalveBackslashes(r: string): string
    decreases |r|
  {
    if r == [] then []
    else if |r| >= 2 && r[0] == '\\' && r[1] == '\\' then "\\" + HalveBackslashes(r[2..])
    else [r[0]] + HalveBackslashes(r[1..])
  }

  /** Halving the backslashes of an escaped text gives the text back. */
  lemma {:induction false} HalveInvertsEscape(s: string)
    ensures HalveBackslashes(EscapeBackslashes(s)) == s
  {
    if s != [] {
      var rest := EscapeBackslashes(s[1..]);
      var e := EscapeBackslashes(s);
      HalveInvertsEscape(s[1..]);
      if s[0] == '\\' {
        assert e == "\\\\" + rest;
        assert e[2..] == rest;
      } else {
        assert e == [s[0]] + rest;
        assert e[1..] == rest;
      }
      assert s == [s[0]] + s[1..];
    }
  }

  /** One value of the VALUES list: None is the bare NULL marker, anything else
      is str(value) with its backslashes doubled, between single quotes. */
  function RenderLiteral(v: Value, toText: ToText): (r: string)
    ensures r == NullLiteral <==> v.Null?
    ensures !v.Null? ==>
      |r| == |toText(v)| + multiset(toText(v))['\\'] + 2 &&
      r[0] == '\'' && r[|r| - 1] == '\'' && HalveBackslashes(r[1..|r| - 1]) == toText(v)
  {
    if v.Null? then NullLiteral
    else
      var text := toText(v);
      var r := "'" + EscapeBackslashes(text) + "'";
      HalveInvertsEscape(text);
      assert r[1..|r| - 1] == EscapeBackslashes(text);
      r
  }

  /** The VALUES list of one document: one literal per value, in key order. */
  function RenderValues(entries: Entries, toText: ToText): (r: seq<string>)
    ensures |r| == |entries|
    ensures forall i :: 0 <= i < |entries| ==> r[i] == RenderLiteral(entries[i].1, toText)
  {
    seq(|entries|, i requires 0 <= i < |entries| => RenderLiteral(entries[i].1, toText))
  }

  /** The INSERT for one converted document: its own keys as the column list. */
  function BuildRow(table: string, entries: Entries, toText: ToText): (row: Row)
    ensures row.table == table && row.columns == Keys(entries)
    ensures |row.values| == |entries|
    ensures forall i :: 0 <= i < |entries| ==> row.values[i] == RenderLiteral(entries[i].1, toText)
    ensures forall i :: 0 <= i < |entries| ==> (row.values[i] == NullLiteral <==> entries[i].1.Null?)
  {
    Row(table, Keys(entries), RenderValues(entries, toText))
  }

  // ---------------------------------------------------------------------------
  // The batch: inserts in order, stop at the first failure

  /** The index of the first row the engine rejects, or |rows| if it accepts all. */
  function FirstRejected(rows: seq<Row>, accepts: Row -> bool): (k: nat)
    ensures k <= |rows|
    ensures forall j :: 0 <= j < k ==> accepts(rows[j])
    ensures k < |rows| ==> !accepts(rows[k])
  {
    if rows == [] then 0
    else if !accepts(rows[0]) then 0
    else 1 + FirstRejected(rows[1..], accepts)
  }

  /** The properties of FirstRejected determine it. */
  lemma FirstRejectedIs(rows: seq<Row>, accepts: Row -> bool, k: nat)
    requires k <= |rows|
    requires forall j :: 0 <= j < k ==> accepts(rows[j])
    requires k < |rows| ==> !accepts(rows[k])
    ensures FirstRejected(rows, accepts) == k
  {
  }

  /** The batch commits exactly when every row is accepted. */
  predicate LoadSucceeds(rows: seq<Row>, accepts: Row -> bool) {
    FirstRejected(rows, accepts) == |rows|
  }

  lemma LoadSucceedsIff(rows: seq<Row>, accepts: Row -> bool)
    ensures LoadSucceeds(rows, accepts) <==> forall j :: 0 <= j < |rows| ==> accepts(rows[j])
  {
  }

  function InsertCalls(rows: seq<Row>): (calls: seq<Call>)
    ensures |calls| == |rows|
    ensures forall j :: 0 <= j < |rows| ==> calls[j] == Insert(rows[j])
  {
    seq(|rows|, j requires 0 <= j < |rows| => Insert(rows[j]))
  }

  lemma InsertCallsStep(rows: seq<Row>, i: nat)
    requires i < |rows|
    ensures rows[..i + 1] == rows[..i] + [rows[i]]
    ensures InsertCalls(rows[..i + 1]) == InsertCalls(rows[..i]) + [Insert(rows[i])]
  {
    assert rows[..i + 1] == rows[..i] + [rows[i]];
  }

  /** The calls the insert loop makes: every row up to and including the first
      rejected one, then a rollback; or every row, then one commit. */
  function LoadCalls(rows: seq<Row>, accepts: Row -> bool): (calls: seq<Call>)
    ensures |calls| == (if LoadSucceeds(rows, accepts) then |rows| else FirstRejected(rows, accepts) + 1) + 1
    ensures forall j :: 0 <= j < |calls| - 1 ==> calls[j] == Insert(rows[j])
    ensures calls[|calls| - 1] == if LoadSucceeds(rows, accepts) then Commit else Rollback
  {
    var k := FirstRejected(rows, accepts);
    if k == |rows| then InsertCalls(rows) + [Commit]
    else InsertCalls(rows[..k + 1]) + [Rollback]
  }

  /** Inserts are issued in row order and none after the first failure; the
      batch ends with exactly one commit when all rows were accepted, and
      otherwise with exactly one rollback after the rejected row and no commit. */
  lemma LoadCallsShape(rows: seq<Row>, accepts: Row -> bool)
    ensures var calls := LoadCalls(rows, accepts);
      var n := |calls| - 1;
      && 0 <= n <= |rows|
      && (forall j :: 0 <= j < n ==> calls[j] == Insert(rows[j]))
      && (LoadSucceeds(rows, accepts) ==> n == |rows| && calls[n] == Commit)
      && (!LoadSucceeds(rows, accepts) ==>
            0 < n && !accepts(rows[n - 1]) && calls[n] == Rollback &&
            forall j :: 0 <= j < n - 1 ==> accepts(rows[j]))
      && multiset(calls)[Commit] == (if LoadSucceeds(rows, accepts) then 1 else 0)
      && multiset(calls)[Rollback] == (if LoadSucceeds(rows, accepts) then 0 else 1)
  {
    var k := FirstRejected(rows, accepts);
    var inserted := if k == |rows| then rows else rows[..k + 1];
    var ins := InsertCalls(inserted);
    assert Commit !in ins && Rollback !in ins;
    assert multiset(ins)[Commit] == 0 && multiset(ins)[Rollback] == 0;
  }

  // ---------------------------------------------------------------------------
  // process_json_file

  /** What json.load gives: a decode error, or a value. */
  datatype Payload = Undecodable | Decoded(data: Value)

  /** What the function needs of a decoded value to run without raising:
      a list has a first element (data[0]) and holds only dicts (.items()). */
  predicate WellShaped(p: Payload) {
    p.Decoded? && p.data.List? ==>
      |p.data.items| > 0 && forall i :: 0 <= i < |p.data.items| ==> p.data.items[i].Dict?
  }

  /** A list or a dict is loaded; any other value is skipped. */
  predicate IsBatch(p: Payload) {
    p.Decoded? && (p.data.List? || p.data.Dict?)
  }

  /** The documents to load: the list's elements, or the dict alone. */
  function Batch(p: Payload): (docs: seq<Value>)
    requires IsBatch(p) && WellShaped(p)
    ensures |docs| > 0
    ensures forall i :: 0 <= i < |docs| ==> docs[i].Dict?
  {
    if p.data.List? then p.data.items else [p.data]
  }

  /** The INSERTs of a batch: each document converted, then rendered. */
  function BatchRows(table: string, docs: seq<Value>, toText: ToText): (rows: seq<Row>)
    requires forall i :: 0 <= i < |docs| ==> docs[i].Dict?
    ensures |rows| == |docs|
    ensures forall i :: 0 <= i < |docs| ==>
      rows[i] == BuildRow(table, NormalizedEntries(docs[i].entries, toText), toText)
  {
    seq(|docs|, i requires 0 <= i < |docs| => BuildRow(table, NormalizedEntries(docs[i].entries, toText), toText))
  }

  function PayloadRows(p: Payload, collection: string, toText: ToText): seq<Row>
    requires IsBatch(p) && WellShaped(p)
  {
    BatchRows(SanitizeTableName(collection), Batch(p), toText)
  }

  /** The return value: False on a decode error or a failed insert; True after
      a commit, and True for a payload that is neither list nor dict. */
  function ProcessResult(p: Payload, collection: string, accepts: Row -> bool, toText: ToText): (ok: bool)
    requires WellShaped(p)
    ensures ok <==> p.Decoded? && (IsBatch(p) ==>
      var rows := PayloadRows(p, collection, toText);
      forall j :: 0 <= j < |rows| ==> accepts(rows[j]))
  {
    if p.Undecodable? then false
    else if IsBatch(p) then
      LoadSucceedsIff(PayloadRows(p, collection, toText), accepts);
      LoadSucceeds(PayloadRows(p, collection, toText), accepts)
    else true
  }

  /** The calls made: none unless the payload is a list or a dict; then the
      conditional CREATE from the first, unconverted document, and the batch. */
  function ProcessCalls(p: Payload, collection: string, accepts: Row -> bool, toText: ToText): (calls: seq<Call>)
    requires WellShaped(p)
    ensures !IsBatch(p) ==> calls == []
    ensures IsBatch(p) ==>
      && |calls| >= 2
      && calls[0] == CreateTableIfAbsent(SanitizeTableName(collection), SchemaOf(Batch(p)[0].entries))
      && |calls| == (if ProcessResult(p, collection, accepts, toText) then |PayloadRows(p, collection, toText)|
                     else FirstRejected(PayloadRows(p, collection, toText), accepts) + 1) + 2
      && (forall j :: 1 <= j < |calls| - 1 ==> calls[j] == Insert(PayloadRows(p, collection, toText)[j - 1]))
      && calls[|calls| - 1] == if ProcessResult(p, collection, accepts, toText) then Commit else Rollback
  {
    if IsBatch(p) then
      var rows := PayloadRows(p, collection, toText);
      var load := LoadCalls(rows, accepts);
      var calls := [CreateTableIfAbsent(SanitizeTableName(collection), SchemaOf(Batch(p)[0].entries))] + load;
      assert forall j :: 1 <= j < |calls| ==> calls[j] == load[j - 1];
      calls
    else []
  }

  function ProcessTables(catalog: Catalog, p: Payload, collection: string): Catalog
    requires WellShaped(p)
  {
    if IsBatch(p) then EnsureTable(catalog, SanitizeTableName(collection), SchemaOf(Batch(p)[0].entries))
    else catalog
  }

  /** The rows the function commits: the whole batch or nothing. */
  function ProcessCommitted(p: Payload, collection: string, accepts: Row -> bool, toText: ToText): seq<Row>
    requires WellShaped(p)
  {
    if IsBatch(p) && ProcessResult(p, collection, accepts, toText) then PayloadRows(p, collection, toText)
    else []
  }

  /** The statement for one document: the dict is converted in place, then its
      own keys become the column list and its values the literals. */
  method PrepareInsert(entry: Value, tableName: string, toText: ToText) returns (row: Row)
    requires entry.Dict?
    ensures row == BuildRow(tableName, NormalizedEntries(entry.entries, toText), toText)
  {
    var doc := new Document(entry.entries);
    doc := ConvertBsonToSqlFriendly(doc, toText);
    row := BuildRow(tableName, doc.entries, toText);
  }

  /** The insert loop of the list branch: each entry converted and inserted in
      order; the first failure rolls back and stops the loop, otherwise one commit. */
  method InsertEntries(data: seq<Value>, tableName: string, db: Database, toText: ToText) returns (ok: bool)
    requires forall i :: 0 <= i < |data| ==> data[i].Dict?
    modifies db
    ensures ok == LoadSucceeds(BatchRows(tableName, data, toText), db.accepts)
    ensures db.calls == old(db.calls) + LoadCalls(BatchRows(tableName, data, toText), db.accepts)
    ensures db.tables == old(db.tables) && db.pending == []
    ensures db.committed == old(db.committed) + (if ok then old(db.pending) + BatchRows(tableName, data, toText) else [])
  {
    ghost var rows := BatchRows(tableName, data, toText);
    var i := 0;
    while i < |data|
      invariant 0 <= i <= |data|
      invariant forall j :: 0 <= j < i ==> db.accepts(rows[j])
      invariant db.calls == old(db.calls) + InsertCalls(rows[..i])
      invariant db.pending == old(db.pending) + rows[..i]
      invariant db.tables == old(db.tables) && db.committed == old(db.committed)
    {
      var row := PrepareInsert(data[i], tableName, toText);
      var inserted := db.ExecuteInsert(row);
      InsertCallsStep(rows, i);
      AppendAssociative(old(db.calls), InsertCalls(rows[..i]), [Insert(rows[i])]);
      AppendAssociative(old(db.pending), rows[..i], [rows[i]]);
      if !inserted {
        FirstRejectedIs(rows, db.accepts, i);
        AppendAssociative(old(db.calls), InsertCalls(rows[..i + 1]), [Rollback]);
        db.RollbackTransaction();
        return false;
      }
      i := i + 1;
    }
    FirstRejectedIs(rows, db.accepts, i);
    assert rows[..i] == rows;
    AppendAssociative(old(db.calls), InsertCalls(rows), [Commit]);
    db.CommitTransaction();
    return true;
  }

  /** The dict branch: the single document converted and inserted, then a
      rollback on failure or one commit. */
  method InsertDocument(data: Value, tableName: string, db: Database, toText: ToText) returns (ok: bool)
    requires data.Dict?
    modifies db
    ensures ok == LoadSucceeds(BatchRows(tableName, [data], toText), db.accepts)
    ensures db.calls == old(db.calls) + LoadCalls(BatchRows(tableName, [data], toText), db.accepts)
    ensures db.tables == old(db.tables) && db.pending == []
    ensures db.committed == old(db.committed) + (if ok then old(db.pending) + BatchRows(tableName, [data], toText) else [])
  {
    ghost var rows := BatchRows(tableName, [data], toText);
    var row := PrepareInsert(data, tableName, toText);
    var inserted := db.ExecuteInsert(row);
    assert rows[..1] == rows;
    if !inserted {
      db.RollbackTransaction();
      return false;
    }
    db.CommitTransaction();
    return true;
  }

  /** The list branch: the table is created from the first, unconverted
      element, then the insert loop runs over every element. */
  method LoadList(items: seq<Value>, collection: string, db: Database, toText: ToText) returns (ok: bool)
    requires WellShaped(Decoded(List(items)))
    modifies db
    ensures ok == ProcessResult(Decoded(List(items)), collection, db.accepts, toText)
    ensures db.calls == old(db.calls) + ProcessCalls(Decoded(List(items)), collection, db.accepts, toText)
    ensures db.tables == ProcessTables(old(db.tables), Decoded(List(items)), collection)
    ensures db.pending == []
    ensures db.committed == old(db.committed) + (if ok then old(db.pending) + PayloadRows(Decoded(List(items)), collection, toText) else [])
  {
    var tableName := SanitizeTableName(collection);
    ghost var rows := PayloadRows(Decoded(List(items)), collection, toText);
    assert rows == BatchRows(tableName, items, toText);
    CreateTableIfNotExists(items[0].entries, tableName, db);
    ok := InsertEntries(items, tableName, db, toText);
    AppendAssociative(old(db.calls), [CreateTableIfAbsent(tableName, SchemaOf(items[0].entries))], LoadCalls(rows, db.accepts));
  }

  /** The dict branch: the table is created from the dict, which is then
      converted and inserted alone, as a one-row batch. */
  method LoadDict(data: Value, collection: string, db: Database, toText: ToText) returns (ok: bool)
    requires data.Dict?
    modifies db
    ensures ok == ProcessResult(Decoded(data), collection, db.accepts, toText)
    ensures db.calls == old(db.calls) + ProcessCalls(Decoded(data), collection, db.accepts, toText)
    ensures db.tables == ProcessTables(old(db.tables), Decoded(data), collection)
    ensures db.pending == []
    ensures db.committed == old(db.committed) + (if ok then old(db.pending) + PayloadRows(Decoded(data), collection, toText) else [])
  {
    var tableName := SanitizeTableName(collection);
    ghost var rows := PayloadRows(Decoded(data), collection, toText);
    assert rows == BatchRows(tableName, [data], toText);
    CreateTableIfNotExists(data.entries, tableName, db);
    ok := InsertDocument(data, tableName, db, toText);
    AppendAssociative(old(db.calls), [CreateTableIfAbsent(tableName, SchemaOf(data.entries))], LoadCalls(rows, db.accepts));
  }

  /** A decode error returns False and an unexpected shape returns True, both
      without touching the database; a list or a dict is loaded all or nothing
      and the result says whether it was committed. */
  method ProcessJsonFile(payload: Payload, collection: string, db: Database, toText: ToText) returns (ok: bool)
    requires WellShaped(payload)
    modifies db
    ensures ok == ProcessResult(payload, collection, db.accepts, toText)
    ensures db.calls == old(db.calls) + ProcessCalls(payload, collection, db.accepts, toText)
    ensures db.tables == ProcessTables(old(db.tables), payload, collection)
    ensures IsBatch(payload) ==>
      db.pending == [] &&
      db.committed == old(db.committed) + (if ok then old(db.pending) + PayloadRows(payload, collection, toText) else [])
    ensures !IsBatch(payload) ==> db.pending == old(db.pending) && db.committed == old(db.committed)
  {
    if payload.Undecodable? {
      return false;
    }
    var data := payload.data;
    if data.List? {
      var loaded := LoadList(data.items, collection, db, toText);
      if !loaded {
        return false;
      }
    } else if data.Dict? {
      var loaded := LoadDict(data, collection, db, toText);
      if !loaded {
        return false;
      }
    }
    return true;
  }
}
