/** The relational store as the script sees it through one pyodbc connection
    and its cursor: a catalog of tables, the rows of the open transaction, the
    committed rows and the log of calls made. Whether the engine accepts an
    INSERT is decided by an oracle fixed when the connection is made. */
module Driver {

  /** The column types create_table_if_not_exists can emit. */
  datatype SqlType = SqlInt | SqlFloat | SqlBit | SqlVarCharMax

  /** One `[key] TYPE` entry of a CREATE TABLE statement. */
  datatype Column = Column(name: string, sqlType: SqlType)

  /** One INSERT INTO [table] (columns) VALUES (values) statement; values are
      the rendered SQL literals. */
  datatype Row = Row(table: string, columns: seq<string>, values: seq<string>)

  /** The calls made on the cursor and the connection, in order. */
  datatype Call =
    | CreateTableIfAbsent(table: string, columns: seq<Column>)
    | Insert(row: Row)
    | Commit
    | Rollback

  type Catalog = map<string, seq<Column>>

  /** The effect of IF NOT EXISTS (... TABLE_NAME = t) CREATE TABLE [t] (...):
      an existing table keeps its columns; a missing one is created with cols. */
  function EnsureTable(catalog: Catalog, table: string, cols: seq<Column>): (r: Catalog)
    ensures r.Keys == catalog.Keys + {table}
    ensures r[table] == if table in catalog then catalog[table] else cols
    ensures forall t :: t in catalog && t != table ==> r[t] == catalog[t]
  {
    if table in catalog then catalog else catalog[table := cols]
  }

  /** Issuing the conditional CREATE a second time, with any columns, changes nothing. */
  lemma EnsureTableIdempotent(catalog: Catalog, table: string, cols: seq<Column>, again: seq<Column>)
    ensures EnsureTable(EnsureTable(catalog, table, cols), table, again) == EnsureTable(catalog, table, cols)
  {
  }

  class Database {
    var tables: Catalog
    var pending: seq<Row>
    var committed: seq<Row>
    var calls: seq<Call>
    /** The engine's verdict on an INSERT (cursor.execute raising or not). */
    const accepts: Row -> bool

    constructor (tables: Catalog, accepts: Row -> bool)
      ensures this.tables == tables && this.accepts == accepts
      ensures pending == [] && committed == [] && calls == []
    {
      this.tables := tables;
      this.accepts := accepts;
      pending, committed, calls := [], [], [];
    }

    /** cursor.execute of the conditional CREATE TABLE statement. */
    method ExecuteCreateIfAbsent(table: string, cols: seq<Column>)
      modifies this
      ensures tables == EnsureTable(old(tables), table, cols)
      ensures calls == old(calls) + [CreateTableIfAbsent(table, cols)]
      ensures pending == old(pending) && committed == old(committed)
    {
      tables := EnsureTable(tables, table, cols);
      calls := calls + [CreateTableIfAbsent(table, cols)];
    }

    /** cursor.execute of an INSERT; ok is false when it raises. */
    method ExecuteInsert(row: Row) returns (ok: bool)
      modifies this
      ensures ok == accepts(row)
      ensures pending == if ok then old(pending) + [row] else old(pending)
      ensures calls == old(calls) + [Insert(row)]
      ensures tables == old(tables) && committed == old(committed)
    {
      ok := accepts(row);
      if ok {
        pending := pending + [row];
      }
      calls := calls + [Insert(row)];
    }

    /** conn.commit(): the open transaction's rows become permanent. */
    method CommitTransaction()
      modifies this
      ensures committed == old(committed) + old(pending) && pending == []
      ensures calls == old(calls) + [Commit]
      ensures tables == old(tables)
    {
      committed := committed + pending;
      pending := [];
      calls := calls + [Commit];
    }

    /** conn.rollback(): the open transaction's rows are discarded. */
    method RollbackTransaction()
      modifies this
      ensures pending == [] && committed == old(committed)
      ensures calls == old(calls) + [Rollback]
      ensures tables == old(tables)
    {
      pending := [];
      calls := calls + [Rollback];
    }
  }
}
