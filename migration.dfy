/** The per-collection loop of migrate_mongo_to_sql: export, load, and delete
    the staging file only after a successful load. */
module Migration {
  import opened Documents
  import opened Driver
  import opened Loader
  import opened Sequences

  /** What the export step leaves for one collection: whether mongoexport
      exited with status 0, whether <collection>.json then exists with a
      non-zero size, and what json.load makes of it. */
  datatype Export = Export(collection: string, exported: bool, present: bool, payload: Payload)

  /** The staging file mongoexport writes for a collection. */
  function StagingFile(collection: string): string {
    collection + ".json"
  }

  /** process_json_file is called for this collection. */
  predicate Loads(e: Export) {
    e.exported && e.present
  }

  /** What the script needs of every staging file it loads. */
  predicate Loadable(exports: seq<Export>) {
    forall i :: 0 <= i < |exports| && Loads(exports[i]) ==> WellShaped(exports[i].payload)
  }

  /** The staging file is deleted: it was loaded and the load returned True. */
  predicate Removes(e: Export, accepts: Row -> bool, toText: ToText)
    requires Loads(e) ==> WellShaped(e.payload)
  {
    Loads(e) && ProcessResult(e.payload, e.collection, accepts, toText)
  }

  function CollectionCalls(e: Export, accepts: Row -> bool, toText: ToText): seq<Call>
    requires Loads(e) ==> WellShaped(e.payload)
  {
    if Loads(e) then ProcessCalls(e.payload, e.collection, accepts, toText) else []
  }

  function CollectionTables(catalog: Catalog, e: Export): Catalog
    requires Loads(e) ==> WellShaped(e.payload)
  {
    if Loads(e) then ProcessTables(catalog, e.payload, e.collection) else catalog
  }

  function CollectionCommitted(e: Export, accepts: Row -> bool, toText: ToText): seq<Row>
    requires Loads(e) ==> WellShaped(e.payload)
  {
    if Loads(e) then ProcessCommitted(e.payload, e.collection, accepts, toText) else []
  }

  // The whole run, collection after collection.

  function RemovedFiles(exports: seq<Export>, accepts: Row -> bool, toText: ToText): (files: seq<string>)
    requires Loadable(exports)
    ensures |files| <= |exports|
  {
    if exports == [] then []
    else
      var e := exports[|exports| - 1];
      RemovedFiles(exports[..|exports| - 1], accepts, toText)
        + (if Removes(e, accepts, toText) then [StagingFile(e.collection)] else [])
  }

  function RunCalls(exports: seq<Export>, accepts: Row -> bool, toText: ToText): seq<Call>
    requires Loadable(exports)
  {
    if exports == [] then []
    else RunCalls(exports[..|exports| - 1], accepts, toText) + CollectionCalls(exports[|exports| - 1], accepts, toText)
  }

  function RunTables(catalog: Catalog, exports: seq<Export>): Catalog
    requires Loadable(exports)
  {
    if exports == [] then catalog
    else CollectionTables(RunTables(catalog, exports[..|exports| - 1]), exports[|exports| - 1])
  }

  function RunCommitted(exports: seq<Export>, accepts: Row -> bool, toText: ToText): seq<Row>
    requires Loadable(exports)
  {
    if exports == [] then []
    else RunCommitted(exports[..|exports| - 1], accepts, toText) + CollectionCommitted(exports[|exports| - 1], accepts, toText)
  }

  /** The run over the first i + 1 collections is the run over the first i
      followed by collection i. */
  lemma RunStep(exports: seq<Export>, i: nat, accepts: Row -> bool, toText: ToText)
    requires i < |exports| && Loadable(exports)
    ensures Loadable(exports[..i]) && Loadable(exports[..i + 1])
    ensures RemovedFiles(exports[..i + 1], accepts, toText) == RemovedFiles(exports[..i], accepts, toText)
      + (if Removes(exports[i], accepts, toText) then [StagingFile(exports[i].collection)] else [])
    ensures RunCalls(exports[..i + 1], accepts, toText) == RunCalls(exports[..i], accepts, toText) + CollectionCalls(exports[i], accepts, toText)
    ensures forall catalog :: RunTables(catalog, exports[..i + 1]) == CollectionTables(RunTables(catalog, exports[..i]), exports[i])
    ensures RunCommitted(exports[..i + 1], accepts, toText) == RunCommitted(exports[..i], accepts, toText) + CollectionCommitted(exports[i], accepts, toText)
  {
    assert exports[..i + 1][..i] == exports[..i];
  }

  /** One pass of the loop body. A failed export skips the collection without
      touching the database; a missing or empty file is skipped too; otherwise
      the file is loaded and deleted exactly when the load returned True. */
  method MigrateCollection(e: Export, db: Database, toText: ToText) returns (removed: bool)
    requires Loads(e) ==> WellShaped(e.payload)
    requires db.pending == []
    modifies db
    ensures removed == Removes(e, db.accepts, toText)
    ensures db.calls == old(db.calls) + CollectionCalls(e, db.accepts, toText)
    ensures db.tables == CollectionTables(old(db.tables), e)
    ensures db.pending == []
    ensures db.committed == old(db.committed) + CollectionCommitted(e, db.accepts, toText)
    ensures !Loads(e) ==> db.calls == old(db.calls) && db.committed == old(db.committed)
  {
    removed := false;
    if !e.exported {
      return;
    }
    if e.present {
      var success := ProcessJsonFile(e.payload, e.collection, db, toText);
      if IsBatch(e.payload) {
        AppendEmpty(PayloadRows(e.payload, e.collection, toText));
      }
      if success {
        removed := true;
      }
    }
  }

  /** The loop over all collections: each one is handled on its own, in order,
      and the names of the deleted staging files are returned in that order. */
  method MigrateMongoToSql(exports: seq<Export>, db: Database, toText: ToText) returns (removed: seq<string>)
    requires Loadable(exports)
    requires db.pending == []
    modifies db
    ensures removed == RemovedFiles(exports, db.accepts, toText)
    ensures db.calls == old(db.calls) + RunCalls(exports, db.accepts, toText)
    ensures db.tables == RunTables(old(db.tables), exports)
    ensures db.pending == []
    ensures db.committed == old(db.committed) + RunCommitted(exports, db.accepts, toText)
  {
    removed := [];
    var i := 0;
    while i < |exports|
      invariant 0 <= i <= |exports|
      invariant Loadable(exports[..i])
      invariant removed == RemovedFiles(exports[..i], db.accepts, toText)
      invariant db.calls == old(db.calls) + RunCalls(exports[..i], db.accepts, toText)
      invariant db.tables == RunTables(old(db.tables), exports[..i])
      invariant db.pending == []
      invariant db.committed == old(db.committed) + RunCommitted(exports[..i], db.accepts, toText)
    {
      var e := exports[i];
      RunStep(exports, i, db.accepts, toText);
      var deleted := MigrateCollection(e, db, toText);
      if deleted {
        removed := removed + [StagingFile(e.collection)];
      }
      AppendAssociative(old(db.calls), RunCalls(exports[..i], db.accepts, toText), CollectionCalls(e, db.accepts, toText));
      AppendAssociative(old(db.committed), RunCommitted(exports[..i], db.accepts, toText), CollectionCommitted(e, db.accepts, toText));
      i := i + 1;
    }
    assert exports[..i] == exports;
  }

  /** A staging file is deleted exactly when its collection was exported, the
      file was there and non-empty, and the load returned True. */
  lemma {:induction false} RemovedFilesExactly(exports: seq<Export>, accepts: Row -> bool, toText: ToText)
    requires Loadable(exports)
    ensures forall i :: 0 <= i < |exports| && Removes(exports[i], accepts, toText) ==>
      StagingFile(exports[i].collection) in RemovedFiles(exports, accepts, toText)
    ensures forall f :: f in RemovedFiles(exports, accepts, toText) ==>
      exists i :: 0 <= i < |exports| && Removes(exports[i], accepts, toText) && f == StagingFile(exports[i].collection)
  {
    if exports != [] {
      var front := exports[..|exports| - 1];
      assert Loadable(front);
      RemovedFilesExactly(front, accepts, toText);
      forall i | 0 <= i < |front| ensures front[i] == exports[i] { }
    }
  }

  /** Collections do not affect one another's calls: the calls of a run are
      those of its first part followed by those of the rest. */
  lemma {:induction false} RunCallsSplit(first: seq<Export>, rest: seq<Export>, accepts: Row -> bool, toText: ToText)
    requires Loadable(first) && Loadable(rest)
    ensures Loadable(first + rest)
    ensures RunCalls(first + rest, accepts, toText) == RunCalls(first, accepts, toText) + RunCalls(rest, accepts, toText)
    decreases |rest|
  {
    var all := first + rest;
    assert Loadable(all) by {
      forall i | 0 <= i < |all| && Loads(all[i]) ensures WellShaped(all[i].payload) {
        if i >= |first| { assert all[i] == rest[i - |first|]; }
      }
    }
    if rest == [] {
      assert all == first;
    } else {
      var front := rest[..|rest| - 1];
      assert Loadable(front);
      RunCallsSplit(first, front, accepts, toText);
      assert all[..|all| - 1] == first + front;
      AppendAssociative(RunCalls(first, accepts, toText), RunCalls(front, accepts, toText),
        CollectionCalls(rest[|rest| - 1], accepts, toText));
    }
  }
}
