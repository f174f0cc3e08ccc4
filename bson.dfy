/** Rewriting extended-JSON object identifiers into plain text
    (convert_bson_to_sql_friendly). */
module Bson {
  import opened Documents

  /** The marker key mongoexport writes for an ObjectId: {"$oid": "..."}. */
  const OidKey: string := "$oid"

  /** isinstance(v, dict) and "$oid" in v */
  predicate IsOidRef(v: Value) {
    v.Dict? && Lookup(v.entries, OidKey).Some?
  }

  /** str(v["$oid"]) */
  function OidText(v: Value, toText: ToText): string
    requires IsOidRef(v)
  {
    toText(Lookup(v.entries, OidKey).value)
  }

  /** What the list comprehension does to one element of a list value. */
  function NormalizedItem(item: Value, toText: ToText): Value {
    if IsOidRef(item) then Str(OidText(item, toText)) else item
  }

  /** What the loop does to the value stored under one key: one level deep only. */
  function NormalizedValue(v: Value, toText: ToText): Value {
    if IsOidRef(v) then Str(OidText(v, toText))
    else if v.List? then List(seq(|v.items|, j requires 0 <= j < |v.items| => NormalizedItem(v.items[j], toText)))
    else v
  }

  /** The dict after the conversion: same keys in the same order; an ObjectId
      reference becomes its text; a list keeps its length and only its ObjectId
      elements become text; every other value is left as it is. */
  function NormalizedEntries(entries: Entries, toText: ToText): (r: Entries)
    ensures Keys(r) == Keys(entries)
    ensures forall i :: 0 <= i < |entries| && IsOidRef(entries[i].1) ==>
      r[i].1 == Str(OidText(entries[i].1, toText))
    ensures forall i :: 0 <= i < |entries| && entries[i].1.List? ==>
      r[i].1.List? && |r[i].1.items| == |entries[i].1.items| &&
      forall j :: 0 <= j < |entries[i].1.items| ==>
        r[i].1.items[j] == if IsOidRef(entries[i].1.items[j]) then Str(OidText(entries[i].1.items[j], toText))
                           else entries[i].1.items[j]
    ensures forall i :: 0 <= i < |entries| && !IsOidRef(entries[i].1) && !entries[i].1.List? ==>
      r[i] == entries[i]
  {
    seq(|entries|, i requires 0 <= i < |entries| => (entries[i].0, NormalizedValue(entries[i].1, toText)))
  }

  /** Converting an already converted dict changes nothing. */
  lemma NormalizeIdempotent(entries: Entries, toText: ToText)
    ensures NormalizedEntries(NormalizedEntries(entries, toText), toText) == NormalizedEntries(entries, toText)
  {
    var once := NormalizedEntries(entries, toText);
    var twice := NormalizedEntries(once, toText);
    forall i | 0 <= i < |entries|
      ensures twice[i] == once[i]
    {
      var v := entries[i].1;
      if v.List? && !IsOidRef(v) {
        var items := once[i].1.items;
        assert NormalizedValue(once[i].1, toText).items == items;
      }
    }
  }

  /** A Python dict, which the conversion updates in place. */
  class Document {
    var entries: Entries

    constructor (entries: Entries)
      ensures this.entries == entries
    {
      this.entries := entries;
    }
  }

  /** Rewrites data's values key by key and hands back the same dict. */
  method ConvertBsonToSqlFriendly(data: Document, toText: ToText) returns (r: Document)
    modifies data
    ensures r == data
    ensures data.entries == NormalizedEntries(old(data.entries), toText)
  {
    ghost var original := data.entries;
    var i := 0;
    while i < |data.entries|
      invariant 0 <= i <= |data.entries| == |original|
      invariant forall k :: 0 <= k < i ==> data.entries[k] == (original[k].0, NormalizedValue(original[k].1, toText))
      invariant forall k :: i <= k < |original| ==> data.entries[k] == original[k]
    {
      var (key, value) := data.entries[i];
      if value.Dict? && Lookup(value.entries, OidKey).Some? {
        data.entries := data.entries[i := (key, Str(toText(Lookup(value.entries, OidKey).value)))];
      } else if value.List? {
        var items := seq(|value.items|, j requires 0 <= j < |value.items| =>
          if value.items[j].Dict? && Lookup(value.items[j].entries, OidKey).Some?
          then Str(toText(Lookup(value.items[j].entries, OidKey).value))
          else value.items[j]);
        assert forall j :: 0 <= j < |items| ==> items[j] == NormalizedItem(value.items[j], toText);
        assert List(items) == NormalizedValue(value, toText);
        data.entries := data.entries[i := (key, List(items))];
      }
      i := i + 1;
    }
    r := data;
  }
}
