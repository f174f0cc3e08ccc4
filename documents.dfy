/** Parsed JSON documents, as the loader receives them from json.load. */
module Documents {

  datatype Option<+T> = None | Some(value: T)

  /** A JSON value. A Dict lists its (key, value) pairs in the order the
      parsed dict keeps them; json.load builds a dict, so each key appears once. */
  datatype Value =
    | Null
    | Bool(b: bool)
    | Int(i: int)
    | Float(f: real)
    | Str(s: string)
    | Dict(entries: seq<(string, Value)>)
    | List(items: seq<Value>)

  /** The items of one dict, in order. */
  type Entries = seq<(string, Value)>

  /** Python's str() of a value. Its text (float formatting, the repr of nested
      structures) is not modelled: every operation that needs it takes it as a parameter. */
  type ToText = Value -> string

  /** The dict's keys, in order (entry.keys()). */
  function Keys(entries: Entries): (ks: seq<string>)
    ensures |ks| == |entries|
    ensures forall i :: 0 <= i < |entries| ==> ks[i] == entries[i].0
  {
    seq(|entries|, i requires 0 <= i < |entries| => entries[i].0)
  }

  /** `key in d` and `d[key]` together: the value stored under key, if any. */
  function Lookup(entries: Entries, key: string): (r: Option<Value>)
    ensures r.Some? <==> key in Keys(entries)
    ensures r.Some? ==> (key, r.value) in entries
  {
    if entries == [] then None
    else if entries[0].0 == key then Some(entries[0].1)
    else
      var r := Lookup(entries[1..], key);
      assert Keys(entries) == [entries[0].0] + Keys(entries[1..]);
      r
  }
}
