/** Turning a collection name into a table identifier (sanitize_table_name). */
module Identifiers {

  /** A character of the regular-expression class [A-Za-z0-9_]. */
  predicate IsWordChar(c: char) {
    ('A' <= c <= 'Z') || ('a' <= c <= 'z') || ('0' <= c <= '9') || c == '_'
  }

  predicate IsIdentifier(s: string) {
    forall i :: 0 <= i < |s| ==> IsWordChar(s[i])
  }

  /** What re.sub(r'[^A-Za-z0-9_]', '_', ...) does to one character. */
  function SanitizeChar(c: char): (d: char)
    ensures IsWordChar(d)
    ensures IsWordChar(c) ==> d == c
  {
    if IsWordChar(c) then c else '_'
  }

  /** Every character outside [A-Za-z0-9_] becomes one underscore: a run of
      such characters gives as many underscores as it has characters. */
  function SanitizeTableName(name: string): (r: string)
    ensures |r| == |name|
    ensures forall i :: 0 <= i < |name| && IsWordChar(name[i]) ==> r[i] == name[i]
    ensures forall i :: 0 <= i < |name| && !IsWordChar(name[i]) ==> r[i] == '_'
    ensures IsIdentifier(r)
  {
    if name == [] then []
    else [SanitizeChar(name[0])] + SanitizeTableName(name[1..])
  }

  /** A name that is already an identifier is left as it is, and only such a name. */
  lemma {:induction false} SanitizeFixedPoints(name: string)
    ensures SanitizeTableName(name) == name <==> IsIdentifier(name)
  {
    if IsIdentifier(name) {
      var r := SanitizeTableName(name);
      assert forall i :: 0 <= i < |name| ==> r[i] == name[i];
    }
  }

  /** Sanitising twice is sanitising once. */
  lemma {:induction false} SanitizeIdempotent(name: string)
    ensures SanitizeTableName(SanitizeTableName(name)) == SanitizeTableName(name)
  {
    SanitizeFixedPoints(SanitizeTableName(name));
  }

  /** Two adjacent invalid characters give two underscores, not one. */
  lemma NoCollapsing()
    ensures SanitizeTableName("a--b") == "a__b"
  {
    var r := SanitizeTableName("a--b");
    assert "a--b"[1] == '-' && "a--b"[2] == '-' && !IsWordChar('-');
    assert r[0] == 'a' && r[1] == '_' && r[2] == '_' && r[3] == 'b';
  }
}
