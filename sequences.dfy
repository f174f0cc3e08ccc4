/** Facts about sequences that the loop proofs use. */
module Sequences {

  /** Appending is associative; stated once so that the loop proofs need not
      rediscover it on large terms. */
  lemma AppendAssociative<T>(a: seq<T>, b: seq<T>, c: seq<T>)
    ensures a + (b + c) == (a + b) + c
  {
  }

  /** The empty sequence is a left unit of appending. */
  lemma AppendEmpty<T>(a: seq<T>)
    ensures [] + a == a
  {
  }
}
