/**
 * A fact about sequences that the loop proofs use at element types where the
 * solver is slow to find it on its own.
 */
module Seqs {
  /** Appending in two steps is appending the concatenation. */
  lemma ConcatAssoc<T>(a: seq<T>, b: seq<T>, c: seq<T>)
    ensures a + (b + c) == (a + b) + c
  {
  }
}
