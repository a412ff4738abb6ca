/** Facts about sequences that the solver finds only slowly on its own. */
module Sequences {

  /** Concatenation is associative; stating it once per step keeps the
      proofs of the emitting and accumulating loops small. */
  lemma Assoc<T>(a: seq<T>, b: seq<T>, c: seq<T>)
    ensures (a + b) + c == a + (b + c)
  {
  }
}
