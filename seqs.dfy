/** Small facts about sequences that the method proofs share. */
module Seqs {

  /**
   * Regrouping a concatenation. Called inside method proofs so that the
   * regrouping is settled here rather than beside their heap reasoning.
   */
  lemma Associate<T>(a: seq<T>, b: seq<T>, c: seq<T>)
    ensures a + b + c == a + (b + c)
  {
  }
}
