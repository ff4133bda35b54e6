// Small facts about sequences that the solver does not find on its own.
module Seqs {
  /** Concatenation regroups. Stated once, so that proofs which append to a
      log step by step need not rediscover it. */
  lemma AppendAssoc<T>(a: seq<T>, b: seq<T>, c: seq<T>)
    ensures a + (b + c) == a + b + c
  {
  }
}
