/** Facts about sequences shared by the modules of the model. */
module Sequences {

  /** Concatenation is associative; stated once so that long proofs need not rediscover it. */
  lemma Associative<T>(a: seq<T>, b: seq<T>, c: seq<T>)
    ensures (a + b) + c == a + (b + c)
  {
  }
}
