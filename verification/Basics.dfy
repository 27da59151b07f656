/** An optional value. */
module Options {
  datatype Option<+T> = None | Some(value: T)
}

/** Sequence algebra that proofs ask for by name. */
module Sequences {
  lemma Associative<T>(a: seq<T>, b: seq<T>, c: seq<T>)
    ensures a + b + c == a + (b + c)
  {
  }
}
