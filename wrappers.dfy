/** Option and Result values for the nil pointers and error returns of the Go code, and the
    one sequence fact the proofs share. */
module Wrappers {

  datatype Option<+T> = None | Some(value: T)

  datatype Result<+T, +E> = Ok(value: T) | Err(error: E)

  /** Concatenation regrouped, for proofs that build a log, a write list or a string piece
      by piece. */
  lemma SeqAssoc<T>(a: seq<T>, b: seq<T>, c: seq<T>)
    ensures a + (b + c) == a + b + c
  {
  }
}
