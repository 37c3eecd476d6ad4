/** Option and Result, the shapes the application uses for JavaScript's
    null/undefined and for Rust's Option/Result, and one fact about the
    sequences the application appends to. */
module Wrappers {

  datatype Option<+T> = None | Some(value: T)

  datatype Result<+T, +E> = Ok(value: T) | Err(error: E)

  /** Appending keeps the earlier elements in place. */
  lemma AppendedAt<T>(es: seq<T>, e: T)
    ensures forall k :: 0 <= k < |es| ==> (es + [e])[k] == es[k]
    ensures (es + [e])[|es|] == e
  {
  }
}
