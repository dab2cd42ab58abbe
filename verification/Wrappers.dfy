/** Shared vocabulary of the model. */
module Wrappers {
  datatype Option<+T> = None | Some(value: T)

  /** Random identifiers are opaque: the model only ever compares them. */
  type Guid = nat

  /** A clock reading, in milliseconds. */
  type Time = int

  /** Largest counter JavaScript represents exactly, 2^53 - 1. */
  const MAX_SAFE_INTEGER: nat := 9007199254740991

  predicate ValidCounter(n: nat) { n < MAX_SAFE_INTEGER }

  /**
   * What happens to one database or bucket call: the caller sees its result,
   * the effect is kept but the caller sees an exception, or nothing happens
   * and the caller sees an exception.
   */
  datatype Fate = Acked | AckLost | Failed
  {
    predicate Effective() { !Failed? }
  }

  /** No element occurs twice. */
  predicate Distinct<T(==)>(s: seq<T>) {
    forall i, j | 0 <= i < j < |s| :: s[i] != s[j]
  }
}
