/** Optional values and the outcome of a step that can throw. */
module Wrappers {

  /** A value that may be absent; `None` stands for JavaScript's `undefined`. */
  datatype Option<+T> = None | Some(value: T)

  /** A step that either yields a value or throws an error described by `error`. */
  datatype Result<+T, +E> = Success(value: T) | Failure(error: E)

  // Sequence prefixes, stated for any element type so that no solver reasoning about
  // the elements is needed.

  /** Extending a prefix by one element. */
  lemma PrefixGrows<T>(s: seq<T>, i: nat)
    requires 0 < i <= |s|
    ensures s[..i] == s[..i - 1] + [s[i - 1]]
  {
  }

  lemma PrefixWhole<T>(s: seq<T>)
    ensures s[..|s|] == s
  {
  }
}
