/** Option and Result, the failure-carrying values used throughout the model. */
module Wrappers {

  /** A value that may be absent; for a JavaScript property read, None is `undefined`. */
  datatype Option<+T> = None | Some(value: T)

  /** The outcome of an operation that may throw. */
  datatype Result<+T, +E> = Ok(value: T) | Err(error: E)
}

/** Small facts about sequences that several modules share. */
module Seqs {

  function Min(a: int, b: int): int
  {
    if a <= b then a else b
  }

  /** The elements of `s` in the opposite order. */
  function Reverse<T>(s: seq<T>): (r: seq<T>)
    ensures |r| == |s|
    ensures forall k :: 0 <= k < |s| ==> r[k] == s[|s| - 1 - k]
  {
    if s == [] then [] else Reverse(s[1..]) + [s[0]]
  }

  /** Taking a prefix of `x + y[..m]` that ends inside `y[..m]` is taking a prefix of `x + y`. */
  lemma PrefixOfTruncated<T>(x: seq<T>, y: seq<T>, m: nat, n: nat)
    requires m <= |y|
    requires n <= |x| + m
    ensures (x + y[..m])[..n] == (x + y)[..n]
  {
    assert forall k :: 0 <= k < n ==> (x + y[..m])[k] == (x + y)[k];
  }
}
