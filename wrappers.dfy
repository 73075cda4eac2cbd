/** Failure-carrying result types and small helpers shared by every module of the model. */
module Wrappers {

  /** A value that may be missing: Go's nil pointer or a map miss, Python's None. */
  datatype Option<+T> = None | Some(value: T)

  /** The outcome of an operation that can fail with a message (Go's `error`, a Python exception). */
  datatype Result<+T> = Ok(value: T) | Err(error: string)

  function Min(a: int, b: int): int { if a <= b then a else b }

  function MinReal(a: real, b: real): real { if a <= b then a else b }

  function MaxReal(a: real, b: real): real { if a >= b then a else b }

  /** `f` applied to each element of `s`, position by position. */
  function MapSeq<A, B>(s: seq<A>, f: A -> B): (r: seq<B>)
    ensures |r| == |s|
    ensures forall i :: 0 <= i < |s| ==> r[i] == f(s[i])
  {
    seq(|s|, i requires 0 <= i < |s| => f(s[i]))
  }

  /** The first `n` elements of `s`, or all of it when it is shorter (slicing `s[:n]`). */
  function Take<T>(s: seq<T>, n: nat): (r: seq<T>)
    ensures |r| == Min(n, |s|)
    ensures r == s[..|r|]
  {
    if n <= |s| then s[..n] else s
  }

  /** A share of a positive whole lies in [0, 1] and is the whole exactly when the part is. */
  lemma RatioInUnit(part: real, whole: real)
    requires 0.0 <= part <= whole && whole > 0.0
    ensures 0.0 <= part / whole <= 1.0
    ensures part / whole == 1.0 <==> part == whole
  {
    var r := part / whole;
    assert r * whole == part;
  }
}
