/**
 * Go's built-in slice operations that the core relies on: `make([]float64, n)`
 * (a slice of n zeros) and `copy(dst, src)`, which overwrites the first
 * min(len(dst), len(src)) entries of dst and reports how many it copied.
 */
module Slices {

  function Min(a: int, b: int): int {
    if a <= b then a else b
  }

  /** The contents of a freshly made slice of length n. */
  function Zeros(n: nat): (z: seq<real>)
    ensures |z| == n
    ensures forall k :: 0 <= k < n ==> z[k] == 0.0
  {
    seq(n, _ => 0.0)
  }

  /** The contents of dst after Go's `copy(dst, src)`. */
  function Copy(dst: seq<real>, src: seq<real>): (r: seq<real>)
    ensures |r| == |dst|
    ensures forall k :: 0 <= k < |dst| ==> r[k] == if k < |src| then src[k] else dst[k]
  {
    if |src| >= |dst| then src[..|dst|] else src + dst[|src|..]
  }

  /** The count that Go's `copy(dst, src)` returns. */
  function CopyCount(dst: seq<real>, src: seq<real>): (n: nat)
    ensures n <= |dst| && n <= |src|
    ensures n == |dst| || n == |src|
  {
    if |src| <= |dst| then |src| else |dst|
  }

  /** Copying a source that is at most as long as the destination leaves it as the new prefix. */
  lemma CopyPrefix(dst: seq<real>, src: seq<real>)
    requires |src| <= |dst|
    ensures Copy(dst, src)[..|src|] == src
    ensures Copy(dst, src)[|src|..] == dst[|src|..]
  {
  }

  /** Copying a source of the destination's length replaces the destination outright. */
  lemma CopyWhole(dst: seq<real>, src: seq<real>)
    requires |src| == |dst|
    ensures Copy(dst, src) == src
  {
  }
}
