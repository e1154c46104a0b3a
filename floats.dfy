/**
 * The slice comparisons of floats_test.go that the tests use to check that a
 * prediction left its input alone and that a nil and a caller-supplied output
 * agree. Both scan left to right and stop at the first disagreement.
 */
module Floats {

  /** Equal(s, t): same length and equal element by element (floats_test.go:9-19). */
  function Equal(s: seq<real>, t: seq<real>): (b: bool)
    ensures b <==> |s| == |t| && forall i :: 0 <= i < |s| ==> s[i] == t[i]
  {
    |s| == |t| && EqualFrom(s, t, 0)
  }

  /** The range loop of Equal from index i on: false at the first pair that differs. */
  function EqualFrom(s: seq<real>, t: seq<real>, i: nat): (b: bool)
    requires |s| == |t| && i <= |s|
    ensures b <==> forall k :: i <= k < |s| ==> s[k] == t[k]
    decreases |s| - i
  {
    if i == |s| then true
    else if s[i] != t[i] then false
    else EqualFrom(s, t, i + 1)
  }

  /** EqualFunc(s, t, f): same length and f holds of every pair (floats_test.go:38-49). */
  function EqualFunc(s: seq<real>, t: seq<real>, f: (real, real) -> bool): (b: bool)
    ensures b <==> |s| == |t| && forall i :: 0 <= i < |s| ==> f(s[i], t[i])
  {
    |s| == |t| && EqualFuncFrom(s, t, f, 0)
  }

  /** The range loop of EqualFunc from index i on. */
  function EqualFuncFrom(s: seq<real>, t: seq<real>, f: (real, real) -> bool, i: nat): (b: bool)
    requires |s| == |t| && i <= |s|
    ensures b <==> forall k :: i <= k < |s| ==> f(s[k], t[k])
    decreases |s| - i
  {
    if i == |s| then true
    else if !f(s[i], t[i]) then false
    else EqualFuncFrom(s, t, f, i + 1)
  }

  /** Equal holds exactly of identical slices, which is what "the input is unchanged" means. */
  lemma EqualIsIdentity(s: seq<real>, t: seq<real>)
    ensures Equal(s, t) <==> s == t
  {
    if Equal(s, t) {
      assert |s| == |t|;
      assert forall i :: 0 <= i < |s| ==> s[i] == t[i];
    }
  }

  /** Equal is EqualFunc with floating-point equality as the predicate. */
  lemma EqualIsEqualFunc(s: seq<real>, t: seq<real>)
    ensures Equal(s, t) == EqualFunc(s, t, (a, b) => a == b)
  {
  }
}
