/** The dot product every kernel computes, over the reals. */
module DotProducts {
  function Dot(a: seq<real>, b: seq<real>): real
    requires |a| == |b|
  {
    if a == [] then 0.0 else Dot(a[..|a| - 1], b[..|b| - 1]) + a[|a| - 1] * b[|b| - 1]
  }

  lemma {:induction false} DotOfZeros(a: seq<real>, b: seq<real>)
    requires |a| == |b| && forall k | 0 <= k < |a| :: a[k] == 0.0
    ensures Dot(a, b) == 0.0
  {
    if a != [] { DotOfZeros(a[..|a| - 1], b[..|b| - 1]); }
  }

  /** What the dot product is, whatever way it is added up: changing one float changes it by the difference times the other
      vector's float there. With DotOfZeros this leaves nothing open. */
  lemma {:induction false} DotOfChanged(a: seq<real>, b: seq<real>, k: nat, x: real)
    requires |a| == |b| && k < |a|
    ensures Dot(a[k := x], b) == Dot(a, b) + (x - a[k]) * b[k]
  {
    var n := |a| - 1;
    if k < n {
      DotOfChanged(a[..n], b[..n], k, x);
      assert a[k := x][..n] == a[..n][k := x];
    } else {
      assert a[k := x][..n] == a[..n];
    }
  }
}
