/** What normalisation is for: unit vectors, and dot products that are cosines. */
module Cosines {
  import opened DotProducts
  import opened MapReduce
  import opened VectorOps

  // Rules for products of reals, one at a time.
  lemma Distribute(x: real, y: real, z: real)
    ensures x * (y + z) == x * y + x * z
  {
  }

  lemma ProductIsPositive(x: real, y: real)
    requires x >= 0.0 && y >= 0.0
    ensures x * y >= 0.0
    ensures x > 0.0 && y > 0.0 ==> x * y > 0.0
  {
  }

  lemma Split(x: real, y: real, z: real, sum: real)
    requires sum == y + z
    ensures x * sum == x * y + x * z
  {
  }

  lemma SquareIsPositive(x: real)
    ensures x * x >= 0.0
  {
  }

  lemma {:induction false} DotIsSymmetric(a: seq<real>, b: seq<real>)
    requires |a| == |b|
    ensures Dot(a, b) == Dot(b, a)
  {
    if a != [] { DotIsSymmetric(a[..|a| - 1], b[..|b| - 1]); }
  }

  lemma {:induction false} SquaresArePositive(a: seq<real>)
    ensures Dot(a, a) >= 0.0
  {
    if a != [] {
      SquaresArePositive(a[..|a| - 1]);
      SquareIsPositive(a[|a| - 1]);
    }
  }

  lemma ScaleTerm(x: real, n: real, y: real, front: real)
    ensures n * front + (x * n) * y == n * (front + x * y)
  {
  }

  lemma {:induction false} DotOfScaled(a: seq<real>, b: seq<real>, n: real)
    requires |a| == |b|
    ensures Dot(Scaled(a, n), b) == n * Dot(a, b)
  {
    if a != [] {
      var front := a[..|a| - 1];
      assert Scaled(a, n)[..|a| - 1] == Scaled(front, n);
      DotOfScaled(front, b[..|b| - 1], n);
      ScaleTerm(a[|a| - 1], n, b[|b| - 1], Dot(front, b[..|b| - 1]));
    }
  }

  lemma ScaledSquare(a: seq<real>, n: real)
    ensures Dot(Scaled(a, n), Scaled(a, n)) == n * n * Dot(a, a)
  {
    DotOfScaled(a, Scaled(a, n), n);
    DotIsSymmetric(a, Scaled(a, n));
    DotOfScaled(a, a, n);
  }

  lemma SquareGrows(x: real, y: real)
    requires 0.0 <= x < y
    ensures x * x < y * y
  {
    ProductIsPositive(y - x, x + y);
    assert (y - x) * (x + y) == y * y - x * x;
  }

  lemma RootIsUnique(root: real -> real, x: real, r: real)
    requires IsRoot(root) && x >= 0.0 && r >= 0.0 && r * r == x
    ensures root(x) == r
  {
    if root(x) < r { SquareGrows(root(x), r); }
    if r < root(x) { SquareGrows(r, root(x)); }
  }

  lemma NormSquare(root: real -> real, v: seq<real>)
    requires IsRoot(root)
    ensures Norm(root, v) >= 0.0 && Norm(root, v) * Norm(root, v) == Dot(v, v)
  {
    SquaresArePositive(v);
  }

  lemma Reciprocal(x: real, n: real, square: real)
    requires x > 0.0 && n == 1.0 / x && square == x * x
    ensures n * n * square == 1.0
  {
    assert n * x == 1.0;
    assert n * n * (x * x) == (n * x) * (n * x);
  }

  lemma UnitAfterScaling(v: seq<real>, norm: real, n: real)
    requires norm > 0.0 && n == 1.0 / norm && Dot(v, v) == norm * norm
    ensures Dot(Scaled(v, n), Scaled(v, n)) == 1.0
  {
    ScaledSquare(v, n);
    Reciprocal(norm, n, Dot(v, v));
  }

  lemma Rescaled(x: real, norm: real)
    requires norm > 0.0
    ensures Product(x, 1.0 / norm) * norm == x
  {
  }

  // The direction stays: every float of the result times the old norm is the old float.
  lemma NormalizedKeepsDirection(root: real -> real, v: seq<real>, k: nat)
    requires IsRoot(root) && k < |v| && root(Dot(v, v)) >= 0.00001
    ensures Normalized(root, v)[k] * root(Dot(v, v)) == v[k]
  {
    Rescaled(v[k], root(Dot(v, v)));
  }

  /** A vector that is not nearly zero gets norm 1 and its old norm is returned; any other is left as it is and 0 is
      returned. */
  lemma NormalizedIsUnit(root: real -> real, v: seq<real>)
    requires IsRoot(root)
    ensures root(Dot(v, v)) >= 0.00001 ==>
              && Norm(root, Normalized(root, v)) == 1.0 && Dot(Normalized(root, v), Normalized(root, v)) == 1.0
              && NormReturned(root, v) == root(Dot(v, v))
    ensures root(Dot(v, v)) < 0.00001 ==> Normalized(root, v) == v && NormReturned(root, v) == 0.0
  {
    NormSquare(root, v);
    var norm := Norm(root, v);
    if norm >= FLOAT_ZERO_EPSILON {
      UnitAfterScaling(v, norm, 1.0 / norm);
      RootIsUnique(root, 1.0, 1.0);
    }
  }

  lemma ScaledByOne(v: seq<real>)
    ensures Scaled(v, 1.0) == v
  {
    forall k | 0 <= k < |v| ensures Scaled(v, 1.0)[k] == v[k] { }
  }

  // A second call changes nothing.
  lemma NormalizeIsIdempotent(root: real -> real, v: seq<real>)
    requires IsRoot(root)
    ensures Normalized(root, Normalized(root, v)) == Normalized(root, v)
  {
    NormalizedIsUnit(root, v);
    if Norm(root, v) >= FLOAT_ZERO_EPSILON {
      ScaledByOne(Normalized(root, v));
    }
  }

  // x times a plus y times b.
  function Mix(a: seq<real>, b: seq<real>, x: real, y: real): (r: seq<real>)
    requires |a| == |b|
    ensures |r| == |a|
  {
    seq(|a|, k requires 0 <= k < |a| => Product(a[k], x) + Product(b[k], y))
  }

  lemma MixTerm(s: real, t: real, x: real, y: real)
    ensures (s * x + t * y) * (s * x + t * y) == x * x * (s * s) + 2.0 * (x * y) * (s * t) + y * y * (t * t)
  {
    var u, v := s * x, t * y;
    assert (u + v) * (u + v) == u * u + 2.0 * (u * v) + v * v;
    assert u * u == x * x * (s * s);
    assert v * v == y * y * (t * t);
    assert u * v == (x * y) * (s * t);
    assert 2.0 * (u * v) == 2.0 * (x * y) * (s * t);
  }

  function MixSquare(x: real, y: real, aa: real, ab: real, bb: real): real {
    x * x * aa + 2.0 * (x * y) * ab + y * y * bb
  }

  lemma MixSquareAdds(x: real, y: real, aa: real, ab: real, bb: real, s: real, t: real)
    ensures MixSquare(x, y, aa + s * s, ab + s * t, bb + t * t)
            == MixSquare(x, y, aa, ab, bb) + (s * x + t * y) * (s * x + t * y)
  {
    MixTerm(s, t, x, y);
    Distribute(x * x, aa, s * s);
    Distribute(2.0 * (x * y), ab, s * t);
    Distribute(y * y, bb, t * t);
  }

  lemma {:induction false} DotOfMix(a: seq<real>, b: seq<real>, x: real, y: real)
    requires |a| == |b|
    ensures Dot(Mix(a, b, x, y), Mix(a, b, x, y)) == MixSquare(x, y, Dot(a, a), Dot(a, b), Dot(b, b))
  {
    if a != [] {
      var n := |a| - 1;
      assert Mix(a, b, x, y)[..n] == Mix(a[..n], b[..n], x, y);
      DotOfMix(a[..n], b[..n], x, y);
      MixSquareAdds(x, y, Dot(a[..n], a[..n]), Dot(a[..n], b[..n]), Dot(b[..n], b[..n]), a[n], b[n]);
    }
  }

  lemma Discriminant(aa: real, ab: real, bb: real)
    ensures MixSquare(ab, -aa, aa, ab, bb) == aa * (aa * bb - ab * ab)
  {
    assert ab * ab * aa == aa * (ab * ab);
    assert 2.0 * (ab * -aa) * ab == -2.0 * (aa * (ab * ab));
    assert (-aa) * (-aa) * bb == aa * (aa * bb);
    assert aa * (aa * bb - ab * ab) == aa * (aa * bb) - aa * (ab * ab);
  }

  lemma PositiveFactor(x: real, y: real)
    requires x > 0.0 && x * y >= 0.0
    ensures y >= 0.0
  {
  }

  lemma ZeroSquare(x: real, y: real)
    ensures x * x >= 0.0
    ensures x * x == 0.0 ==> x * y == 0.0
  {
    if x > 0.0 { assert x * x > 0.0; } else if x < 0.0 { assert x * x > 0.0; }
  }

  lemma {:induction false} NothingTimes(a: seq<real>, b: seq<real>)
    requires |a| == |b| && Dot(a, a) == 0.0
    ensures Dot(a, b) == 0.0
  {
    if a != [] {
      SquaresArePositive(a[..|a| - 1]);
      SquareIsPositive(a[|a| - 1]);
      ZeroSquare(a[|a| - 1], b[|b| - 1]);
      NothingTimes(a[..|a| - 1], b[..|b| - 1]);
    }
  }

  lemma CauchySchwarz(a: seq<real>, b: seq<real>)
    requires |a| == |b|
    ensures Dot(a, b) * Dot(a, b) <= Dot(a, a) * Dot(b, b)
  {
    var aa, ab, bb := Dot(a, a), Dot(a, b), Dot(b, b);
    SquaresArePositive(a);
    if aa == 0.0 {
      NothingTimes(a, b);
    } else {
      DotOfMix(a, b, ab, -aa);
      SquaresArePositive(Mix(a, b, ab, -aa));
      Discriminant(aa, ab, bb);
      PositiveFactor(aa, aa * bb - ab * ab);
    }
  }

  lemma BelowOne(x: real, y: real)
    requires 0.0 <= x <= 1.0 && 0.0 <= y <= 1.0
    ensures x * y <= 1.0
  {
    ProductIsPositive(x, 1.0 - y);
    Split(x, y, 1.0 - y, 1.0);
  }

  lemma RootBound(x: real)
    requires x * x <= 1.0
    ensures -1.0 <= x <= 1.0
  {
  }

  lemma NormalizedIsSmall(root: real -> real, v: seq<real>)
    requires IsRoot(root)
    ensures 0.0 <= Dot(Normalized(root, v), Normalized(root, v)) <= 1.0
  {
    NormalizedIsUnit(root, v);
    NormSquare(root, v);
    if Norm(root, v) < FLOAT_ZERO_EPSILON { BelowOne(Norm(root, v), Norm(root, v)); }
  }

  /** The dot product of two normalised vectors is a cosine, also where one of them was nearly zero and was left as it
      is. */
  lemma ScoreIsCosine(root: real -> real, u: seq<real>, v: seq<real>)
    requires IsRoot(root) && |u| == |v|
    ensures -1.0 <= Dot(Normalized(root, u), Normalized(root, v)) <= 1.0
  {
    var a, b := Normalized(root, u), Normalized(root, v);
    NormalizedIsSmall(root, u);
    NormalizedIsSmall(root, v);
    CauchySchwarz(a, b);
    BelowOne(Dot(a, a), Dot(b, b));
    RootBound(Dot(a, b));
  }

  // The mapper's score of a normalised vector for a normalised query lies between -1 and 1.
  lemma MappedScoreIsCosine(root: real -> real, chunk: MemChunk, v: nat, raw: seq<real>, query: seq<real>)
    requires IsRoot(root) && |raw| == |query| == chunk.dimensions > 0
    requires |chunk.data| == chunk.vectors * chunk.dimensions && v < chunk.vectors
    requires 0 <= v * |query| <= (v + 1) * |query| <= |chunk.data|
    requires chunk.data[v * |query|..(v + 1) * |query|] == Normalized(root, raw)
    ensures ChunkScores(chunk, Normalized(root, query))[v].Score?
    ensures -1.0 <= ChunkScores(chunk, Normalized(root, query))[v].value <= 1.0
  {
    ScoreIsCosine(root, raw, query);
    ChunkScoreAt(chunk, Normalized(root, query), v);
  }
}
