/** The vector kernels over the reals: naive, unrolled by 8, SSE with 4 lanes and AVX with 8 lanes. */
module VectorOps {
  import opened DotProducts

  // A step of width n adds n products.
  function Block(a: seq<real>, b: seq<real>, i: nat, n: nat): real
    requires i + n <= |a| == |b|
  {
    if n == 0 then 0.0 else Block(a, b, i, n - 1) + a[i + n - 1] * b[i + n - 1]
  }

  lemma {:induction false} DotBlock(a: seq<real>, b: seq<real>, i: nat, n: nat)
    requires i + n <= |a| == |b|
    ensures Dot(a[..i + n], b[..i + n]) == Dot(a[..i], b[..i]) + Block(a, b, i, n)
  {
    if n > 0 {
      DotBlock(a, b, i, n - 1);
      assert a[..i + n][..i + n - 1] == a[..i + n - 1] && b[..i + n][..i + n - 1] == b[..i + n - 1];
    }
  }

  method DotProductNaive(aRow: array<real>, bRow: array<real>, N: nat) returns (total: real)
    requires N <= aRow.Length && N <= bRow.Length
    ensures total == Dot(aRow[..N], bRow[..N])
  {
    total := 0.0;
    for i := 0 to N
      invariant total == Dot(aRow[..i], bRow[..i])
    {
      assert aRow[..i + 1][..i] == aRow[..i] && bRow[..i + 1][..i] == bRow[..i];
      total := total + aRow[i] * bRow[i];
    }
  }

  lemma Block4(a: seq<real>, b: seq<real>, i: nat)
    requires i + 4 <= |a| == |b|
    ensures Block(a, b, i, 4) == a[i] * b[i] + a[i + 1] * b[i + 1] + a[i + 2] * b[i + 2] + a[i + 3] * b[i + 3]
  {
    assert Block(a, b, i, 1) == a[i] * b[i];
    assert Block(a, b, i, 3) == Block(a, b, i, 2) + a[i + 2] * b[i + 2];
  }

  lemma {:induction false} BlockSplit(a: seq<real>, b: seq<real>, i: nat, m: nat, n: nat)
    requires i + m + n <= |a| == |b|
    ensures Block(a, b, i, m + n) == Block(a, b, i, m) + Block(a, b, i + m, n)
  {
    if n > 0 { BlockSplit(a, b, i, m, n - 1); }
  }

  // One iteration of the unrolled loop.
  function UnrolledStep(a: seq<real>, b: seq<real>, i: nat): real
    requires i + 8 <= |a| && i + 8 <= |b|
  {
    a[i] * b[i] +
    a[i + 1] * b[i + 1] +
    a[i + 2] * b[i + 2] +
    a[i + 3] * b[i + 3] +
    a[i + 4] * b[i + 4] +
    a[i + 5] * b[i + 5] +
    a[i + 6] * b[i + 6] +
    a[i + 7] * b[i + 7]
  }

  lemma UnrolledStepAdds(a: seq<real>, b: seq<real>, N: nat, i: nat)
    requires i + 8 <= N <= |a| && N <= |b|
    ensures Dot(a[..N][..i + 8], b[..N][..i + 8]) == Dot(a[..N][..i], b[..N][..i]) + UnrolledStep(a, b, i)
  {
    DotBlock(a[..N], b[..N], i, 8);
    BlockSplit(a[..N], b[..N], i, 4, 4);
    Block4(a[..N], b[..N], i);
    Block4(a[..N], b[..N], i + 4);
  }

  // Another step fits as long as the end is not reached.
  lemma Room4(i: nat, N: nat)
    requires i < N && i % 4 == 0 && N % 4 == 0
    ensures i + 4 <= N && (i + 4) % 4 == 0
  {
  }

  lemma Room8(i: nat, N: nat)
    requires i < N && i % 8 == 0 && N % 8 == 0
    ensures i + 8 <= N && (i + 8) % 8 == 0
  {
  }

  lemma Room32(i: nat, N: nat)
    requires i < N && i % 32 == 0 && N % 32 == 0
    ensures i + 32 <= N && (i + 32) % 32 == 0 && (i + 32) % 8 == 0
  {
  }

  method DotProductUnrolled8(aRow: array<real>, bRow: array<real>, N: nat) returns (total: real)
    requires N <= aRow.Length && N <= bRow.Length && N % 8 == 0
    ensures total == Dot(aRow[..N], bRow[..N])
  {
    total := 0.0;
    ghost var a, b := aRow[..N], bRow[..N];
    assert a[..N] == a && b[..N] == b;
    assert aRow[..][..N] == a && bRow[..][..N] == b;
    var i := 0;
    while i < N
      invariant i <= N && i % 8 == 0
      invariant total == Dot(a[..i], b[..i])
    {
      Room8(i, N);
      UnrolledStepAdds(aRow[..], bRow[..], N, i);
      total := total + UnrolledStep(aRow[..], bRow[..], i);
      i := i + 8;
    }
  }

  // A register of four floats, and one of eight, which is two of the former.
  datatype Lanes4 = Lanes4(x0: real, x1: real, x2: real, x3: real)

  datatype Lanes8 = Lanes8(low: Lanes4, high: Lanes4)

  function Splat4(x: real): Lanes4 { Lanes4(x, x, x, x) }

  function Splat8(x: real): Lanes8 { Lanes8(Splat4(x), Splat4(x)) }

  function Add4(x: Lanes4, y: Lanes4): Lanes4 { Lanes4(x.x0 + y.x0, x.x1 + y.x1, x.x2 + y.x2, x.x3 + y.x3) }

  function Add8(x: Lanes8, y: Lanes8): Lanes8 { Lanes8(Add4(x.low, y.low), Add4(x.high, y.high)) }

  function Product(x: real, y: real): real { x * y }

  function Mul4(x: Lanes4, y: Lanes4): Lanes4 {
    Lanes4(Product(x.x0, y.x0), Product(x.x1, y.x1), Product(x.x2, y.x2), Product(x.x3, y.x3))
  }

  function Mul8(x: Lanes8, y: Lanes8): Lanes8 { Lanes8(Mul4(x.low, y.low), Mul4(x.high, y.high)) }

  // The dot product instruction with mask 0xff writes the sum of the four products to all four lanes, in either half.
  function DotLanes4(x: Lanes4, y: Lanes4): Lanes4 {
    Splat4(x.x0 * y.x0 + x.x1 * y.x1 + x.x2 * y.x2 + x.x3 * y.x3)
  }

  function DotLanes8(x: Lanes8, y: Lanes8): Lanes8 { Lanes8(DotLanes4(x.low, y.low), DotLanes4(x.high, y.high)) }

  function Load4(row: seq<real>, i: nat): Lanes4
    requires i + 4 <= |row|
  {
    Lanes4(row[i], row[i + 1], row[i + 2], row[i + 3])
  }

  function Load8(row: seq<real>, i: nat): Lanes8
    requires i + 8 <= |row|
  {
    Lanes8(Load4(row, i), Load4(row, i + 4))
  }

  // A stored register, as an array of floats.
  function Stored4(x: Lanes4): seq<real> { [x.x0, x.x1, x.x2, x.x3] }

  function Stored8(x: Lanes8): seq<real> { Stored4(x.low) + Stored4(x.high) }

  lemma DotGroup(a: seq<real>, b: seq<real>, i: nat)
    requires i + 4 <= |a| == |b|
    ensures DotLanes4(Load4(a, i), Load4(b, i)) == Splat4(Block(a, b, i, 4))
  {
    Block4(a, b, i);
  }

  lemma Dot4(a: seq<real>, b: seq<real>, i: nat)
    requires i + 4 <= |a| == |b|
    ensures Add4(Splat4(Dot(a[..i], b[..i])), DotLanes4(Load4(a, i), Load4(b, i))) == Splat4(Dot(a[..i + 4], b[..i + 4]))
  {
    DotBlock(a, b, i, 4);
    DotGroup(a, b, i);
  }

  method DotProductSse42(aRow: array<real>, bRow: array<real>, N: nat) returns (result: real)
    requires N <= aRow.Length && N <= bRow.Length && N % 4 == 0
    ensures result == Dot(aRow[..N], bRow[..N])
  {
    var total := Splat4(0.0);
    ghost var a, b := aRow[..N], bRow[..N];
    assert a[..N] == a && b[..N] == b;
    var i := 0;
    while i < N
      invariant i <= N && i % 4 == 0
      invariant total == Splat4(Dot(a[..i], b[..i]))
    {
      Room4(i, N);
      var a0, b0 := Load4(aRow[..], i), Load4(bRow[..], i);
      assert a0 == Load4(a, i) && b0 == Load4(b, i);
      Dot4(a, b, i);
      total := Add4(total, DotLanes4(a0, b0));
      i := i + 4;
    }
    var ptr := Stored4(total);
    return ptr[0];
  }

  // The products of the first (h = 0) or second (h = 1) four of every eight: what lanes 0-3 or 4-7 accumulate.
  function HalfDot(a: seq<real>, b: seq<real>, n: nat, h: nat): real
    requires n <= |a| == |b| && n % 8 == 0 && h < 2
  {
    if n == 0 then 0.0 else HalfDot(a, b, n - 8, h) + Block(a, b, n - 8 + 4 * h, 4)
  }

  lemma {:induction false} HalvesMakeDot(a: seq<real>, b: seq<real>, n: nat)
    requires n <= |a| == |b| && n % 8 == 0
    ensures HalfDot(a, b, n, 0) + HalfDot(a, b, n, 1) == Dot(a[..n], b[..n])
  {
    if n > 0 {
      HalvesMakeDot(a, b, n - 8);
      DotBlock(a, b, n - 8, 8);
      BlockSplit(a, b, n - 8, 4, 4);
    }
  }

  lemma HalfNext(a: seq<real>, b: seq<real>, i: nat, h: nat)
    requires i + 8 <= |a| == |b| && i % 8 == 0 && h < 2
    ensures HalfDot(a, b, i + 8, h) == HalfDot(a, b, i, h) + Block(a, b, i + 4 * h, 4)
  {
  }

  lemma Half32(a: seq<real>, b: seq<real>, i: nat, h: nat)
    requires i + 32 <= |a| == |b| && i % 8 == 0 && h < 2
    ensures HalfDot(a, b, i + 32, h) == HalfDot(a, b, i, h) +
              ((Block(a, b, i + 4 * h, 4) + Block(a, b, i + 8 + 4 * h, 4)) +
               (Block(a, b, i + 16 + 4 * h, 4) + Block(a, b, i + 24 + 4 * h, 4)))
  {
    HalfNext(a, b, i, h);
    HalfNext(a, b, i + 8, h);
    HalfNext(a, b, i + 16, h);
    HalfNext(a, b, i + 24, h);
  }

  // One iteration of the AVX kernel: four dot products of 8 floats, added pairwise.
  function AvxStep(a: seq<real>, b: seq<real>, i: nat): Lanes8
    requires i + 32 <= |a| && i + 32 <= |b|
  {
    var c0 := DotLanes8(Load8(a, i), Load8(b, i));
    var c1 := DotLanes8(Load8(a, i + 8), Load8(b, i + 8));
    var c2 := DotLanes8(Load8(a, i + 16), Load8(b, i + 16));
    var c3 := DotLanes8(Load8(a, i + 24), Load8(b, i + 24));
    Add8(Add8(c0, c1), Add8(c2, c3))
  }

  lemma DotGroup8(a: seq<real>, b: seq<real>, i: nat)
    requires i + 8 <= |a| == |b|
    ensures DotLanes8(Load8(a, i), Load8(b, i)) == Lanes8(Splat4(Block(a, b, i, 4)), Splat4(Block(a, b, i + 4, 4)))
  {
    DotGroup(a, b, i);
    DotGroup(a, b, i + 4);
  }

  lemma AvxStepAdds(a: seq<real>, b: seq<real>, i: nat)
    requires i + 32 <= |a| == |b|
    ensures AvxStep(a, b, i) == Lanes8(
              Splat4((Block(a, b, i, 4) + Block(a, b, i + 8, 4)) + (Block(a, b, i + 16, 4) + Block(a, b, i + 24, 4))),
              Splat4((Block(a, b, i + 4, 4) + Block(a, b, i + 12, 4)) + (Block(a, b, i + 20, 4) + Block(a, b, i + 28, 4))))
  {
    DotGroup8(a, b, i);
    DotGroup8(a, b, i + 8);
    DotGroup8(a, b, i + 16);
    DotGroup8(a, b, i + 24);
  }

  // After n floats, lanes 0-3 hold one half of the sum and lanes 4-7 the other.
  function Halves(a: seq<real>, b: seq<real>, n: nat): Lanes8
    requires n <= |a| == |b| && n % 8 == 0
  {
    Lanes8(Splat4(HalfDot(a, b, n, 0)), Splat4(HalfDot(a, b, n, 1)))
  }

  lemma AvxStepKeepsHalves(a: seq<real>, b: seq<real>, i: nat)
    requires i + 32 <= |a| == |b| && i % 8 == 0
    ensures Add8(Halves(a, b, i), AvxStep(a, b, i)) == Halves(a, b, i + 32)
  {
    AvxStepAdds(a, b, i);
    Half32(a, b, i, 0);
    Half32(a, b, i, 1);
  }

  lemma AvxStepLocal(a: seq<real>, b: seq<real>, N: nat, i: nat)
    requires i + 32 <= N <= |a| && N <= |b|
    ensures AvxStep(a, b, i) == AvxStep(a[..N], b[..N], i)
  {
  }

  method AvxIteration(aRow: array<real>, bRow: array<real>, ghost N: nat, i: nat) returns (s: Lanes8)
    requires i + 32 <= N <= aRow.Length && N <= bRow.Length && i % 8 == 0
    ensures Add8(Halves(aRow[..N], bRow[..N], i), s) == Halves(aRow[..N], bRow[..N], i + 32)
  {
    s := AvxStep(aRow[..], bRow[..], i);
    AvxStepLocal(aRow[..], bRow[..], N, i);
    assert aRow[..][..N] == aRow[..N] && bRow[..][..N] == bRow[..N];
    AvxStepKeepsHalves(aRow[..N], bRow[..N], i);
  }

  method DotProductAvx256(aRow: array<real>, bRow: array<real>, N: nat) returns (result: real)
    requires N <= aRow.Length && N <= bRow.Length && N % 32 == 0
    ensures result == Dot(aRow[..N], bRow[..N])
  {
    var total := Splat8(0.0);
    ghost var a, b := aRow[..N], bRow[..N];
    assert a[..N] == a && b[..N] == b;
    var i := 0;
    while i < N
      invariant i <= N && i % 32 == 0 && i % 8 == 0
      invariant total == Halves(a, b, i)
    {
      Room32(i, N);
      var s := AvxIteration(aRow, bRow, N, i);
      total := Add8(total, s);
      i := i + 32;
    }
    HalvesMakeDot(a, b, N);
    var ptr := Stored8(total);
    return ptr[0] + ptr[5];
  }

  // The square root, by what defines it.
  ghost predicate IsRoot(root: real -> real) {
    forall x | x >= 0.0 :: root(x) >= 0.0 && root(x) * root(x) == x
  }

  const FLOAT_ZERO_EPSILON := 0.00001

  predicate NearZero(norm: real) { norm < FLOAT_ZERO_EPSILON && norm > -FLOAT_ZERO_EPSILON }

  function Norm(root: real -> real, v: seq<real>): real { root(Dot(v, v)) }

  function Scaled(v: seq<real>, n: real): (r: seq<real>)
    ensures |r| == |v|
  {
    seq(|v|, k requires 0 <= k < |v| => Product(v[k], n))
  }

  // What normalising leaves in the array.
  function Normalized(root: real -> real, v: seq<real>): (r: seq<real>)
    ensures |r| == |v|
  {
    var norm := Norm(root, v);
    if NearZero(norm) then v else Scaled(v, 1.0 / norm)
  }

  // What normalising returns.
  function NormReturned(root: real -> real, v: seq<real>): real {
    if NearZero(Norm(root, v)) then 0.0 else Norm(root, v)
  }

  method VecNormNaive(aRow: array<real>, N: nat, root: real -> real) returns (norm: real)
    requires N <= aRow.Length && N % 8 == 0
    ensures norm == Norm(root, aRow[..N])
  {
    var squaredNorm := DotProductUnrolled8(aRow, aRow, N);
    return root(squaredNorm);
  }

  // The first n floats are those of the target, the others those from before.
  ghost predicate ReplacedUpTo(row: seq<real>, before: seq<real>, target: seq<real>, n: nat) {
    && |row| == |before| == |target| && n <= |row|
    && (forall k | 0 <= k < n :: row[k] == target[k])
    && (forall k | n <= k < |row| :: row[k] == before[k])
  }

  lemma ReplaceBlock(row: seq<real>, before: seq<real>, target: seq<real>, i: nat, block: seq<real>)
    requires ReplacedUpTo(row, before, target, i) && i + |block| <= |row|
    requires block == target[i..i + |block|]
    ensures ReplacedUpTo(row[..i] + block + row[i + |block|..], before, target, i + |block|)
  {
  }

  lemma ScaledPrefix(v: seq<real>, n: real, N: nat)
    requires N <= |v|
    ensures Scaled(v, n)[..N] == Scaled(v[..N], n)
  {
    forall k | 0 <= k < N ensures Scaled(v, n)[k] == Scaled(v[..N], n)[k] {
      assert v[..N][k] == v[k];
    }
  }

  lemma AllScaled(root: real -> real, row: seq<real>, before: seq<real>, N: nat, norm: real)
    requires N <= |before| && norm == Norm(root, before[..N]) && !NearZero(norm)
    requires ReplacedUpTo(row, before, Scaled(before, 1.0 / norm), N)
    ensures row[..N] == Normalized(root, before[..N]) && row[N..] == before[N..]
  {
    ScaledPrefix(before, 1.0 / norm, N);
    assert row[..N] == Scaled(before, 1.0 / norm)[..N];
  }

  method VecNormalizeNaive(aRow: array<real>, N: nat, root: real -> real) returns (norm: real)
    requires N <= aRow.Length && N % 8 == 0
    modifies aRow
    ensures norm == NormReturned(root, old(aRow[..N]))
    ensures aRow[..N] == Normalized(root, old(aRow[..N])) && aRow[N..] == old(aRow[N..])
  {
    ghost var before := aRow[..];
    assert before[..N] == aRow[..N] && before[N..] == aRow[N..];
    norm := VecNormNaive(aRow, N, root);
    if norm < FLOAT_ZERO_EPSILON && norm > -FLOAT_ZERO_EPSILON {
      return 0.0;
    }
    var n := 1.0 / norm;
    ghost var target := Scaled(before, n);
    for i := 0 to N
      invariant ReplacedUpTo(aRow[..], before, target, i)
    {
      aRow[i] := Product(aRow[i], n);
    }
    AllScaled(root, aRow[..], before, N, norm);
    assert aRow[..][..N] == aRow[..N] && aRow[..][N..] == aRow[N..];
  }

  method VecNormSse42(aRow: array<real>, N: nat, root: real -> real) returns (norm: real)
    requires N <= aRow.Length && N % 4 == 0
    ensures norm == Norm(root, aRow[..N])
  {
    var total := Splat4(0.0);
    ghost var a := aRow[..N];
    assert a[..N] == a;
    var i := 0;
    while i < N
      invariant i <= N && i % 4 == 0
      invariant total == Splat4(Dot(a[..i], a[..i]))
    {
      Room4(i, N);
      var a0 := Load4(aRow[..], i);
      assert a0 == Load4(a, i);
      Dot4(a, a, i);
      total := Add4(total, DotLanes4(a0, a0));
      i := i + 4;
    }
    total := Lanes4(root(total.x0), root(total.x1), root(total.x2), root(total.x3));
    var ptr := Stored4(total);
    return ptr[0];
  }

  method Store4(aRow: array<real>, i: nat, x: Lanes4)
    requires i + 4 <= aRow.Length
    modifies aRow
    ensures aRow[..] == old(aRow[..i]) + Stored4(x) + old(aRow[i + 4..])
  {
    aRow[i], aRow[i + 1], aRow[i + 2], aRow[i + 3] := x.x0, x.x1, x.x2, x.x3;
  }

  lemma ScaledFour(v: seq<real>, factor: real, i: nat)
    requires i + 4 <= |v|
    ensures Stored4(Mul4(Load4(v, i), Splat4(factor))) == Scaled(v, factor)[i..i + 4]
  {
    var stored, target := Stored4(Mul4(Load4(v, i), Splat4(factor))), Scaled(v, factor);
    assert target[i] == Product(v[i], factor) && target[i + 1] == Product(v[i + 1], factor);
    assert target[i + 2] == Product(v[i + 2], factor) && target[i + 3] == Product(v[i + 3], factor);
    assert stored == [target[i], target[i + 1], target[i + 2], target[i + 3]];
    assert target[i..i + 4] == [target[i], target[i + 1], target[i + 2], target[i + 3]];
  }

  lemma ScaledEight(v: seq<real>, factor: real, i: nat)
    requires i + 8 <= |v|
    ensures Stored8(Mul8(Load8(v, i), Splat8(factor))) == Scaled(v, factor)[i..i + 8]
  {
    ScaledFour(v, factor, i);
    ScaledFour(v, factor, i + 4);
    assert Scaled(v, factor)[i..i + 8] == Scaled(v, factor)[i..i + 4] + Scaled(v, factor)[i + 4..i + 8];
  }

  method VecNormalizeSse42(aRow: array<real>, N: nat, root: real -> real) returns (norm: real)
    requires N <= aRow.Length && N % 4 == 0
    modifies aRow
    ensures norm == NormReturned(root, old(aRow[..N]))
    ensures aRow[..N] == Normalized(root, old(aRow[..N])) && aRow[N..] == old(aRow[N..])
  {
    ghost var before := aRow[..];
    assert before[..N] == aRow[..N] && before[N..] == aRow[N..];
    norm := VecNormSse42(aRow, N, root);
    if norm < FLOAT_ZERO_EPSILON && norm > -FLOAT_ZERO_EPSILON {
      return 0.0;
    }
    var n := 1.0 / norm;
    ghost var target := Scaled(before, n);
    var i := 0;
    while i < N
      invariant i <= N && i % 4 == 0
      invariant ReplacedUpTo(aRow[..], before, target, i)
    {
      Room4(i, N);
      ScaleGroup(aRow, i, n, before);
      i := i + 4;
    }
    AllScaled(root, aRow[..], before, N, norm);
    assert aRow[..][..N] == aRow[..N] && aRow[..][N..] == aRow[N..];
  }

  // The body of the loop: load one register, multiply it and write it back.
  method ScaleGroup(aRow: array<real>, i: nat, factor: real, ghost before: seq<real>)
    requires i + 4 <= aRow.Length && ReplacedUpTo(aRow[..], before, Scaled(before, factor), i)
    modifies aRow
    ensures ReplacedUpTo(aRow[..], before, Scaled(before, factor), i + 4)
  {
    var a0 := Load4(aRow[..], i);
    assert a0 == Load4(before, i);
    var c0 := Mul4(a0, Splat4(factor));
    ghost var row := aRow[..];
    assert row[..i] == aRow[..i] && row[i + 4..] == aRow[i + 4..];
    ScaledFour(before, factor, i);
    ReplaceBlock(row, before, Scaled(before, factor), i, Stored4(c0));
    Store4(aRow, i, c0);
  }

  method VecNormAvx256(aRow: array<real>, N: nat, root: real -> real) returns (norm: real)
    requires N <= aRow.Length && N % 32 == 0
    ensures norm == Norm(root, aRow[..N])
  {
    var squaredNorm := DotProductAvx256(aRow, aRow, N);
    var v := Splat8(root(squaredNorm));
    var ptr := Stored8(v);
    return ptr[0];
  }

  method Store8(aRow: array<real>, i: nat, x: Lanes8)
    requires i + 8 <= aRow.Length
    modifies aRow
    ensures aRow[..] == old(aRow[..i]) + Stored8(x) + old(aRow[i + 8..])
  {
    Store4(aRow, i, x.low);
    Store4(aRow, i + 4, x.high);
  }

  method VecNormalizeAvx256(aRow: array<real>, N: nat, root: real -> real) returns (norm: real)
    requires N <= aRow.Length && N % 32 == 0
    modifies aRow
    ensures norm == NormReturned(root, old(aRow[..N]))
    ensures aRow[..N] == Normalized(root, old(aRow[..N])) && aRow[N..] == old(aRow[N..])
  {
    ghost var before := aRow[..];
    assert before[..N] == aRow[..N] && before[N..] == aRow[N..];
    norm := VecNormAvx256(aRow, N, root);
    if norm < FLOAT_ZERO_EPSILON && norm > -FLOAT_ZERO_EPSILON {
      return 0.0;
    }
    var n := 1.0 / norm;
    ghost var target := Scaled(before, n);
    var i := 0;
    while i < N
      invariant i <= N && i % 32 == 0
      invariant ReplacedUpTo(aRow[..], before, target, i)
    {
      Room32(i, N);
      Scale32(aRow, i, n, before);
      i := i + 32;
    }
    AllScaled(root, aRow[..], before, N, norm);
    assert aRow[..][..N] == aRow[..N] && aRow[..][N..] == aRow[N..];
  }

  // The body of the loop: load four registers, multiply them, then write all four back.
  method Scale32(aRow: array<real>, i: nat, factor: real, ghost before: seq<real>)
    requires i + 32 <= aRow.Length && ReplacedUpTo(aRow[..], before, Scaled(before, factor), i)
    modifies aRow
    ensures ReplacedUpTo(aRow[..], before, Scaled(before, factor), i + 32)
  {
    var n := Splat8(factor);
    var a0, a1, a2, a3 := Load8(aRow[..], i), Load8(aRow[..], i + 8), Load8(aRow[..], i + 16), Load8(aRow[..], i + 24);
    assert a0 == Load8(before, i) && a1 == Load8(before, i + 8);
    assert a2 == Load8(before, i + 16) && a3 == Load8(before, i + 24);
    var c0, c1, c2, c3 := Mul8(a0, n), Mul8(a1, n), Mul8(a2, n), Mul8(a3, n);
    StoreScaled(aRow, i, c0, factor, before);
    StoreScaled(aRow, i + 8, c1, factor, before);
    StoreScaled(aRow, i + 16, c2, factor, before);
    StoreScaled(aRow, i + 24, c3, factor, before);
  }

  method StoreScaled(aRow: array<real>, i: nat, x: Lanes8, ghost factor: real, ghost before: seq<real>)
    requires i + 8 <= aRow.Length && ReplacedUpTo(aRow[..], before, Scaled(before, factor), i)
    requires x == Mul8(Load8(before, i), Splat8(factor))
    modifies aRow
    ensures ReplacedUpTo(aRow[..], before, Scaled(before, factor), i + 8)
  {
    ghost var row := aRow[..];
    assert row[..i] == aRow[..i] && row[i + 8..] == aRow[i + 8..];
    ScaledEight(before, factor, i);
    ReplaceBlock(row, before, Scaled(before, factor), i, Stored8(x));
    Store8(aRow, i, x);
  }
}
