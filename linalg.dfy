/** Exact real-valued vectors and matrices, standing in for numpy arrays.

    Every operation is total: an entry outside a vector or matrix reads as 0,
    and element-wise sums extend the shorter operand with zeros.  Whenever the
    shapes conform (the only case numpy accepts) each operation agrees with
    numpy's; the accumulators that the library starts at the scalar `0`
    start here at the empty vector or matrix, which the zero-padding makes
    behave the same way. */
module Linalg {

  type Vector = seq<real>
  type Matrix = seq<Vector>

  function Max(a: int, b: int): int { if a < b then b else a }

  /** Entry `i` of `v`, or 0 outside `v`. */
  function At(v: Vector, i: int): real { if 0 <= i < |v| then v[i] else 0.0 }

  /** Row `i` of `m`, or the empty row outside `m`. */
  function Row(m: Matrix, i: int): Vector { if 0 <= i < |m| then m[i] else [] }

  function Entry(m: Matrix, i: int, j: int): real { At(Row(m, i), j) }

  /** The number of columns, read from the first row. */
  function Cols(m: Matrix): nat { if |m| == 0 then 0 else |m[0]| }

  predicate IsMatrix(m: Matrix, r: nat, c: nat)
  {
    |m| == r && forall i :: 0 <= i < r ==> |m[i]| == c
  }

  predicate IsSymmetric(m: Matrix)
  {
    IsMatrix(m, |m|, |m|) && forall i, j :: 0 <= i < |m| && 0 <= j < |m| ==> m[i][j] == m[j][i]
  }

  function Zeros(n: nat): Vector { seq(n, _ => 0.0) }

  /** Row `k` of the n-by-n identity; all zeros when `k` is outside `0..n`. */
  function Unit(n: nat, k: int): Vector { seq(n, j => if j == k then 1.0 else 0.0) }

  /** numpy's `eye(r, c)`: ones on the main diagonal of an r-by-c matrix. */
  function Eye(r: nat, c: nat): Matrix { seq(r, i => Unit(c, i)) }

  function Identity(n: nat): Matrix { Eye(n, n) }

  function Diag(d: Vector): Matrix
  {
    seq(|d|, i requires 0 <= i < |d| => seq(|d|, j => if i == j then d[i] else 0.0))
  }

  function VAdd(a: Vector, b: Vector): Vector { seq(Max(|a|, |b|), i => At(a, i) + At(b, i)) }

  function VSub(a: Vector, b: Vector): Vector { seq(Max(|a|, |b|), i => At(a, i) - At(b, i)) }

  function VScale(c: real, a: Vector): Vector { seq(|a|, i requires 0 <= i < |a| => c * a[i]) }

  /** Left-to-right sum, the order of an accumulator loop. */
  function Sum(s: seq<real>): real
    decreases |s|
  {
    if |s| == 0 then 0.0 else Sum(s[..|s| - 1]) + s[|s| - 1]
  }

  function Dot(a: Vector, b: Vector): real { Sum(seq(|a|, k requires 0 <= k < |a| => a[k] * At(b, k))) }

  function MatVec(m: Matrix, x: Vector): Vector { seq(|m|, i requires 0 <= i < |m| => Dot(m[i], x)) }

  function Column(m: Matrix, j: int): Vector { seq(|m|, i requires 0 <= i < |m| => At(m[i], j)) }

  function Transpose(m: Matrix): Matrix { seq(Cols(m), j => Column(m, j)) }

  function MatMul(a: Matrix, b: Matrix): Matrix
  {
    seq(|a|, i requires 0 <= i < |a| => seq(Cols(b), j => Dot(a[i], Column(b, j))))
  }

  function MAdd(a: Matrix, b: Matrix): Matrix { seq(Max(|a|, |b|), i => VAdd(Row(a, i), Row(b, i))) }

  function MSub(a: Matrix, b: Matrix): Matrix { seq(Max(|a|, |b|), i => VSub(Row(a, i), Row(b, i))) }

  function MScale(c: real, m: Matrix): Matrix { seq(|m|, i requires 0 <= i < |m| => VScale(c, m[i])) }

  function Outer(a: Vector, b: Vector): Matrix
  {
    seq(|a|, i requires 0 <= i < |a| => seq(|b|, j requires 0 <= j < |b| => a[i] * b[j]))
  }

  /** `(P + P.T) / 2`, the symmetrisation applied after every covariance update. */
  function Symmetrize(m: Matrix): Matrix
  {
    seq(|m|, i => seq(|m|, j => (Entry(m, i, j) + Entry(m, j, i)) / 2.0))
  }

  function Trace(m: Matrix): real { Sum(seq(|m|, i => Entry(m, i, i))) }

  /** `S @ C @ S.T`, how a selection matrix carries a covariance. */
  function Congruence(s: Matrix, c: Matrix): Matrix { MatMul(MatMul(s, c), Transpose(s)) }

  /** numpy's `kron(a, b)` for a non-empty `b`. */
  function Kron(a: Matrix, b: Matrix): Matrix
    requires |b| > 0 && Cols(b) > 0
  {
    seq(|a| * |b|, i => seq(Cols(a) * Cols(b), j =>
      Entry(a, i / |b|, j / Cols(b)) * Entry(b, i % |b|, j % Cols(b))))
  }

  /** scipy's `block_diag(a, b)`. */
  function BlockDiag(a: Matrix, b: Matrix): Matrix
  {
    seq(|a| + |b|, i => seq(Cols(a) + Cols(b), j =>
      if i < |a| then (if j < Cols(a) then Entry(a, i, j) else 0.0)
      else (if j < Cols(a) then 0.0 else Entry(b, i - |a|, j - Cols(a)))))
  }

  /** `weights @ samples`: row vector times matrix. */
  function VecMat(w: Vector, m: Matrix): Vector { MatVec(Transpose(m), w) }

  /** The probability-weighted sum `sum_i ws[i] * xs[i]`, accumulated left to right. */
  function WSum(ws: seq<real>, xs: seq<Vector>): Vector
    requires |ws| == |xs|
    decreases |xs|
  {
    if |xs| == 0 then [] else VAdd(WSum(ws[..|xs| - 1], xs[..|xs| - 1]), VScale(ws[|xs| - 1], xs[|xs| - 1]))
  }

  /** The matrix counterpart of `WSum`. */
  function WSumM(ws: seq<real>, ms: seq<Matrix>): Matrix
    requires |ws| == |ms|
    decreases |ms|
  {
    if |ms| == 0 then [] else MAdd(WSumM(ws[..|ms| - 1], ms[..|ms| - 1]), MScale(ws[|ms| - 1], ms[|ms| - 1]))
  }

  /** numpy's `argmax`: the first index holding the largest entry. */
  function ArgMax(w: seq<real>): (k: nat)
    requires |w| > 0
    ensures k < |w|
    ensures forall j :: 0 <= j < |w| ==> w[j] <= w[k]
    ensures forall j :: 0 <= j < k ==> w[j] < w[k]
    decreases |w|
  {
    if |w| == 1 then 0
    else
      var k := ArgMax(w[..|w| - 1]);
      if w[k] < w[|w| - 1] then |w| - 1 else k
  }

  // ---------------------------------------------------------------------
  // Sums

  lemma {:induction false} SumZeros(s: seq<real>)
    requires forall k :: 0 <= k < |s| ==> s[k] == 0.0
    ensures Sum(s) == 0.0
    decreases |s|
  {
    if |s| > 0 { SumZeros(s[..|s| - 1]); }
  }

  /** A sum with a single non-zero term is that term. */
  lemma {:induction false} SumSingle(s: seq<real>, j: int)
    requires 0 <= j < |s|
    requires forall k :: 0 <= k < |s| && k != j ==> s[k] == 0.0
    ensures Sum(s) == s[j]
    decreases |s|
  {
    if j == |s| - 1 { SumZeros(s[..|s| - 1]); } else { SumSingle(s[..|s| - 1], j); }
  }

  lemma {:induction false} SumScale(c: real, s: seq<real>)
    ensures Sum(seq(|s|, k requires 0 <= k < |s| => c * s[k])) == c * Sum(s)
    decreases |s|
  {
    if |s| > 0 {
      var n := |s| - 1;
      var t := seq(|s|, k requires 0 <= k < |s| => c * s[k]);
      var u := seq(n, k requires 0 <= k < n => c * s[..n][k]);
      SumScale(c, s[..n]);
      assert t[..n] == u by {
        forall k | 0 <= k < n ensures t[..n][k] == u[k] {
          assert s[..n][k] == s[k];
        }
      }
      assert Sum(t) == Sum(t[..n]) + t[n];
    }
  }

  lemma {:induction false} SumAdd(a: seq<real>, b: seq<real>)
    requires |a| == |b|
    ensures Sum(seq(|a|, k requires 0 <= k < |a| => a[k] + b[k])) == Sum(a) + Sum(b)
    decreases |a|
  {
    if |a| > 0 {
      var n := |a| - 1;
      var t := seq(|a|, k requires 0 <= k < |a| => a[k] + b[k]);
      SumAdd(a[..n], b[..n]);
      assert t[..n] == seq(n, k requires 0 <= k < n => a[..n][k] + b[..n][k]) by {
        forall k | 0 <= k < n ensures t[..n][k] == a[..n][k] + b[..n][k] { }
      }
    }
  }

  lemma {:induction false} SumNonNegative(s: seq<real>)
    requires forall k :: 0 <= k < |s| ==> 0.0 <= s[k]
    ensures 0.0 <= Sum(s)
    decreases |s|
  {
    if |s| > 0 { SumNonNegative(s[..|s| - 1]); }
  }

  /** Entry `j` of a weighted sum of equally long vectors is the weighted sum
      of their entries `j`. */
  lemma {:induction false} WSumLength(ws: seq<real>, xs: seq<Vector>, d: nat)
    requires |ws| == |xs|
    requires forall k :: 0 <= k < |xs| ==> |xs[k]| == d
    ensures |WSum(ws, xs)| == if |xs| == 0 then 0 else d
    decreases |xs|
  {
    if |xs| > 0 {
      WSumLength(ws[..|xs| - 1], xs[..|xs| - 1], d);
    }
  }

  lemma {:induction false} WSumEntry(ws: seq<real>, xs: seq<Vector>, d: nat, j: nat)
    requires |ws| == |xs| && j < d
    requires forall k :: 0 <= k < |xs| ==> |xs[k]| == d
    ensures At(WSum(ws, xs), j) == Sum(seq(|xs|, k requires 0 <= k < |xs| => ws[k] * At(xs[k], j)))
    decreases |xs|
  {
    var s := seq(|xs|, k requires 0 <= k < |xs| => ws[k] * At(xs[k], j));
    if |xs| > 0 {
      var n := |xs| - 1;
      WSumEntry(ws[..n], xs[..n], d, j);
      WSumLength(ws[..n], xs[..n], d);
      var u := seq(n, k requires 0 <= k < n => ws[..n][k] * At(xs[..n][k], j));
      assert s[..n] == u by {
        forall k | 0 <= k < n
          ensures s[..n][k] == u[k]
        {
          assert ws[..n][k] == ws[k] && xs[..n][k] == xs[k];
        }
      }
      assert Sum(s) == Sum(s[..n]) + s[n];
    }
  }

  /** One step of an accumulator loop over a prefix. */
  lemma SumPrefixStep(s: seq<real>, i: nat)
    requires i < |s|
    ensures Sum(s[..i + 1]) == Sum(s[..i]) + s[i]
  {
    assert s[..i + 1][..i] == s[..i];
  }

  // ---------------------------------------------------------------------
  // Selection matrices

  lemma DotUnitLeft(d: nat, k: int, x: Vector)
    requires |x| == d
    ensures Dot(Unit(d, k), x) == At(x, k)
  {
    var s := seq(d, j requires 0 <= j < d => Unit(d, k)[j] * At(x, j));
    if 0 <= k < d { SumSingle(s, k); } else { SumZeros(s); }
  }

  lemma DotUnitRight(v: Vector, k: int)
    ensures Dot(v, Unit(|v|, k)) == At(v, k)
  {
    var s := seq(|v|, j requires 0 <= j < |v| => v[j] * At(Unit(|v|, k), j));
    if 0 <= k < |v| { SumSingle(s, k); } else { SumZeros(s); }
  }

  /** Row `i` of `m` is the unit row `src[i]` of the d-by-d identity (a zero
      row where `src[i]` is negative): `m` picks entries of its input. */
  predicate IsSelector(m: Matrix, d: nat, src: seq<int>)
  {
    |m| == |src| && forall i :: 0 <= i < |src| ==> src[i] < d && m[i] == Unit(d, src[i])
  }

  lemma SelectorApply(m: Matrix, d: nat, src: seq<int>, x: Vector)
    requires IsSelector(m, d, src) && |x| == d
    ensures MatVec(m, x) == seq(|src|, i requires 0 <= i < |src| => At(x, src[i]))
  {
    forall i | 0 <= i < |src| ensures MatVec(m, x)[i] == At(x, src[i]) {
      DotUnitLeft(d, src[i], x);
    }
  }

  /** Row `i` of `S @ C` is row `src[i]` of `C` (zeros for a zero row of `S`). */
  lemma SelectorTimes(m: Matrix, d: nat, src: seq<int>, c: Matrix, i: nat)
    requires IsSelector(m, d, src) && IsMatrix(c, d, d) && d > 0 && i < |src|
    ensures |MatMul(m, c)[i]| == d
    ensures forall l :: 0 <= l < d ==> MatMul(m, c)[i][l] == Entry(c, src[i], l)
  {
    forall l | 0 <= l < d ensures MatMul(m, c)[i][l] == Entry(c, src[i], l) {
      DotUnitLeft(d, src[i], Column(c, l));
    }
  }

  /** Column `j` of `S.T` is row `j` of `S`. */
  lemma SelectorTransposed(m: Matrix, d: nat, src: seq<int>, j: nat)
    requires IsSelector(m, d, src) && d > 0 && j < |src|
    ensures Column(Transpose(m), j) == Unit(d, src[j])
  {
    assert Cols(m) == d;
    assert Column(Transpose(m), j) == seq(d, k requires 0 <= k < d => At(Column(m, k), j));
  }

  lemma SelectorCongruence(m: Matrix, d: nat, src: seq<int>, c: Matrix)
    requires IsSelector(m, d, src) && IsMatrix(c, d, d) && d > 0
    ensures Congruence(m, c) == seq(|src|, i requires 0 <= i < |src| =>
                                      seq(|src|, j requires 0 <= j < |src| => Entry(c, src[i], src[j])))
  {
    if |src| > 0 {
      assert Cols(Transpose(m)) == |src| by { assert Cols(m) == d; }
      forall i | 0 <= i < |src|
        ensures Congruence(m, c)[i] == seq(|src|, j requires 0 <= j < |src| => Entry(c, src[i], src[j]))
      {
        var a := MatMul(m, c)[i];
        SelectorTimes(m, d, src, c, i);
        forall j | 0 <= j < |src| ensures Congruence(m, c)[i][j] == Entry(c, src[i], src[j]) {
          SelectorTransposed(m, d, src, j);
          DotUnitRight(a, src[j]);
        }
      }
    }
  }

  // ---------------------------------------------------------------------
  // Kronecker products

  lemma DivBelow(i: nat, r: nat, p: nat)
    requires r > 0 && i < p * r
    ensures i / r < p
  {
  }

  lemma ZeroMultiple(k: int, n: int)
    requires n > 0 && -n < k * n < n
    ensures k == 0
  {
  }

  /** Row `r` of block `i` in a matrix of `n`-row blocks sits at index `i * n + r`. */
  lemma DivModBlock(i: nat, r: nat, n: nat)
    requires r < n
    ensures (i * n + r) / n == i && (i * n + r) % n == r
  {
    var q, m := (i * n + r) / n, (i * n + r) % n;
    assert (i - q) * n == m - r;
    ZeroMultiple(i - q, n);
  }

  lemma BlockBelow(k: nat, o: nat, n: nat, p: nat)
    requires k < p && o < n
    ensures k * n + o < p * n
  {
    assert (k + 1) * n <= p * n;
  }

  /** Index `i` of a matrix of `p` blocks of `n` rows is row `i % n` of block `i / n`. */
  lemma BlockSplit(i: nat, n: nat, p: nat)
    requires n > 0 && i < p * n
    ensures 0 <= i / n < p && 0 <= i % n < n && (i / n) * n + i % n == i
  {
    DivBelow(i, n, p);
  }

  /** The rows of `kron(A, B)` and their length. */
  lemma KronShape(a: Matrix, b: Matrix, p: nat, q: nat, r: nat, c: nat, i: nat)
    requires IsMatrix(a, p, q) && IsMatrix(b, r, c) && r > 0 && c > 0 && i < p * r
    ensures |Kron(a, b)| == p * r && |Kron(a, b)[i]| == q * c
  {
    assert p > 0;
    assert Cols(a) == q && Cols(b) == c;
  }

  /** Entry (r, c) of block (bi, bj) of `kron(A, B)`, at row `bi * rows(B) + r`
      and column `bj * cols(B) + c`, is `A[bi][bj] * B[r][c]`. */
  lemma KronBlockEntry(a: Matrix, b: Matrix, p: nat, q: nat, r: nat, c: nat,
                       i: nat, j: nat, bi: nat, ri: nat, bj: nat, rj: nat)
    requires IsMatrix(a, p, q) && IsMatrix(b, r, c)
    requires bi < p && ri < r && bj < q && rj < c
    requires i == bi * r + ri && j == bj * c + rj
    ensures |Kron(a, b)| == p * r && i < p * r
    ensures |Kron(a, b)[i]| == q * c && j < q * c
    ensures Kron(a, b)[i][j] == a[bi][bj] * b[ri][rj]
  {
    BlockBelow(bi, ri, r, p);
    BlockBelow(bj, rj, c, q);
    KronShape(a, b, p, q, r, c, i);
    DivModBlock(bi, ri, r);
    DivModBlock(bj, rj, c);
    KronRaw(a, b, i, j, bi, ri, bj, rj);
  }

  lemma KronRaw(a: Matrix, b: Matrix, i: nat, j: nat, bi: nat, ri: nat, bj: nat, rj: nat)
    requires |b| > 0 && Cols(b) > 0
    requires i < |Kron(a, b)| && j < |Kron(a, b)[i]|
    requires i / |b| == bi && i % |b| == ri && j / Cols(b) == bj && j % Cols(b) == rj
    ensures Kron(a, b)[i][j] == Entry(a, bi, bj) * Entry(b, ri, rj)
  {
  }

  lemma KronEntry(a: Matrix, b: Matrix, p: nat, q: nat, r: nat, c: nat, i: nat, j: nat)
    requires IsMatrix(a, p, q) && IsMatrix(b, r, c) && r > 0 && c > 0
    requires i < p * r && j < q * c
    ensures |Kron(a, b)| == p * r && |Kron(a, b)[i]| == q * c
    ensures i / r < p && j / c < q
    ensures Kron(a, b)[i][j] == a[i / r][j / c] * b[i % r][j % c]
  {
    BlockSplit(i, r, p);
    BlockSplit(j, c, q);
    KronBlockEntry(a, b, p, q, r, c, i, j, i / r, i % r, j / c, j % c);
  }

  /** A scaled diagonal entry: `diag(d)[a][c] * x`. */
  lemma DiagScaled(d: Vector, a: nat, c: nat, x: real, v: real)
    requires a < |d| && c < |d| && v == Diag(d)[a][c] * x
    ensures v == if a == c then d[a] * x else 0.0
  {
  }

  /** `kron(eye(k), B)` repeats `B` along the diagonal: entry (r, c) of block
      (bi, bj) is `B[r][c]` when bi == bj and 0 otherwise. */
  lemma KronIdentityBlock(k: nat, b: Matrix, r: nat, i: nat, j: nat, bi: nat, ri: nat, bj: nat, rj: nat)
    requires IsMatrix(b, r, r) && bi < k && ri < r && bj < k && rj < r
    requires i == bi * r + ri && j == bj * r + rj
    ensures |Kron(Identity(k), b)| == k * r && i < k * r
    ensures |Kron(Identity(k), b)[i]| == k * r && j < k * r
    ensures Kron(Identity(k), b)[i][j] == if bi == bj then b[ri][rj] else 0.0
  {
    KronBlockEntry(Identity(k), b, k, k, r, r, i, j, bi, ri, bj, rj);
    assert Identity(k)[bi][bj] == if bi == bj then 1.0 else 0.0;
  }

  /** `kron(eye(k), B)` repeats `B` along the diagonal. */
  lemma KronIdentityEntry(k: nat, b: Matrix, r: nat, i: nat, j: nat)
    requires IsMatrix(b, r, r) && r > 0 && i < k * r && j < k * r
    ensures |Kron(Identity(k), b)| == k * r && |Kron(Identity(k), b)[i]| == k * r
    ensures Kron(Identity(k), b)[i][j] == if i / r == j / r then b[i % r][j % r] else 0.0
  {
    BlockSplit(i, r, k);
    BlockSplit(j, r, k);
    KronIdentityBlock(k, b, r, i, j, i / r, i % r, j / r, j % r);
  }

  /** `kron(diag(d), B)` scales the i-th diagonal copy of `B` by `d[i]`. */
  lemma KronDiagEntry(d: Vector, b: Matrix, r: nat, i: nat, j: nat)
    requires IsMatrix(b, r, r) && r > 0 && i < |d| * r && j < |d| * r
    ensures |Kron(Diag(d), b)| == |d| * r && |Kron(Diag(d), b)[i]| == |d| * r
    ensures i / r < |d| && j / r < |d| && i % r < r && j % r < r
    ensures Kron(Diag(d), b)[i][j] == if i / r == j / r then d[i / r] * b[i % r][j % r] else 0.0
  {
    BlockSplit(i, r, |d|);
    BlockSplit(j, r, |d|);
    var bi, ri, bj, rj := i / r, i % r, j / r, j % r;
    KronBlockEntry(Diag(d), b, |d|, |d|, r, r, i, j, bi, ri, bj, rj);
    DiagScaled(d, bi, bj, b[ri][rj], Kron(Diag(d), b)[i][j]);
  }

  /** `kron(diag(d), B)` of a symmetric `B` is symmetric. */
  lemma KronDiagSymmetric(d: Vector, b: Matrix)
    requires IsSymmetric(b) && |b| > 0
    ensures IsSymmetric(Kron(Diag(d), b))
  {
    var k := Kron(Diag(d), b);
    forall i | 0 <= i < |k| ensures |k[i]| == |k| {
      KronDiagEntry(d, b, |b|, i, 0);
    }
    forall i, j | 0 <= i < |k| && 0 <= j < |k| ensures k[i][j] == k[j][i] {
      KronDiagMirror(d, b, i, j);
    }
  }

  lemma KronDiagMirror(d: Vector, b: Matrix, i: nat, j: nat)
    requires IsSymmetric(b) && |b| > 0
    requires i < |d| * |b| && j < |d| * |b|
    ensures |Kron(Diag(d), b)| == |d| * |b|
    ensures |Kron(Diag(d), b)[i]| == |d| * |b| && |Kron(Diag(d), b)[j]| == |d| * |b|
    ensures Kron(Diag(d), b)[i][j] == Kron(Diag(d), b)[j][i]
  {
    var r := |b|;
    BlockSplit(i, r, |d|);
    BlockSplit(j, r, |d|);
    var bi, ri, bj, rj := i / r, i % r, j / r, j % r;
    assert b[ri][rj] == b[rj][ri];
    assert Diag(d)[bi][bj] == Diag(d)[bj][bi];
    KronBlockEntry(Diag(d), b, |d|, |d|, r, r, i, j, bi, ri, bj, rj);
    KronBlockEntry(Diag(d), b, |d|, |d|, r, r, j, i, bj, rj, bi, ri);
  }

  // ---------------------------------------------------------------------
  // Accumulators: the empty start and one step

  lemma VAddEmpty(v: Vector)
    ensures VAdd(v, []) == v && VAdd([], v) == v
  {
  }

  lemma VScaleOne(v: Vector)
    ensures VScale(1.0, v) == v
  {
  }

  lemma MAddEmpty(m: Matrix)
    ensures MAdd(m, []) == m && MAdd([], m) == m
  {
    forall i | 0 <= i < |m| ensures MAdd(m, [])[i] == m[i] && MAdd([], m)[i] == m[i] {
      VAddEmpty(m[i]);
    }
  }

  lemma MScaleOne(m: Matrix)
    ensures MScale(1.0, m) == m
  {
    forall i | 0 <= i < |m| ensures MScale(1.0, m)[i] == m[i] {
      VScaleOne(m[i]);
    }
  }

  lemma DotZeroRight(a: Vector, b: Vector)
    requires forall k :: 0 <= k < |a| ==> At(b, k) == 0.0
    ensures Dot(a, b) == 0.0
  {
    SumZeros(seq(|a|, k requires 0 <= k < |a| => a[k] * At(b, k)));
  }

  lemma MatVecZeroRight(m: Matrix, x: Vector)
    requires forall k :: 0 <= k < |x| ==> x[k] == 0.0
    ensures MatVec(m, x) == Zeros(|m|)
  {
    forall i | 0 <= i < |m| ensures Dot(m[i], x) == 0.0 {
      DotZeroRight(m[i], x);
    }
  }

  lemma WSumSingle(w: real, x: Vector)
    ensures WSum([w], [x]) == VScale(w, x)
  {
    assert [w][..0] == [] && [x][..0] == [];
    VAddEmpty(VScale(w, x));
  }

  lemma WSumMSingle(w: real, m: Matrix)
    ensures WSumM([w], [m]) == MScale(w, m)
  {
    assert [w][..0] == [] && [m][..0] == [];
    MAddEmpty(MScale(w, m));
  }

  /** One step of the loop `acc += ws[i] * xs[i]`. */
  lemma WSumStep(ws: seq<real>, xs: seq<Vector>, i: nat)
    requires |ws| == |xs| && i < |xs|
    ensures WSum(ws[..i + 1], xs[..i + 1]) == VAdd(WSum(ws[..i], xs[..i]), VScale(ws[i], xs[i]))
  {
    assert ws[..i + 1][..i] == ws[..i] && xs[..i + 1][..i] == xs[..i];
  }

  lemma WSumMStep(ws: seq<real>, ms: seq<Matrix>, i: nat)
    requires |ws| == |ms| && i < |ms|
    ensures WSumM(ws[..i + 1], ms[..i + 1]) == MAdd(WSumM(ws[..i], ms[..i]), MScale(ws[i], ms[i]))
  {
    assert ws[..i + 1][..i] == ws[..i] && ms[..i + 1][..i] == ms[..i];
  }

  // ---------------------------------------------------------------------
  // Symmetry

  lemma SymmetrizeIsSymmetric(m: Matrix)
    ensures IsSymmetric(Symmetrize(m))
  {
  }

  lemma SymmetrizeKeepsSymmetric(m: Matrix)
    requires IsSymmetric(m)
    ensures Symmetrize(m) == m
  {
    forall i | 0 <= i < |m| ensures Symmetrize(m)[i] == m[i] {
      assert forall j :: 0 <= j < |m| ==> Symmetrize(m)[i][j] == m[i][j];
    }
  }
}
