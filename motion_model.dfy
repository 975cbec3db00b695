/** The kinematic models of tracklib/model/model.py: polynomial transition and
    process-noise matrices (Bar-Shalom, Li and Kirubarajan, sections 6.2 and
    6.3), position-only measurement matrices (section 6.5), the linear
    coordinated-turn measurement, and the conversion of states and covariances
    between the model types "cv", "ca" and "ct2D". */
module MotionModel {
  import opened Errors
  import opened Linalg

  // ---------------------------------------------------------------------
  // Scalar helpers

  function Factorial(n: nat): (r: nat)
    ensures r >= 1
  {
    if n == 0 then 1 else n * Factorial(n - 1)
  }

  function Pow(x: real, n: nat): real
  {
    if n == 0 then 1.0 else x * Pow(x, n - 1)
  }

  /** `T^k / k!`, the weight of the k-th derivative in a step of length T;
      zero for negative k (below the diagonal of a transition block). */
  function Taylor(T: real, k: int): real
  {
    if k < 0 then 0.0 else Pow(T, k) / Factorial(k) as real
  }

  lemma PowSmall(T: real)
    ensures Pow(T, 0) == 1.0 && Pow(T, 1) == T && Pow(T, 2) == T * T && Pow(T, 3) == T * T * T
    ensures Pow(T, 4) == T * T * T * T && Pow(T, 5) == T * T * T * T * T
  {
    assert Pow(T, 1) == T * Pow(T, 0);
    assert Pow(T, 2) == T * Pow(T, 1);
    assert Pow(T, 3) == T * Pow(T, 2);
    assert Pow(T, 4) == T * Pow(T, 3);
    assert Pow(T, 5) == T * Pow(T, 4);
  }

  lemma TaylorSmall(T: real)
    ensures Taylor(T, -1) == 0.0 && Taylor(T, 0) == 1.0 && Taylor(T, 1) == T && Taylor(T, 2) == T * T / 2.0
  {
    PowSmall(T);
    assert Factorial(1) == 1 && Factorial(2) == 2;
  }

  lemma PowZero(k: nat)
    requires k > 0
    ensures Pow(0.0, k) == 0.0
  {
  }

  // ---------------------------------------------------------------------
  // Transition matrices

  /** The one-axis block `F_base`: entry (r, c) is `T^(c-r)/(c-r)!` on and
      above the diagonal and 0 below it. */
  function PolyBlock(order: nat, T: real): (m: Matrix)
    ensures IsMatrix(m, order + 1, order + 1)
  {
    seq(order + 1, r => seq(order + 1, c => Taylor(T, c - r)))
  }

  /** The contents of a two-dimensional array, row by row. */
  function Snapshot(a: array2<real>): (m: Matrix)
    reads a
    ensures IsMatrix(m, a.Length0, a.Length1)
    ensures forall i, j :: 0 <= i < a.Length0 && 0 <= j < a.Length1 ==> m[i][j] == a[i, j]
  {
    seq(a.Length0, i requires 0 <= i < a.Length0 reads a =>
      seq(a.Length1, j requires 0 <= j < a.Length1 reads a => a[i, j]))
  }

  /** The loop of `F_poly`: the first row of `F_base` gets `T^c/c!`, and
      every later row is the first row shifted right by its index. */
  method FillPolyBlock(order: nat, T: real) returns (block: Matrix)
    ensures block == PolyBlock(order, T)
  {
    var b := order + 1;
    var base := new real[b, b]((i, j) => 0.0);
    for c := 0 to b
      invariant forall i, j :: 0 <= i < b && 0 <= j < b ==>
        base[i, j] == (if i == 0 && j < c then Taylor(T, j) else 0.0)
    {
      base[0, c] := Pow(T, c) / Factorial(c) as real;
    }
    for row := 1 to b
      invariant forall i, j :: 0 <= i < b && 0 <= j < b ==>
        base[i, j] == (if i < row then Taylor(T, j - i) else 0.0)
    {
      for c := row to b
        invariant forall i, j :: 0 <= i < b && 0 <= j < b ==>
          base[i, j] == (if i < row || (i == row && j < c) then Taylor(T, j - i) else 0.0)
      {
        base[row, c] := base[0, c - row];
      }
    }
    block := Snapshot(base);
    forall i | 0 <= i <= order ensures block[i] == PolyBlock(order, T)[i] {
      assert forall j :: 0 <= j <= order ==> block[i][j] == PolyBlock(order, T)[i][j];
    }
  }

  /** `F_poly`: the block `F_base` repeated along the diagonal once per axis. */
  method FPoly(order: int, axis: int, T: real) returns (r: Result<Matrix>)
    ensures r.Success? <==> order >= 0 && axis >= 0
    ensures r.Success? ==> r.value == Kron(Identity(axis + 1), PolyBlock(order, T))
  {
    if order < 0 || axis < 0 {
      return Failure(AssertionError);
    }
    var block := FillPolyBlock(order, T);
    return Success(Kron(Identity(axis + 1), block));
  }

  /** `F_poly(order, axis, T)` is square with side (order+1)(axis+1); entry
      (i, j) is zero outside the diagonal blocks and `T^(c-r)/(c-r)!` inside
      them, with r = i mod (order+1) and c = j mod (order+1). */
  lemma PolyTransitionEntry(order: nat, axis: nat, T: real, i: nat, j: nat)
    requires i < (axis + 1) * (order + 1) && j < (axis + 1) * (order + 1)
    ensures var F := Kron(Identity(axis + 1), PolyBlock(order, T));
      |F| == (axis + 1) * (order + 1) && |F[i]| == (axis + 1) * (order + 1) &&
      F[i][j] == (if i / (order + 1) == j / (order + 1) then Taylor(T, j % (order + 1) - i % (order + 1)) else 0.0)
  {
    var b, k := order + 1, axis + 1;
    BlockSplit(i, b, k);
    BlockSplit(j, b, k);
    var bi, ri, bj, rj := i / b, i % b, j / b, j % b;
    KronIdentityBlock(k, PolyBlock(order, T), b, i, j, bi, ri, bj, rj);
    PolyBlockEntry(order, T, ri, rj);
  }

  lemma PolyBlockEntry(order: nat, T: real, r: nat, c: nat)
    requires r <= order && c <= order
    ensures PolyBlock(order, T)[r][c] == Taylor(T, c - r)
  {
  }

  /** The diagonal of `F_poly` is all ones. */
  lemma PolyTransitionDiagonal(order: nat, axis: nat, T: real, i: nat)
    requires i < (axis + 1) * (order + 1)
    ensures Kron(Identity(axis + 1), PolyBlock(order, T))[i][i] == 1.0
  {
    PolyTransitionEntry(order, axis, T, i, i);
    TaylorSmall(T);
  }

  /** A step of length zero leaves every state unchanged. */
  lemma PolyTransitionZeroStep(order: nat, axis: nat)
    ensures Kron(Identity(axis + 1), PolyBlock(order, 0.0)) == Identity((axis + 1) * (order + 1))
  {
    var n := (axis + 1) * (order + 1);
    var F := Kron(Identity(axis + 1), PolyBlock(order, 0.0));
    PolyTransitionEntry(order, axis, 0.0, 0, 0);
    forall i | 0 <= i < n ensures F[i] == Identity(n)[i] {
      PolyTransitionEntry(order, axis, 0.0, i, 0);
      forall j | 0 <= j < n ensures F[i][j] == Identity(n)[i][j] {
        ZeroStepEntry(order, axis, i, j);
      }
    }
  }

  lemma ZeroStepEntry(order: nat, axis: nat, i: nat, j: nat)
    requires i < (axis + 1) * (order + 1) && j < (axis + 1) * (order + 1)
    ensures Kron(Identity(axis + 1), PolyBlock(order, 0.0))[i][j] == if i == j then 1.0 else 0.0
  {
    var b, k := order + 1, axis + 1;
    BlockSplit(i, b, k);
    BlockSplit(j, b, k);
    var bi, ri, bj, rj := i / b, i % b, j / b, j % b;
    KronIdentityBlock(k, PolyBlock(order, 0.0), b, i, j, bi, ri, bj, rj);
    PolyBlockEntry(order, 0.0, ri, rj);
    TaylorAtZero(rj - ri);
    assert i == j <==> bi == bj && ri == rj;
  }

  /** A step of length zero: `0^k / k!` is 1 for k = 0 and 0 otherwise. */
  lemma TaylorAtZero(k: int)
    ensures Taylor(0.0, k) == if k == 0 then 1.0 else 0.0
  {
    TaylorSmall(0.0);
    if k > 0 {
      PowZero(k);
    }
  }

  /** The constant-velocity block (Bar-Shalom, Li and Kirubarajan, sections 6.2.2 and 6.3.2). */
  function CvBlock(T: real): Matrix { [[1.0, T], [0.0, 1.0]] }

  /** The constant-acceleration block (Bar-Shalom, Li and Kirubarajan, sections 6.2.3 and 6.3.3). */
  function CaBlock(T: real): Matrix { [[1.0, T, T * T / 2.0], [0.0, 1.0, T], [0.0, 0.0, 1.0]] }

  /** `F_cv`: one constant-velocity block per axis. */
  method FCv(axis: int, T: real) returns (r: Result<Matrix>)
    ensures r.Success? <==> axis >= 0
    ensures r.Success? ==> r.value == Kron(Identity(axis + 1), CvBlock(T))
  {
    r := FPoly(1, axis, T);
    assert PolyBlock(1, T) == CvBlock(T) by {
      TaylorSmall(T);
      assert PolyBlock(1, T)[0] == CvBlock(T)[0];
      assert PolyBlock(1, T)[1] == CvBlock(T)[1];
    }
  }

  /** `F_ca`: one constant-acceleration block per axis. */
  method FCa(axis: int, T: real) returns (r: Result<Matrix>)
    ensures r.Success? <==> axis >= 0
    ensures r.Success? ==> r.value == Kron(Identity(axis + 1), CaBlock(T))
  {
    r := FPoly(2, axis, T);
    assert PolyBlock(2, T) == CaBlock(T) by {
      TaylorSmall(T);
      assert Taylor(T, -2) == 0.0;
      assert PolyBlock(2, T)[0] == CaBlock(T)[0];
      assert PolyBlock(2, T)[1] == CaBlock(T)[1];
      assert PolyBlock(2, T)[2] == CaBlock(T)[2];
    }
  }

  // ---------------------------------------------------------------------
  // Process noise

  /** A standard deviation given as one number or as one entry per axis. */
  datatype Std = Scalar(s: real) | PerAxis(v: seq<real>)

  /** A scalar is repeated for each of the axis + 1 axes; a list is taken as is. */
  function StdVector(std: Std, axis: nat): (v: Vector)
    ensures std.Scalar? ==> |v| == axis + 1 && forall k :: 0 <= k < |v| ==> v[k] == std.s
    ensures std.PerAxis? ==> v == std.v
  {
    match std
    case Scalar(s) => seq(axis + 1, _ => s)
    case PerAxis(v) => v
  }

  /** `diag(std)**2`, the per-axis noise intensities. */
  function Intensities(std: Std, axis: nat): Matrix
  {
    Diag(Squares(StdVector(std, axis)))
  }

  function Squares(v: Vector): (s: Vector)
    ensures |s| == |v| && forall k :: 0 <= k < |v| ==> s[k] == v[k] * v[k]
  {
    seq(|v|, k requires 0 <= k < |v| => v[k] * v[k])
  }

  /** `Q_base` of the discretised continuous-time model: with a = order - c
      and b = order - r, entry (r, c) is `T^(a+b+1) / (a! b! (a+b+1))`. */
  function DcBlock(order: nat, T: real): (m: Matrix)
    ensures IsMatrix(m, order + 1, order + 1)
  {
    seq(order + 1, r requires 0 <= r <= order => seq(order + 1, c requires 0 <= c <= order =>
      var a, b := order - c, order - r;
      Pow(T, a + b + 1) / (Factorial(a) * Factorial(b) * (a + b + 1)) as real))
  }

  /** The gains `L[k] = T^(ht+order-k) / (ht+order-k)!` of the direct
      discrete-time model. */
  function DdGains(order: nat, T: real, ht: nat): (l: Vector)
    ensures |l| == order + 1
  {
    seq(order + 1, k requires 0 <= k <= order => Taylor(T, ht + order - k))
  }

  /** `Q_poly_dc`. */
  function QPolyDc(order: int, axis: int, T: real, std: Std): (r: Result<Matrix>)
    ensures r.Success? <==> order >= 0 && axis >= 0
    ensures r.Success? ==> IsSymmetric(r.value) && |r.value| == |StdVector(std, axis)| * (order + 1)
  {
    if order < 0 || axis < 0 then Failure(AssertionError)
    else
      DcBlockSymmetric(order, T);
      KronDiagSymmetric(Squares(StdVector(std, axis)), DcBlock(order, T));
      Success(Kron(Intensities(std, axis), DcBlock(order, T)))
  }

  lemma DcBlockSymmetric(order: nat, T: real)
    ensures IsSymmetric(DcBlock(order, T))
  {
    var m := DcBlock(order, T);
    forall r, c | 0 <= r <= order && 0 <= c <= order ensures m[r][c] == m[c][r] {
      var a, b := order - c, order - r;
      assert Factorial(a) * Factorial(b) == Factorial(b) * Factorial(a);
    }
  }

  /** `kron(diag(s)**2, L L')` for the per-axis deviations `s`: the
      covariance `Q_poly_dd` builds once `std` is a vector. */
  function DdCov(order: nat, T: real, s: Vector, ht: nat): Matrix
  {
    Kron(Diag(Squares(s)), Outer(DdGains(order, T, ht), DdGains(order, T, ht)))
  }

  /** `Q_poly_dd`, for a non-negative `ht` (the default is 0). */
  function QPolyDd(order: int, axis: int, T: real, std: Std, ht: nat): (r: Result<Matrix>)
    ensures r.Success? <==> order >= 0 && axis >= 0
    ensures r.Success? ==> IsSymmetric(r.value) && |r.value| == |StdVector(std, axis)| * (order + 1)
  {
    if order < 0 || axis < 0 then Failure(AssertionError)
    else
      var l := DdGains(order, T, ht);
      OuterSymmetric(l);
      KronDiagSymmetric(Squares(StdVector(std, axis)), Outer(l, l));
      Success(DdCov(order, T, StdVector(std, axis), ht))
  }

  lemma OuterSymmetric(l: Vector)
    requires |l| > 0
    ensures IsMatrix(Outer(l, l), |l|, |l|) && IsSymmetric(Outer(l, l))
  {
  }

  /** Entry (i, j) of `Q_poly_dd` is `std[i/b]^2 L[i%b] L[j%b]` inside the
      diagonal blocks (b = order + 1) and 0 outside them. */
  lemma QPolyDdEntry(order: nat, T: real, s: Vector, ht: nat, b: nat, i: nat, j: nat)
    requires b == order + 1 && i < |s| * b && j < |s| * b
    ensures var Q, l := DdCov(order, T, s, ht), DdGains(order, T, ht);
      |Q| == |s| * b && |Q[i]| == |s| * b &&
      Q[i][j] == if i / b == j / b then (At(s, i / b) * At(s, i / b)) * (At(l, i % b) * At(l, j % b)) else 0.0
  {
    IntensityOuterEntry(s, DdGains(order, T, ht), b, i, j);
  }

  /** The same entry of `kron(diag(s)**2, outer(l, l))` for gains `l` of
      any length `b`. */
  lemma IntensityOuterEntry(s: Vector, l: Vector, b: nat, i: nat, j: nat)
    requires |l| == b > 0 && i < |s| * b && j < |s| * b
    ensures var K := Kron(Diag(Squares(s)), Outer(l, l));
      |K| == |s| * b && |K[i]| == |s| * b &&
      K[i][j] == if i / b == j / b then (At(s, i / b) * At(s, i / b)) * (At(l, i % b) * At(l, j % b)) else 0.0
  {
    OuterSymmetric(l);
    KronDiagEntry(Squares(s), Outer(l, l), b, i, j);
  }

  /** Continuous white-noise acceleration (Bar-Shalom, Li and Kirubarajan, section 6.2.2). */
  function CvDcBlock(T: real): Matrix
  {
    [[T * T * T / 3.0, T * T / 2.0], [T * T / 2.0, T]]
  }

  /** Continuous Wiener-process acceleration (Bar-Shalom, Li and Kirubarajan, section 6.2.3). */
  function CaDcBlock(T: real): Matrix
  {
    [[T * T * T * T * T / 20.0, T * T * T * T / 8.0, T * T * T / 6.0],
     [T * T * T * T / 8.0, T * T * T / 3.0, T * T / 2.0],
     [T * T * T / 6.0, T * T / 2.0, T]]
  }

  /** Discrete white-noise acceleration (Bar-Shalom, Li and Kirubarajan, section 6.3.2). */
  function CvDdBlock(T: real): Matrix
  {
    [[T * T * T * T / 4.0, T * T * T / 2.0], [T * T * T / 2.0, T * T]]
  }

  /** Discrete Wiener-process acceleration (Bar-Shalom, Li and Kirubarajan, section 6.3.3). */
  function CaDdBlock(T: real): Matrix
  {
    [[T * T * T * T / 4.0, T * T * T / 2.0, T * T / 2.0],
     [T * T * T / 2.0, T * T, T],
     [T * T / 2.0, T, 1.0]]
  }

  /** `Q_cv_dc`. */
  function QCvDc(axis: int, T: real, std: Std): (r: Result<Matrix>)
    ensures r.Success? <==> axis >= 0
    ensures r.Success? ==> r.value == Kron(Intensities(std, axis), CvDcBlock(T))
  {
    assert DcBlock(1, T) == CvDcBlock(T) by {
      PowSmall(T);
      assert Factorial(1) == 1;
      assert DcBlock(1, T)[0][0] == T * T * T / 3.0;
      assert DcBlock(1, T)[0][1] == T * T / 2.0;
      assert DcBlock(1, T)[0] == CvDcBlock(T)[0];
      assert DcBlock(1, T)[1] == CvDcBlock(T)[1];
    }
    QPolyDc(1, axis, T, std)
  }

  /** `Q_ca_dc`. */
  function QCaDc(axis: int, T: real, std: Std): (r: Result<Matrix>)
    ensures r.Success? <==> axis >= 0
    ensures r.Success? ==> r.value == Kron(Intensities(std, axis), CaDcBlock(T))
  {
    assert DcBlock(2, T) == CaDcBlock(T) by {
      PowSmall(T);
      assert Factorial(1) == 1 && Factorial(2) == 2;
      var m := DcBlock(2, T);
      assert m[0][0] == T * T * T * T * T / 20.0 && m[0][1] == T * T * T * T / 8.0 && m[0][2] == T * T * T / 6.0;
      assert m[1][0] == T * T * T * T / 8.0 && m[1][1] == T * T * T / 3.0 && m[1][2] == T * T / 2.0;
      assert m[2][0] == T * T * T / 6.0 && m[2][1] == T * T / 2.0 && m[2][2] == T;
      assert DcBlock(2, T)[0] == CaDcBlock(T)[0];
      assert DcBlock(2, T)[1] == CaDcBlock(T)[1];
      assert DcBlock(2, T)[2] == CaDcBlock(T)[2];
    }
    QPolyDc(2, axis, T, std)
  }

  /** `Q_cv_dd`, the direct discrete-time model with ht = 1. */
  function QCvDd(axis: int, T: real, std: Std): (r: Result<Matrix>)
    ensures r.Success? <==> axis >= 0
    ensures r.Success? ==> r.value == Kron(Intensities(std, axis), CvDdBlock(T))
  {
    assert Outer(DdGains(1, T, 1), DdGains(1, T, 1)) == CvDdBlock(T) by {
      var l := DdGains(1, T, 1);
      assert l == [T * T / 2.0, T] by {
        TaylorSmall(T);
      }
      assert Outer(l, l)[0][0] == T * T * T * T / 4.0 && Outer(l, l)[0][1] == T * T * T / 2.0;
      assert Outer(l, l)[1][0] == T * T * T / 2.0 && Outer(l, l)[1][1] == T * T;
      assert Outer(l, l)[0] == CvDdBlock(T)[0];
      assert Outer(l, l)[1] == CvDdBlock(T)[1];
    }
    QPolyDd(1, axis, T, std, 1)
  }

  /** `Q_ca_dd`, the direct discrete-time model with ht = 0. */
  function QCaDd(axis: int, T: real, std: Std): (r: Result<Matrix>)
    ensures r.Success? <==> axis >= 0
    ensures r.Success? ==> r.value == Kron(Intensities(std, axis), CaDdBlock(T))
  {
    assert Outer(DdGains(2, T, 0), DdGains(2, T, 0)) == CaDdBlock(T) by {
      var l := DdGains(2, T, 0);
      assert l == [T * T / 2.0, T, 1.0] by {
        TaylorSmall(T);
      }
      assert Outer(l, l)[0][0] == T * T * T * T / 4.0 && Outer(l, l)[0][1] == T * T * T / 2.0;
      assert Outer(l, l)[0][2] == T * T / 2.0;
      assert Outer(l, l)[1][0] == T * T * T / 2.0 && Outer(l, l)[1][1] == T * T && Outer(l, l)[1][2] == T;
      assert Outer(l, l)[2][0] == T * T / 2.0 && Outer(l, l)[2][1] == T && Outer(l, l)[2][2] == 1.0;
      assert Outer(l, l)[0] == CaDdBlock(T)[0];
      assert Outer(l, l)[1] == CaDdBlock(T)[1];
      assert Outer(l, l)[2] == CaDdBlock(T)[2];
    }
    QPolyDd(2, axis, T, std, 0)
  }

  // ---------------------------------------------------------------------
  // Measurement matrices

  /** `H_only_pos`: every (order+1)-th row of the identity, which reads the
      position of each axis. */
  function HOnlyPos(order: int, axis: int): (r: Result<Matrix>)
    ensures r.Success? <==> order >= 0 && axis >= 0
    ensures r.Success? ==>
      IsMatrix(r.value, axis + 1, (order + 1) * (axis + 1)) &&
      forall i, j :: 0 <= i <= axis && 0 <= j < (order + 1) * (axis + 1) ==>
        (r.value[i][j] == 1.0 <==> j == i * (order + 1)) &&
        (r.value[i][j] == 0.0 <==> j != i * (order + 1))
  {
    if order < 0 || axis < 0 then Failure(AssertionError)
    else
      var n := (order + 1) * (axis + 1);
      var h := seq(axis + 1, i requires 0 <= i <= axis => Identity(n)[RowBelow(i, order + 1, axis + 1)]);
      Success(h)
  }

  /** Row `i * b` of an identity with `b * k` rows exists for `i < k`. */
  function RowBelow(i: nat, b: nat, k: nat): (r: nat)
    requires i < k && b > 0
    ensures r == i * b && r < b * k
  {
    assert i * b <= (k - 1) * b;
    i * b
  }

  /** `H_cv`. */
  function HCv(axis: int): (r: Result<Matrix>)
    ensures r.Success? <==> axis >= 0
    ensures r.Success? ==> IsSelector(r.value, 2 * (axis + 1), seq(axis + 1, i => 2 * i))
  {
    match HOnlyPos(1, axis)
    case Failure(e) => Failure(e)
    case Success(h) =>
      forall i | 0 <= i <= axis ensures h[i] == Unit(2 * (axis + 1), 2 * i) {
        assert |h[i]| == 2 * (axis + 1);
      }
      Success(h)
  }

  /** `H_ca`. */
  function HCa(axis: int): (r: Result<Matrix>)
    ensures r.Success? <==> axis >= 0
    ensures r.Success? ==> IsSelector(r.value, 3 * (axis + 1), seq(axis + 1, i => 3 * i))
  {
    match HOnlyPos(2, axis)
    case Failure(e) => Failure(e)
    case Success(h) =>
      forall i | 0 <= i <= axis ensures h[i] == Unit(3 * (axis + 1), 3 * i) {
        assert |h[i]| == 3 * (axis + 1);
      }
      Success(h)
  }

  // ---------------------------------------------------------------------
  // Coordinated-turn measurement

  /** `np.insert(H, k, 0, axis=1)`: a zero column in front of column k. */
  function InsertZeroColumn(m: Matrix, k: nat): Matrix
    requires forall i :: 0 <= i < |m| ==> k <= |m[i]|
  {
    seq(|m|, i requires 0 <= i < |m| => m[i][..k] + [0.0] + m[i][k..])
  }

  /** The matrix built inside `h_ct2D` and `h_ct2D_jac`: the cv position
      matrix for two axes (three when `axis == 2`) with a zero column for the
      turn rate at index 4. */
  function CtMeasurementMatrix(axis: int): Matrix
  {
    var h := HOnlyPos(1, if axis == 2 then 2 else 1).value;
    InsertZeroColumn(h, 4)
  }

  /** `h_ct2D(axis)` applied to a state: two positions, three when `axis == 2`. */
  function HCt2D(axis: int, x: Vector): (v: Vector)
    ensures |v| == if axis == 2 then 3 else 2
  {
    MatVec(CtMeasurementMatrix(axis), x)
  }

  /** `h_ct2D_jac(axis)` at a state: the measurement is linear, so the
      Jacobian is the matrix `HCt2D` applies, whatever the state. */
  function HCt2DJac(axis: int, x: Vector): (J: Matrix)
    ensures IsSelector(J, if axis == 2 then 7 else 5, if axis == 2 then [0, 2, 5] else [0, 2])
    ensures MatVec(J, x) == HCt2D(axis, x)
  {
    CtMeasurementSelects(axis);
    CtMeasurementMatrix(axis)
  }

  lemma UnitInsertZero(n: nat, k: nat, p: nat)
    requires k < n && p <= n
    ensures Unit(n, k)[..p] + [0.0] + Unit(n, k)[p..] == Unit(n + 1, if k < p then k else k + 1)
  {
    var u := Unit(n, k)[..p] + [0.0] + Unit(n, k)[p..];
    forall j | 0 <= j < n + 1 ensures u[j] == Unit(n + 1, if k < p then k else k + 1)[j] {
      if j < p {
        assert u[j] == Unit(n, k)[j];
      } else if j > p {
        assert u[j] == Unit(n, k)[j - 1];
      }
    }
  }

  /** The rows of `H_only_pos(1, axis)` are the unit rows 0, 2, 4, ... */
  lemma HOnlyPosCvRows(axis: nat, i: nat)
    requires i <= axis
    ensures HOnlyPos(1, axis).value[i] == Unit(2 * (axis + 1), 2 * i)
  {
    var h := HOnlyPos(1, axis).value;
    forall j | 0 <= j < 2 * (axis + 1) ensures h[i][j] == Unit(2 * (axis + 1), 2 * i)[j] {
    }
  }

  lemma CtMeasurementSelects(axis: int)
    ensures IsSelector(CtMeasurementMatrix(axis), if axis == 2 then 7 else 5, if axis == 2 then [0, 2, 5] else [0, 2])
  {
    var a := if axis == 2 then 2 else 1;
    var src := if axis == 2 then [0, 2, 5] else [0, 2];
    var m := CtMeasurementMatrix(axis);
    forall i | 0 <= i <= a ensures m[i] == Unit(2 * (a + 1) + 1, src[i]) {
      HOnlyPosCvRows(a, i);
      UnitInsertZero(2 * (a + 1), 2 * i, 4);
    }
  }

  /** `h_ct2D` reads the positions x, y (and z) of a ct2D state, skipping the
      velocities and the turn rate at index 4. */
  lemma HCt2DReadsPositions(axis: int, x: Vector)
    requires |x| == (if axis == 2 then 7 else 5)
    ensures HCt2D(axis, x) == (if axis == 2 then [x[0], x[2], x[5]] else [x[0], x[2]])
  {
    CtMeasurementSelects(axis);
    SelectorApply(CtMeasurementMatrix(axis), |x|, if axis == 2 then [0, 2, 5] else [0, 2], x);
  }

  // ---------------------------------------------------------------------
  // Switching between model types

  /** The model types the switch functions know. */
  predicate Known(t: string) { t == "cv" || t == "ca" || t == "ct2D" }

  /** The variance `uncertainty` given to every component a switch adds. */
  const Uncertainty: real := 100.0

  /** `m[:, cols]`. */
  function SelectColumns(m: Matrix, cols: seq<int>): Matrix
  {
    seq(|m|, i => seq(|cols|, c requires 0 <= c < |cols| => Entry(m, i, cols[c])))
  }

  /** `m[rows, :]`. */
  function SelectRows(m: Matrix, rows: seq<int>): Matrix
  {
    seq(|rows|, r requires 0 <= r < |rows| => Row(m, rows[r]))
  }

  /** `range(2, 3a, 3)`: the accelerations of a ca state with a axes. */
  function Accelerations(a: nat): seq<int> { seq(a, k => 3 * k + 2) }

  /** The indices 0 .. 3a-1 that `np.delete(..., range(2, 3a, 3), ...)`
      keeps, in order: position and velocity of every axis. */
  function CaKept(a: nat): seq<int> { seq(2 * a, c => 3 * (c / 2) + c % 2) }

  lemma AccelerationsMembers(a: nat, k: int)
    ensures k in Accelerations(a) <==> 0 <= k < 3 * a && k % 3 == 2
  {
    if 0 <= k < 3 * a && k % 3 == 2 {
      assert Accelerations(a)[k / 3] == k;
    }
  }

  /** `CaKept(a)` is exactly what the deletion leaves, in increasing order. */
  lemma CaKeptIsComplement(a: nat)
    ensures forall c :: 0 <= c < 2 * a ==> 0 <= CaKept(a)[c] < 3 * a && CaKept(a)[c] !in Accelerations(a)
    ensures forall c, d :: 0 <= c < d < 2 * a ==> CaKept(a)[c] < CaKept(a)[d]
    ensures forall k :: 0 <= k < 3 * a && k !in Accelerations(a) ==> k in CaKept(a)
  {
    forall c | 0 <= c < 2 * a ensures 0 <= CaKept(a)[c] < 3 * a && CaKept(a)[c] !in Accelerations(a) {
      AccelerationsMembers(a, CaKept(a)[c]);
    }
    forall k | 0 <= k < 3 * a && k !in Accelerations(a) ensures k in CaKept(a) {
      AccelerationsMembers(a, k);
      assert CaKept(a)[2 * (k / 3) + k % 3] == k;
    }
  }

  /** The selection matrices built by the switch functions. */
  function CvToCaMatrix(a: nat): Matrix { SelectColumns(Identity(3 * a), CaKept(a)) }
  function CaToCvMatrix(a: nat): Matrix { SelectRows(Identity(3 * a), CaKept(a)) }
  function CvToCtMatrix(a: nat): Matrix { if a == 3 then BlockDiag(Eye(5, 4), Identity(2)) else Eye(5, 4) }
  function CtToCvMatrix(a: nat): Matrix { if a == 3 then BlockDiag(Eye(4, 5), Identity(2)) else Eye(4, 5) }

  /** For each output component, the input component a selection matrix
      copies, or -1 for a component it sets to zero. */
  function CvToCaSource(a: nat): seq<int> { seq(3 * a, r => if r % 3 == 2 then -1 else 2 * (r / 3) + r % 3) }
  function CvToCtSource(a: nat): seq<int> { if a == 3 then [0, 1, 2, 3, -1, 4, 5] else [0, 1, 2, 3, -1] }
  function CtToCvSource(a: nat): seq<int> { if a == 3 then [0, 1, 2, 3, 5, 6] else [0, 1, 2, 3] }

  lemma CaKeptSource(a: nat, r: nat, c: nat)
    requires r < 3 * a && c < 2 * a
    ensures CaKept(a)[c] == r <==> c == CvToCaSource(a)[r]
  {
    assert c == 2 * (c / 2) + c % 2;
    assert r == 3 * (r / 3) + r % 3;
  }

  lemma CvToCaSelects(a: nat)
    ensures IsSelector(CvToCaMatrix(a), 2 * a, CvToCaSource(a)) && Cols(CvToCaMatrix(a)) == 2 * a
  {
    var m := CvToCaMatrix(a);
    var src := CvToCaSource(a);
    forall r | 0 <= r < 3 * a ensures m[r] == Unit(2 * a, src[r]) {
      forall c | 0 <= c < 2 * a ensures m[r][c] == Unit(2 * a, src[r])[c] {
        CaKeptSource(a, r, c);
        CaKeptIsComplement(a);
      }
    }
  }

  lemma CaToCvSelects(a: nat)
    ensures IsSelector(CaToCvMatrix(a), 3 * a, CaKept(a)) && Cols(CaToCvMatrix(a)) == 3 * a
  {
    CaKeptIsComplement(a);
  }

  lemma CvToCtSelects(a: nat)
    ensures IsSelector(CvToCtMatrix(a), if a == 3 then 6 else 4, CvToCtSource(a))
    ensures Cols(CvToCtMatrix(a)) == if a == 3 then 6 else 4
  {
    var src := CvToCtSource(a);
    if a == 3 {
      var m := BlockDiag(Eye(5, 4), Identity(2));
      assert Cols(Eye(5, 4)) == 4 && Cols(Identity(2)) == 2;
      forall i | 0 <= i < 7 ensures m[i] == Unit(6, src[i]) {
        assert src[i] == if i < 4 then i else if i == 4 then -1 else i - 1 by {
          assert i == 0 || i == 1 || i == 2 || i == 3 || i == 4 || i == 5 || i == 6;
        }
        forall j | 0 <= j < 6 ensures m[i][j] == Unit(6, src[i])[j] {
          if i < 5 && j < 4 {
            assert m[i][j] == Entry(Eye(5, 4), i, j);
            assert Row(Eye(5, 4), i) == Unit(4, i);
          } else if i >= 5 && j >= 4 {
            assert m[i][j] == Entry(Identity(2), i - 5, j - 4);
            assert Row(Identity(2), i - 5) == Unit(2, i - 5);
          } else {
            assert m[i][j] == 0.0;
          }
        }
      }
    } else {
      var m := Eye(5, 4);
      forall i | 0 <= i < 5 ensures m[i] == Unit(4, src[i]) {
        forall j | 0 <= j < 4 ensures m[i][j] == Unit(4, src[i])[j] {
        }
      }
    }
  }

  lemma CtToCvSelects(a: nat)
    ensures IsSelector(CtToCvMatrix(a), if a == 3 then 7 else 5, CtToCvSource(a))
    ensures Cols(CtToCvMatrix(a)) == if a == 3 then 7 else 5
  {
    var src := CtToCvSource(a);
    if a == 3 {
      var m := BlockDiag(Eye(4, 5), Identity(2));
      assert Cols(Eye(4, 5)) == 5 && Cols(Identity(2)) == 2;
      forall i | 0 <= i < 6 ensures m[i] == Unit(7, src[i]) {
        assert src[i] == if i < 4 then i else i + 1 by {
          assert i == 0 || i == 1 || i == 2 || i == 3 || i == 4 || i == 5;
        }
        forall j | 0 <= j < 7 ensures m[i][j] == Unit(7, src[i])[j] {
          if i < 4 && j < 5 {
            assert m[i][j] == Entry(Eye(4, 5), i, j);
            assert Row(Eye(4, 5), i) == Unit(5, i);
          } else if i >= 4 && j >= 5 {
            assert m[i][j] == Entry(Identity(2), i - 4, j - 5);
            assert Row(Identity(2), i - 4) == Unit(2, i - 4);
          } else {
            assert m[i][j] == 0.0;
          }
        }
      }
    } else {
      var m := Eye(4, 5);
      forall i | 0 <= i < 4 ensures m[i] == Unit(5, src[i]) {
        forall j | 0 <= j < 5 ensures m[i][j] == Unit(5, src[i])[j] {
        }
      }
    }
  }

  /** `slct @ x`; numpy refuses a vector whose length is not the column count. */
  function Apply(s: Matrix, x: Vector): Result<Vector>
  {
    if |x| == Cols(s) then Success(MatVec(s, x)) else Failure(NotAligned)
  }

  /** `slct @ P @ slct.T`; numpy refuses a P that is not square of the
      column count. */
  function Carry(s: Matrix, P: Matrix): Result<Matrix>
  {
    if IsMatrix(P, Cols(s), Cols(s)) then Success(Congruence(s, P)) else Failure(NotAligned)
  }

  function ThenApply(r: Result<Vector>, s: Matrix): Result<Vector>
  {
    match r
    case Failure(e) => Failure(e)
    case Success(v) => Apply(s, v)
  }

  function ThenCarry(r: Result<Matrix>, s: Matrix): Result<Matrix>
  {
    match r
    case Failure(e) => Failure(e)
    case Success(m) => Carry(s, m)
  }

  /** `ctmp[idx, idx] = uncertainty` on the fresh result of a switch. */
  function Pad(r: Result<Matrix>, idx: seq<int>): Result<Matrix>
  {
    match r
    case Failure(e) => Failure(e)
    case Success(m) =>
      Success(seq(|m|, i requires 0 <= i < |m| => seq(|m[i]|, j requires 0 <= j < |m[i]| =>
        if i == j && i in idx then Uncertainty else m[i][j])))
  }

  /** `state_switch`: an unknown type is a `ValueError`, a switch to the same
      known type gives back `x`, and the only other failure is a size the
      selection matrix does not fit. */
  function StateSwitch(x: Vector, typeIn: string, typeOut: string): (r: Result<Vector>)
    ensures !Known(typeIn) || !Known(typeOut) ==> r == Failure(ValueError)
    ensures Known(typeIn) && typeIn == typeOut ==> r == Success(x)
    ensures r.Failure? ==> r.error == ValueError || r.error == NotAligned
  {
    if typeIn == "cv" then
      var a := |x| / 2;
      if typeOut == "cv" then Success(x)
      else if typeOut == "ca" then Apply(CvToCaMatrix(a), x)
      else if typeOut == "ct2D" then Apply(CvToCtMatrix(a), x)
      else Failure(ValueError)
    else if typeIn == "ca" then
      var a := |x| / 3;
      if typeOut == "cv" then Apply(CaToCvMatrix(a), x)
      else if typeOut == "ca" then Success(x)
      else if typeOut == "ct2D" then ThenApply(Apply(CaToCvMatrix(a), x), CvToCtMatrix(a))
      else Failure(ValueError)
    else if typeIn == "ct2D" then
      var a := |x| / 2;
      if typeOut == "cv" then Apply(CtToCvMatrix(a), x)
      else if typeOut == "ca" then ThenApply(Apply(CtToCvMatrix(a), x), CvToCaMatrix(a))
      else if typeOut == "ct2D" then Success(x)
      else Failure(ValueError)
    else Failure(ValueError)
  }

  /** `cov_switch`: an unknown type is a `ValueError`, a switch to the same
      known type gives back `P`, and the only other failure is a shape the
      selection matrix does not fit. */
  function CovSwitch(P: Matrix, typeIn: string, typeOut: string): (r: Result<Matrix>)
    ensures !Known(typeIn) || !Known(typeOut) ==> r == Failure(ValueError)
    ensures Known(typeIn) && typeIn == typeOut ==> r == Success(P)
    ensures r.Failure? ==> r.error == ValueError || r.error == NotAligned
  {
    if typeIn == "cv" then
      var a := |P| / 2;
      if typeOut == "cv" then Success(P)
      else if typeOut == "ca" then Pad(Carry(CvToCaMatrix(a), P), Accelerations(a))
      else if typeOut == "ct2D" then Pad(Carry(CvToCtMatrix(a), P), [4])
      else Failure(ValueError)
    else if typeIn == "ca" then
      var a := |P| / 3;
      if typeOut == "cv" then Carry(CaToCvMatrix(a), P)
      else if typeOut == "ca" then Success(P)
      else if typeOut == "ct2D" then Pad(ThenCarry(Carry(CaToCvMatrix(a), P), CvToCtMatrix(a)), [4])
      else Failure(ValueError)
    else if typeIn == "ct2D" then
      var a := |P| / 2;
      if typeOut == "cv" then Carry(CtToCvMatrix(a), P)
      else if typeOut == "ca" then Pad(ThenCarry(Carry(CtToCvMatrix(a), P), CvToCaMatrix(a)), Accelerations(a))
      else if typeOut == "ct2D" then Success(P)
      else Failure(ValueError)
    else Failure(ValueError)
  }

  // ---------------------------------------------------------------------
  // What the switches compute

  /** `x` read through `src`: entry i is `x[src[i]]`, or 0 where `src[i]` is -1. */
  function Picked(x: Vector, src: seq<int>): Vector
  {
    seq(|src|, i requires 0 <= i < |src| => At(x, src[i]))
  }

  /** `P` read through `src` on both sides, zero wherever `src` is -1. */
  function Blank(P: Matrix, src: seq<int>): Matrix
  {
    seq(|src|, i requires 0 <= i < |src| => seq(|src|, j requires 0 <= j < |src| => Entry(P, src[i], src[j])))
  }

  /** The covariance a switch hands over: `P` read through `src`, and for an
      added component (src is -1) variance `Uncertainty` and no correlation. */
  function Carried(P: Matrix, src: seq<int>): Matrix
  {
    seq(|src|, i requires 0 <= i < |src| => seq(|src|, j requires 0 <= j < |src| =>
      if src[i] < 0 || src[j] < 0 then (if i == j then Uncertainty else 0.0) else Entry(P, src[i], src[j])))
  }

  /** Reading through `inner` and then through `outer`. */
  function Compose(outer: seq<int>, inner: seq<int>): seq<int>
  {
    seq(|outer|, i requires 0 <= i < |outer| => if 0 <= outer[i] < |inner| then inner[outer[i]] else -1)
  }

  function Range(n: nat): seq<int> { seq(n, i => i) }

  /** The input sizes for which a switch between two known types goes through. */
  predicate Accepts(typeIn: string, typeOut: string, n: nat)
  {
    typeIn == typeOut ||
    (typeIn == "cv" && typeOut == "ca" && n % 2 == 0) ||
    (typeIn == "cv" && typeOut == "ct2D" && (n == 4 || n == 6)) ||
    (typeIn == "ca" && typeOut == "cv" && n % 3 == 0) ||
    (typeIn == "ca" && typeOut == "ct2D" && (n == 6 || n == 9)) ||
    (typeIn == "ct2D" && typeOut == "cv" && (n == 5 || n == 7)) ||
    (typeIn == "ct2D" && typeOut == "ca" && (n == 5 || n == 7))
  }

  /** Where each component of a switched state comes from. */
  function SwitchSource(typeIn: string, typeOut: string, n: nat): seq<int>
  {
    if typeIn == typeOut then Range(n)
    else if typeIn == "cv" && typeOut == "ca" then CvToCaSource(n / 2)
    else if typeIn == "cv" then CvToCtSource(n / 2)
    else if typeIn == "ca" && typeOut == "cv" then CaKept(n / 3)
    else if typeIn == "ca" then Compose(CvToCtSource(n / 3), CaKept(n / 3))
    else if typeOut == "cv" then CtToCvSource(n / 2)
    else Compose(CvToCaSource(n / 2), CtToCvSource(n / 2))
  }

  lemma ApplySelects(m: Matrix, d: nat, src: seq<int>, x: Vector)
    requires IsSelector(m, d, src) && Cols(m) == d
    ensures Apply(m, x) == if |x| == d then Success(Picked(x, src)) else Failure(NotAligned)
  {
    if |x| == d {
      SelectorApply(m, d, src, x);
    }
  }

  lemma CarrySelects(m: Matrix, d: nat, src: seq<int>, P: Matrix)
    requires IsSelector(m, d, src) && Cols(m) == d && (d > 0 || |src| == 0) && IsMatrix(P, |P|, |P|)
    ensures Carry(m, P) == if |P| == d then Success(Blank(P, src)) else Failure(NotAligned)
  {
    if |P| == d && d > 0 {
      SelectorCongruence(m, d, src, P);
    } else if |P| == d {
      assert |m| == 0 && Congruence(m, P) == [] == Blank(P, src);
    }
  }

  lemma PadBlank(P: Matrix, src: seq<int>, idx: seq<int>)
    requires forall i :: 0 <= i < |src| ==> (i in idx <==> src[i] < 0)
    ensures Pad(Success(Blank(P, src)), idx) == Success(Carried(P, src))
  {
    var b := Blank(P, src);
    var c := Pad(Success(b), idx).value;
    assert |c| == |src|;
    forall i | 0 <= i < |src| ensures c[i] == Carried(P, src)[i] {
      assert |c[i]| == |src|;
      forall j | 0 <= j < |src| ensures c[i][j] == Carried(P, src)[i][j] {
      }
    }
    assert c == Carried(P, src);
  }

  lemma BlankIsCarried(P: Matrix, src: seq<int>)
    requires forall i :: 0 <= i < |src| ==> src[i] >= 0
    ensures Blank(P, src) == Carried(P, src)
  {
    forall i | 0 <= i < |src| ensures Blank(P, src)[i] == Carried(P, src)[i] {
      forall j | 0 <= j < |src| ensures Blank(P, src)[i][j] == Carried(P, src)[i][j] {
      }
    }
  }

  lemma PickedCompose(x: Vector, inner: seq<int>, outer: seq<int>)
    requires forall i :: 0 <= i < |outer| ==> outer[i] < |inner|
    ensures Picked(Picked(x, inner), outer) == Picked(x, Compose(outer, inner))
  {
  }

  lemma BlankCompose(P: Matrix, inner: seq<int>, outer: seq<int>)
    requires forall i :: 0 <= i < |outer| ==> outer[i] < |inner|
    ensures Blank(Blank(P, inner), outer) == Blank(P, Compose(outer, inner))
  {
    var l := Blank(Blank(P, inner), outer);
    var r := Blank(P, Compose(outer, inner));
    forall i | 0 <= i < |outer| ensures l[i] == r[i] {
      forall j | 0 <= j < |outer| ensures l[i][j] == r[i][j] {
      }
    }
  }

  lemma PickedRange(x: Vector)
    ensures Picked(x, Range(|x|)) == x
  {
  }

  lemma CarriedRange(P: Matrix)
    requires IsMatrix(P, |P|, |P|)
    ensures Carried(P, Range(|P|)) == P
  {
    var c := Carried(P, Range(|P|));
    forall i | 0 <= i < |P| ensures c[i] == P[i] {
      forall j | 0 <= j < |P| ensures c[i][j] == P[i][j] {
      }
    }
  }

  lemma CvToCaSourceWithin(a: nat)
    ensures forall i :: 0 <= i < 3 * a ==> -1 <= CvToCaSource(a)[i] < 2 * a
    ensures forall i :: 0 <= i < 3 * a ==> (CvToCaSource(a)[i] < 0 <==> i in Accelerations(a))
  {
    forall i | 0 <= i < 3 * a ensures CvToCaSource(a)[i] < 0 <==> i in Accelerations(a) {
      AccelerationsMembers(a, i);
    }
  }

  /** `state_switch` moves components as `SwitchSource` says, fails with
      `ValueError` for an unknown type and with numpy's shape error for a
      state of the wrong size. */
  lemma StateSwitchSpec(x: Vector, typeIn: string, typeOut: string)
    ensures StateSwitch(x, typeIn, typeOut) ==
      if !Known(typeIn) || !Known(typeOut) then Failure(ValueError)
      else if Accepts(typeIn, typeOut, |x|) then Success(Picked(x, SwitchSource(typeIn, typeOut, |x|)))
      else Failure(NotAligned)
  {
    PickedRange(x);
    var n := |x|;
    if typeIn == "cv" && typeOut == "ca" {
      CvToCaSelects(n / 2);
      ApplySelects(CvToCaMatrix(n / 2), 2 * (n / 2), CvToCaSource(n / 2), x);
    } else if typeIn == "cv" && typeOut == "ct2D" {
      CvToCtSelects(n / 2);
      ApplySelects(CvToCtMatrix(n / 2), if n / 2 == 3 then 6 else 4, CvToCtSource(n / 2), x);
    } else if typeIn == "ca" && typeOut == "cv" {
      CaToCvSelects(n / 3);
      ApplySelects(CaToCvMatrix(n / 3), 3 * (n / 3), CaKept(n / 3), x);
    } else if typeIn == "ca" && typeOut == "ct2D" {
      var a := n / 3;
      CaToCvSelects(a);
      CvToCtSelects(a);
      ApplySelects(CaToCvMatrix(a), 3 * a, CaKept(a), x);
      if n == 3 * a {
        ApplySelects(CvToCtMatrix(a), if a == 3 then 6 else 4, CvToCtSource(a), Picked(x, CaKept(a)));
        if a == 2 || a == 3 {
          PickedCompose(x, CaKept(a), CvToCtSource(a));
        }
      }
    } else if typeIn == "ct2D" && typeOut == "cv" {
      CtToCvSelects(n / 2);
      ApplySelects(CtToCvMatrix(n / 2), if n / 2 == 3 then 7 else 5, CtToCvSource(n / 2), x);
    } else if typeIn == "ct2D" && typeOut == "ca" {
      var a := n / 2;
      CtToCvSelects(a);
      CvToCaSelects(a);
      ApplySelects(CtToCvMatrix(a), if a == 3 then 7 else 5, CtToCvSource(a), x);
      if n == 5 || n == 7 {
        ApplySelects(CvToCaMatrix(a), 2 * a, CvToCaSource(a), Picked(x, CtToCvSource(a)));
        CvToCaSourceWithin(a);
        PickedCompose(x, CtToCvSource(a), CvToCaSource(a));
      }
    }
  }

  lemma SwitchSourceWithin(typeIn: string, typeOut: string, n: nat)
    requires Known(typeIn) && Known(typeOut) && Accepts(typeIn, typeOut, n)
    ensures forall i :: 0 <= i < |SwitchSource(typeIn, typeOut, n)| ==> -1 <= SwitchSource(typeIn, typeOut, n)[i] < n
  {
    if typeIn == "cv" && typeOut == "ca" {
      CvToCaSourceWithin(n / 2);
    } else if typeIn == "ca" && typeOut == "cv" {
      CaKeptIsComplement(n / 3);
    } else if typeIn == "ca" && typeOut == "ct2D" {
      CaKeptIsComplement(n / 3);
    } else if typeIn == "ct2D" && typeOut == "ca" {
      CvToCaSourceWithin(n / 2);
    }
  }

  lemma CovCvToCa(P: Matrix)
    requires IsMatrix(P, |P|, |P|)
    ensures CovSwitch(P, "cv", "ca") ==
      if |P| % 2 == 0 then Success(Carried(P, CvToCaSource(|P| / 2))) else Failure(NotAligned)
  {
    var a := |P| / 2;
    CvToCaSelects(a);
    CarrySelects(CvToCaMatrix(a), 2 * a, CvToCaSource(a), P);
    if |P| == 2 * a {
      CvToCaSourceWithin(a);
      PadBlank(P, CvToCaSource(a), Accelerations(a));
    }
  }

  lemma CovCvToCt(P: Matrix)
    requires IsMatrix(P, |P|, |P|)
    ensures CovSwitch(P, "cv", "ct2D") ==
      if |P| == 4 || |P| == 6 then Success(Carried(P, CvToCtSource(|P| / 2))) else Failure(NotAligned)
  {
    var a := |P| / 2;
    CvToCtSelects(a);
    CarrySelects(CvToCtMatrix(a), if a == 3 then 6 else 4, CvToCtSource(a), P);
    if |P| == 4 || |P| == 6 {
      PadBlank(P, CvToCtSource(a), [4]);
    }
  }

  lemma CovCaToCv(P: Matrix)
    requires IsMatrix(P, |P|, |P|)
    ensures CovSwitch(P, "ca", "cv") ==
      if |P| % 3 == 0 then Success(Carried(P, CaKept(|P| / 3))) else Failure(NotAligned)
  {
    var a := |P| / 3;
    CaToCvSelects(a);
    CarrySelects(CaToCvMatrix(a), 3 * a, CaKept(a), P);
    if |P| == 3 * a {
      CaKeptIsComplement(a);
      BlankIsCarried(P, CaKept(a));
    }
  }

  lemma CovCaToCt(P: Matrix)
    requires IsMatrix(P, |P|, |P|)
    ensures CovSwitch(P, "ca", "ct2D") ==
      if |P| == 6 || |P| == 9 then Success(Carried(P, Compose(CvToCtSource(|P| / 3), CaKept(|P| / 3))))
      else Failure(NotAligned)
  {
    var a := |P| / 3;
    CaToCvSelects(a);
    CvToCtSelects(a);
    CarrySelects(CaToCvMatrix(a), 3 * a, CaKept(a), P);
    if |P| == 3 * a {
      var b := Blank(P, CaKept(a));
      CarrySelects(CvToCtMatrix(a), if a == 3 then 6 else 4, CvToCtSource(a), b);
      if a == 2 || a == 3 {
        BlankCompose(P, CaKept(a), CvToCtSource(a));
        CaKeptIsComplement(a);
        PadBlank(P, Compose(CvToCtSource(a), CaKept(a)), [4]);
      }
    }
  }

  lemma CovCtToCv(P: Matrix)
    requires IsMatrix(P, |P|, |P|)
    ensures CovSwitch(P, "ct2D", "cv") ==
      if |P| == 5 || |P| == 7 then Success(Carried(P, CtToCvSource(|P| / 2))) else Failure(NotAligned)
  {
    var a := |P| / 2;
    CtToCvSelects(a);
    CarrySelects(CtToCvMatrix(a), if a == 3 then 7 else 5, CtToCvSource(a), P);
    if |P| == 5 || |P| == 7 {
      BlankIsCarried(P, CtToCvSource(a));
    }
  }

  lemma CovCtToCa(P: Matrix)
    requires IsMatrix(P, |P|, |P|)
    ensures CovSwitch(P, "ct2D", "ca") ==
      if |P| == 5 || |P| == 7 then Success(Carried(P, Compose(CvToCaSource(|P| / 2), CtToCvSource(|P| / 2))))
      else Failure(NotAligned)
  {
    var a := |P| / 2;
    CtToCvSelects(a);
    CvToCaSelects(a);
    CarrySelects(CtToCvMatrix(a), if a == 3 then 7 else 5, CtToCvSource(a), P);
    if |P| == 5 || |P| == 7 {
      var b := Blank(P, CtToCvSource(a));
      CarrySelects(CvToCaMatrix(a), 2 * a, CvToCaSource(a), b);
      CvToCaSourceWithin(a);
      BlankCompose(P, CtToCvSource(a), CvToCaSource(a));
      PadBlank(P, Compose(CvToCaSource(a), CtToCvSource(a)), Accelerations(a));
    }
  }

  /** `cov_switch` carries the covariance as `Carried` says, fails with
      `ValueError` for an unknown type and with numpy's shape error for a
      covariance of the wrong size. */
  lemma CovSwitchSpec(P: Matrix, typeIn: string, typeOut: string)
    requires IsMatrix(P, |P|, |P|)
    ensures CovSwitch(P, typeIn, typeOut) ==
      if !Known(typeIn) || !Known(typeOut) then Failure(ValueError)
      else if Accepts(typeIn, typeOut, |P|) then Success(Carried(P, SwitchSource(typeIn, typeOut, |P|)))
      else Failure(NotAligned)
  {
    CarriedRange(P);
    if typeIn == "cv" && typeOut == "ca" {
      CovCvToCa(P);
    } else if typeIn == "cv" && typeOut == "ct2D" {
      CovCvToCt(P);
    } else if typeIn == "ca" && typeOut == "cv" {
      CovCaToCv(P);
    } else if typeIn == "ca" && typeOut == "ct2D" {
      CovCaToCt(P);
    } else if typeIn == "ct2D" && typeOut == "cv" {
      CovCtToCv(P);
    } else if typeIn == "ct2D" && typeOut == "ca" {
      CovCtToCa(P);
    }
  }

  // ---------------------------------------------------------------------
  // Properties of the switches

  /** A switched covariance copies the shared block of the input, and every
      added component gets variance `Uncertainty` and no correlation. */
  lemma CovSwitchCarries(P: Matrix, typeIn: string, typeOut: string)
    requires IsMatrix(P, |P|, |P|) && Known(typeIn) && Known(typeOut) && Accepts(typeIn, typeOut, |P|)
    ensures CovSwitch(P, typeIn, typeOut).Success?
    ensures var src := SwitchSource(typeIn, typeOut, |P|);
      var C := CovSwitch(P, typeIn, typeOut).value;
      IsMatrix(C, |src|, |src|) &&
      (forall i :: 0 <= i < |src| ==> src[i] < |P|) &&
      (forall i, j :: 0 <= i < |src| && 0 <= j < |src| && src[i] >= 0 && src[j] >= 0 ==>
         C[i][j] == P[src[i]][src[j]]) &&
      (forall i, j :: 0 <= i < |src| && 0 <= j < |src| && src[i] < 0 ==>
         C[i][j] == (if i == j then Uncertainty else 0.0) && C[j][i] == (if i == j then Uncertainty else 0.0))
  {
    CovSwitchSpec(P, typeIn, typeOut);
    SwitchSourceWithin(typeIn, typeOut, |P|);
  }

  lemma CarriedSymmetric(P: Matrix, src: seq<int>)
    requires IsSymmetric(P)
    ensures IsSymmetric(Carried(P, src))
  {
  }

  /** A symmetric covariance stays symmetric through every switch. */
  lemma CovSwitchKeepsSymmetry(P: Matrix, typeIn: string, typeOut: string)
    requires IsSymmetric(P)
    ensures CovSwitch(P, typeIn, typeOut).Success? ==> IsSymmetric(CovSwitch(P, typeIn, typeOut).value)
  {
    CovSwitchSpec(P, typeIn, typeOut);
    if Known(typeIn) && Known(typeOut) && Accepts(typeIn, typeOut, |P|) {
      CarriedSymmetric(P, SwitchSource(typeIn, typeOut, |P|));
    }
  }

  /** A state and a covariance of the same size switch alike: both go
      through or both fail with the same error, and the results agree in size. */
  lemma SwitchesAgree(x: Vector, P: Matrix, typeIn: string, typeOut: string)
    requires IsMatrix(P, |P|, |P|) && |x| == |P|
    ensures StateSwitch(x, typeIn, typeOut).Success? <==> CovSwitch(P, typeIn, typeOut).Success?
    ensures StateSwitch(x, typeIn, typeOut).Failure? ==>
      StateSwitch(x, typeIn, typeOut).error == CovSwitch(P, typeIn, typeOut).error
    ensures StateSwitch(x, typeIn, typeOut).Success? ==>
      |StateSwitch(x, typeIn, typeOut).value| == |CovSwitch(P, typeIn, typeOut).value| &&
      IsMatrix(CovSwitch(P, typeIn, typeOut).value, |StateSwitch(x, typeIn, typeOut).value|,
               |StateSwitch(x, typeIn, typeOut).value|)
  {
    StateSwitchSpec(x, typeIn, typeOut);
    CovSwitchSpec(P, typeIn, typeOut);
  }

  /** From cv to ca a zero acceleration follows every (position, velocity) pair. */
  lemma CvToCaInsertsZeros(x: Vector)
    requires |x| % 2 == 0
    ensures StateSwitch(x, "cv", "ca").Success?
    ensures var y := StateSwitch(x, "cv", "ca").value;
      |y| == 3 * (|x| / 2) &&
      forall k :: 0 <= k < |x| / 2 ==> y[3 * k] == x[2 * k] && y[3 * k + 1] == x[2 * k + 1] && y[3 * k + 2] == 0.0
  {
    StateSwitchSpec(x, "cv", "ca");
    var src := CvToCaSource(|x| / 2);
    forall k | 0 <= k < |x| / 2 ensures src[3 * k] == 2 * k && src[3 * k + 1] == 2 * k + 1 && src[3 * k + 2] == -1 {
      assert (3 * k) / 3 == k && (3 * k + 1) / 3 == k && (3 * k + 2) / 3 == k;
    }
  }

  /** From ca to cv every third entry, the acceleration, is dropped. */
  lemma CaToCvDropsAccelerations(x: Vector)
    requires |x| % 3 == 0
    ensures StateSwitch(x, "ca", "cv").Success?
    ensures var y := StateSwitch(x, "ca", "cv").value;
      |y| == 2 * (|x| / 3) &&
      forall k :: 0 <= k < |x| / 3 ==> y[2 * k] == x[3 * k] && y[2 * k + 1] == x[3 * k + 1]
  {
    StateSwitchSpec(x, "ca", "cv");
    var src := CaKept(|x| / 3);
    forall k | 0 <= k < |x| / 3 ensures src[2 * k] == 3 * k && src[2 * k + 1] == 3 * k + 1 {
      assert (2 * k) / 2 == k && (2 * k + 1) / 2 == k;
    }
  }

  /** From cv to ct2D a zero turn rate is inserted at index 4, ahead of z and
      vz when the state has three axes. */
  lemma CvToCt2DInsertsTurnRate(x: Vector)
    requires |x| == 4 || |x| == 6
    ensures StateSwitch(x, "cv", "ct2D") == Success(x[..4] + [0.0] + x[4..])
  {
    StateSwitchSpec(x, "cv", "ct2D");
    var y := Picked(x, CvToCtSource(|x| / 2));
    var z := x[..4] + [0.0] + x[4..];
    assert |y| == |z|;
    forall i | 0 <= i < |y| ensures y[i] == z[i] {
      if i < 4 {
        assert y[i] == x[i] && z[i] == x[i];
      } else if i == 4 {
        assert y[i] == 0.0;
      } else {
        assert y[i] == x[i - 1] && z[i] == x[i - 1];
      }
    }
    assert y == z;
  }

  /** From ct2D to cv the turn rate at index 4 is dropped. */
  lemma Ct2DToCvDropsTurnRate(x: Vector)
    requires |x| == 5 || |x| == 7
    ensures StateSwitch(x, "ct2D", "cv") == Success(x[..4] + x[5..])
  {
    StateSwitchSpec(x, "ct2D", "cv");
    var y := Picked(x, CtToCvSource(|x| / 2));
    var z := x[..4] + x[5..];
    assert |y| == |z|;
    forall i | 0 <= i < |y| ensures y[i] == z[i] {
      if i < 4 {
        assert y[i] == x[i] && z[i] == x[i];
      } else {
        assert y[i] == x[i + 1] && z[i] == x[i + 1];
      }
    }
    assert y == z;
  }

  lemma ComposeCaRoundTrip(a: nat)
    ensures Compose(CaKept(a), CvToCaSource(a)) == Range(2 * a)
  {
    forall c | 0 <= c < 2 * a ensures Compose(CaKept(a), CvToCaSource(a))[c] == c {
      CaKeptIsComplement(a);
      CaKeptSource(a, CaKept(a)[c], c);
    }
  }

  /** cv -> ca -> cv gives back the state. */
  lemma StateRoundTripCa(x: Vector)
    requires |x| % 2 == 0
    ensures StateSwitch(x, "cv", "ca").Success?
    ensures StateSwitch(StateSwitch(x, "cv", "ca").value, "ca", "cv") == Success(x)
  {
    var a := |x| / 2;
    StateSwitchSpec(x, "cv", "ca");
    var y := Picked(x, CvToCaSource(a));
    StateSwitchSpec(y, "ca", "cv");
    assert |y| / 3 == a;
    CaKeptIsComplement(a);
    PickedCompose(x, CvToCaSource(a), CaKept(a));
    ComposeCaRoundTrip(a);
    PickedRange(x);
  }

  /** cv -> ct2D -> cv gives back the state. */
  lemma StateRoundTripCt2D(x: Vector)
    requires |x| == 4 || |x| == 6
    ensures StateSwitch(x, "cv", "ct2D").Success?
    ensures StateSwitch(StateSwitch(x, "cv", "ct2D").value, "ct2D", "cv") == Success(x)
  {
    CvToCt2DInsertsTurnRate(x);
    var y := x[..4] + [0.0] + x[4..];
    Ct2DToCvDropsTurnRate(y);
    assert y[..4] + y[5..] == x;
  }

  /** Reading back through `back` what was carried through `there`, when
      `back` finds every original component again, restores the covariance. */
  lemma CarriedBack(P: Matrix, there: seq<int>, back: seq<int>)
    requires IsMatrix(P, |P|, |P|) && |back| == |P|
    requires forall i :: 0 <= i < |back| ==> 0 <= back[i] < |there| && there[back[i]] == i
    ensures Carried(Carried(P, there), back) == P
  {
    var r := Carried(Carried(P, there), back);
    forall i | 0 <= i < |P| ensures r[i] == P[i] {
      forall j | 0 <= j < |P| ensures r[i][j] == P[i][j] {
      }
    }
  }

  /** cv -> ca -> cv gives back the covariance. */
  lemma CovRoundTripCa(P: Matrix)
    requires IsMatrix(P, |P|, |P|) && |P| % 2 == 0
    ensures CovSwitch(P, "cv", "ca").Success?
    ensures CovSwitch(CovSwitch(P, "cv", "ca").value, "ca", "cv") == Success(P)
  {
    var a := |P| / 2;
    CovCvToCa(P);
    var C := Carried(P, CvToCaSource(a));
    CovCaToCv(C);
    assert |C| / 3 == a;
    var kept := CaKept(a);
    forall i | 0 <= i < 2 * a ensures 0 <= kept[i] < 3 * a && CvToCaSource(a)[kept[i]] == i {
      CaKeptIsComplement(a);
      CaKeptSource(a, kept[i], i);
    }
    CarriedBack(P, CvToCaSource(a), kept);
  }

  /** cv -> ct2D -> cv gives back the covariance. */
  lemma CovRoundTripCt2D(P: Matrix)
    requires IsMatrix(P, |P|, |P|) && (|P| == 4 || |P| == 6)
    ensures CovSwitch(P, "cv", "ct2D").Success?
    ensures CovSwitch(CovSwitch(P, "cv", "ct2D").value, "ct2D", "cv") == Success(P)
  {
    var a := |P| / 2;
    CovCvToCt(P);
    var C := Carried(P, CvToCtSource(a));
    CovCtToCv(C);
    assert |C| / 2 == a;
    var there, back := CvToCtSource(a), CtToCvSource(a);
    forall i | 0 <= i < |back| ensures 0 <= back[i] < |there| && there[back[i]] == i {
      assert back[i] == if i < 4 then i else i + 1;
    }
    CarriedBack(P, there, back);
  }

  // ---------------------------------------------------------------------
  // model_switch

  /** What `model_switch` may be given. */
  datatype Switchable =
    | Pair(state: Vector, cov: Matrix)   // a list or tuple holding a state and a covariance
    | EmptySequence                      // an empty list or tuple
    | Single(first: Vector)              // a list or tuple holding only a state
    | Array1(v: Vector)                  // a one-dimensional array
    | Array2(m: Matrix)                  // a two-dimensional array
    | ZeroDimArray                       // an array without a length
    | HigherArray                        // an array of three or more dimensions
    | OtherSized                         // any other object that has a length
    | Unsized                            // any other object without a length

  datatype Switched = StateAndCov(state: Vector, cov: Matrix) | StateOnly(v: Vector) | CovOnly(m: Matrix)

  /** `model_switch`: `len(x)` is taken first, so an object without a length
      is a `TypeError` before the type of x is looked at. A list or tuple
      too short for `x[0]` or `x[1]` is an `IndexError`, raised after the
      state of a one-entry list has been switched. */
  function ModelSwitch(x: Switchable, typeIn: string, typeOut: string): (r: Result<Switched>)
    ensures x.Unsized? || x.ZeroDimArray? ==> r == Failure(TypeError)
    ensures x.HigherArray? || x.OtherSized? ==> r == Failure(ValueError)
    ensures x.EmptySequence? ==> r == Failure(IndexError)
    ensures x.Single? ==> r.Failure? && (r.error == IndexError <==> StateSwitch(x.first, typeIn, typeOut).Success?)
    ensures r.Success? ==>
      (x.Pair? && r.value.StateAndCov?) || (x.Array1? && r.value.StateOnly?) || (x.Array2? && r.value.CovOnly?)
  {
    match x
    case Unsized => Failure(TypeError)
    case ZeroDimArray => Failure(TypeError)
    case HigherArray => Failure(ValueError)
    case OtherSized => Failure(ValueError)
    case EmptySequence => Failure(IndexError)
    case Single(state) =>
      (match StateSwitch(state, typeIn, typeOut)
       case Failure(e) => Failure(e)
       case Success(_) => Failure(IndexError))
    case Pair(state, cov) =>
      (match StateSwitch(state, typeIn, typeOut)
       case Failure(e) => Failure(e)
       case Success(s) =>
         match CovSwitch(cov, typeIn, typeOut)
         case Failure(e) => Failure(e)
         case Success(c) => Success(StateAndCov(s, c)))
    case Array1(v) =>
      (match StateSwitch(v, typeIn, typeOut)
       case Failure(e) => Failure(e)
       case Success(s) => Success(StateOnly(s)))
    case Array2(m) =>
      (match CovSwitch(m, typeIn, typeOut)
       case Failure(e) => Failure(e)
       case Success(c) => Success(CovOnly(c)))
  }

  /** Switching a pair is switching its state as a 1-D array and its
      covariance as a 2-D array; for matching sizes one fails exactly when the
      other does. */
  lemma ModelSwitchPair(x: Vector, P: Matrix, typeIn: string, typeOut: string)
    requires IsMatrix(P, |P|, |P|) && |x| == |P|
    ensures ModelSwitch(Pair(x, P), typeIn, typeOut).Success? <==> ModelSwitch(Array1(x), typeIn, typeOut).Success?
    ensures ModelSwitch(Array1(x), typeIn, typeOut).Success? <==> ModelSwitch(Array2(P), typeIn, typeOut).Success?
    ensures ModelSwitch(Pair(x, P), typeIn, typeOut).Success? ==>
      ModelSwitch(Pair(x, P), typeIn, typeOut).value ==
        StateAndCov(ModelSwitch(Array1(x), typeIn, typeOut).value.v, ModelSwitch(Array2(P), typeIn, typeOut).value.m)
    ensures ModelSwitch(Pair(x, P), typeIn, typeOut).Failure? ==>
      ModelSwitch(Pair(x, P), typeIn, typeOut).error == ModelSwitch(Array1(x), typeIn, typeOut).error
  {
    SwitchesAgree(x, P, typeIn, typeOut);
  }
}
