/** `newton_sys` of tracklib/filter/model.py: the transition matrix `F`, the
    noise-gain matrix `L` and the position measurement matrix `H` of a
    Newtonian motion model whose state is ordered derivative by derivative
    (all `axis` positions, then all velocities, then all accelerations). */
module NewtonSystem {
  import opened Errors
  import opened Linalg
  import opened MotionModel

  datatype NewtonModel = NewtonModel(F: Matrix, L: Matrix, H: Matrix)

  /** The transition matrix: block `(p / axis, q / axis)` is `T^k / k!` times
      the identity, `k = q / axis - p / axis`, and zero below the block diagonal. */
  function NewtonTransition(T: real, dim: nat, axis: nat): Matrix
    requires axis > 0
  {
    seq(dim * axis, p => seq(dim * axis, q =>
      if p % axis == q % axis then Taylor(T, q / axis - p / axis) else 0.0))
  }

  /** The noise gain: block `i` is `T^(2-i) / (2-i)!` times the identity. */
  function NewtonGain(T: real, dim: nat, axis: nat): Matrix
    requires axis > 0
  {
    seq(dim * axis, p => seq(axis, c => if p % axis == c then Taylor(T, 2 - p / axis) else 0.0))
  }

  /** The rows one pass appends to `F`: the diagonal matrices `c[k] * I`
      side by side. */
  function BlockRow(c: seq<real>, axis: nat): Matrix
    requires axis > 0
  {
    seq(axis, row => seq(|c| * axis, q => if q % axis == row then At(c, q / axis) else 0.0))
  }

  /** Builds `F`, `L` and `H` one block at a time, shifting the Taylor
      coefficients `tmp` one place to the right after each block. */
  method NewtonSys(T: real, dim: int, axis: int) returns (r: Result<NewtonModel>)
    ensures r.Success? <==> 0 < dim <= 3 && 0 < axis <= 3
    ensures !r.Success? ==> r.error == AssertionError
    ensures r.Success? ==>
      r.value == NewtonModel(NewtonTransition(T, dim, axis), NewtonGain(T, dim, axis), Eye(axis, dim * axis))
  {
    if !(0 < dim <= 3) || !(0 < axis <= 3) {
      return Failure(AssertionError);
    }
    var items := [1.0, T, T * T / 2.0];
    var F: Matrix := [];
    var L: Matrix := [];
    var H: Matrix := seq(axis, _ => []);
    var tmp := items;
    TaylorSmall(T);
    for i := 0 to dim
      invariant |tmp| == 3 && forall k :: 0 <= k < 3 ==> tmp[k] == Taylor(T, k - i)
      invariant i * axis <= dim * axis
      invariant F == NewtonTransition(T, dim, axis)[..i * axis]
      invariant L == NewtonGain(T, dim, axis)[..i * axis]
      invariant |H| == axis && forall row :: 0 <= row < axis ==> H[row] == Eye(axis, dim * axis)[row][..i * axis]
    {
      assert tmp[..dim] == seq(dim, k requires 0 <= k < dim => Taylor(T, k - i));
      TransitionStep(T, dim, axis, i);
      F := F + BlockRow(tmp[..dim], axis);
      assert items[2 - i] == Taylor(T, 2 - i);
      GainStep(T, dim, axis, i);
      L := L + Diag(seq(axis, _ => items[2 - i]));
      var cols := if i == 0 then Identity(axis) else seq(axis, _ => Zeros(axis));
      MeasurementStep(dim, axis, i, cols);
      H := seq(axis, row requires 0 <= row < axis => H[row] + cols[row]);
      tmp := tmp[2 := 0.0];
      tmp := [tmp[2]] + tmp[..2];
    }
    assert F == NewtonTransition(T, dim, axis);
    assert L == NewtonGain(T, dim, axis);
    forall row | 0 <= row < axis
      ensures H[row] == Eye(axis, dim * axis)[row]
    {
      assert Eye(axis, dim * axis)[row][..dim * axis] == Eye(axis, dim * axis)[row];
    }
    assert H == Eye(axis, dim * axis);
    r := Success(NewtonModel(F, L, H));
  }

  /** Row `row` of block `i` lies inside a matrix of `k` blocks. */
  lemma BlockIndexBelow(i: nat, row: nat, n: nat, k: nat)
    requires i < k && row < n
    ensures i * n + row < k * n && (i + 1) * n <= k * n
  {
    var d: nat := k - i - 1;
    assert k * n == (i + 1) * n + d * n;
  }

  lemma TransitionStep(T: real, dim: nat, axis: nat, i: nat)
    requires 0 < axis && i < dim
    ensures (i + 1) * axis <= dim * axis
    ensures NewtonTransition(T, dim, axis)[..i * axis] + BlockRow(seq(dim, k requires 0 <= k < dim => Taylor(T, k - i)), axis)
         == NewtonTransition(T, dim, axis)[..(i + 1) * axis]
  {
    BlockIndexBelow(i, 0, axis, dim);
    var F := NewtonTransition(T, dim, axis);
    var c := seq(dim, k requires 0 <= k < dim => Taylor(T, k - i));
    var B := BlockRow(c, axis);
    forall row | 0 <= row < axis
      ensures B[row] == F[i * axis + row]
    {
      BlockIndexBelow(i, row, axis, dim);
      DivModBlock(i, row, axis);
      forall q | 0 <= q < dim * axis
        ensures B[row][q] == F[i * axis + row][q]
      {
        DivBelow(q, axis, dim);
      }
    }
    assert F[..(i + 1) * axis] == F[..i * axis] + B;
  }

  lemma GainStep(T: real, dim: nat, axis: nat, i: nat)
    requires 0 < axis && i < dim
    ensures (i + 1) * axis <= dim * axis
    ensures NewtonGain(T, dim, axis)[..i * axis] + Diag(seq(axis, _ => Taylor(T, 2 - i)))
         == NewtonGain(T, dim, axis)[..(i + 1) * axis]
  {
    BlockIndexBelow(i, 0, axis, dim);
    var L := NewtonGain(T, dim, axis);
    var D := Diag(seq(axis, _ => Taylor(T, 2 - i)));
    forall row | 0 <= row < axis
      ensures D[row] == L[i * axis + row]
    {
      BlockIndexBelow(i, row, axis, dim);
      DivModBlock(i, row, axis);
    }
    assert L[..(i + 1) * axis] == L[..i * axis] + D;
  }

  lemma MeasurementStep(dim: nat, axis: nat, i: nat, cols: Matrix)
    requires 0 < axis && i < dim
    requires cols == if i == 0 then Identity(axis) else seq(axis, _ => Zeros(axis))
    ensures (i + 1) * axis <= dim * axis
    ensures forall row :: 0 <= row < axis ==>
      Eye(axis, dim * axis)[row][..i * axis] + cols[row] == Eye(axis, dim * axis)[row][..(i + 1) * axis]
  {
    BlockIndexBelow(i, 0, axis, dim);
    forall row | 0 <= row < axis
      ensures Eye(axis, dim * axis)[row][..i * axis] + cols[row] == Eye(axis, dim * axis)[row][..(i + 1) * axis]
    {
      var e := Eye(axis, dim * axis)[row];
      assert e[i * axis..(i + 1) * axis] == cols[row];
      assert e[..(i + 1) * axis] == e[..i * axis] + e[i * axis..(i + 1) * axis];
    }
  }

  // ---------------------------------------------------------------------
  // Properties

  /** Where state component `p` of the derivative-major layout sits in the
      axis-major layout of `F_poly`. */
  function AxisMajor(p: nat, dim: nat, axis: nat): nat
    requires axis > 0
  {
    (p % axis) * dim + p / axis
  }

  /** `AxisMajor` is a one-to-one reordering of the state: it stays in range
      and the derivative and axis of `p` can be read back from it. */
  lemma AxisMajorReorders(p: nat, dim: nat, axis: nat)
    requires 0 < axis && 0 < dim && p < dim * axis
    ensures AxisMajor(p, dim, axis) < dim * axis
    ensures AxisMajor(p, dim, axis) / dim == p % axis && AxisMajor(p, dim, axis) % dim == p / axis
  {
    DivBelow(p, axis, dim);
    BlockIndexBelow(p % axis, p / axis, dim, axis);
    assert (p % axis) * dim + p / axis < axis * dim;
    DivModBlock(p % axis, p / axis, dim);
  }

  /** The transition of `newton_sys` is `F_poly(dim - 1, axis - 1, T)` with
      the state reordered from axis-major to derivative-major. */
  lemma NewtonIsReorderedPoly(T: real, dim: nat, axis: nat, p: nat, q: nat)
    requires 0 < dim && 0 < axis && p < dim * axis && q < dim * axis
    ensures AxisMajor(p, dim, axis) < dim * axis && AxisMajor(q, dim, axis) < dim * axis
    ensures var P := Kron(Identity(axis), PolyBlock(dim - 1, T));
      |P| == dim * axis && |P[AxisMajor(p, dim, axis)]| == dim * axis &&
      NewtonTransition(T, dim, axis)[p][q] == P[AxisMajor(p, dim, axis)][AxisMajor(q, dim, axis)]
  {
    var a, b := AxisMajor(p, dim, axis), AxisMajor(q, dim, axis);
    AxisMajorReorders(p, dim, axis);
    AxisMajorReorders(q, dim, axis);
    assert (axis - 1 + 1) * (dim - 1 + 1) == dim * axis;
    PolyTransitionEntry(dim - 1, axis - 1, T, a, b);
    assert NewtonTransition(T, dim, axis)[p][q] ==
      if a / dim == b / dim then Taylor(T, b % dim - a % dim) else 0.0;
  }

  /** Block `i` of the gain is entry `i` of the discrete white-noise gains of
      `Q_poly_dd` for the same order, with highest order `3 - dim`. */
  lemma NewtonGainIsDdGains(T: real, dim: nat, axis: nat, p: nat, c: nat)
    requires 0 < dim <= 3 && 0 < axis && p < dim * axis && c < axis
    ensures p / axis < dim
    ensures NewtonGain(T, dim, axis)[p][c] ==
      (if p % axis == c then DdGains(dim - 1, T, 3 - dim)[p / axis] else 0.0)
  {
    DivBelow(p, axis, dim);
  }

  /** `H` reads the positions: the first `axis` components of the state. */
  lemma NewtonMeasuresPositions(dim: nat, axis: nat, x: Vector)
    requires 0 < dim && 0 < axis && |x| == dim * axis
    ensures axis <= |x|
    ensures MatVec(Eye(axis, dim * axis), x) == x[..axis]
  {
    BlockIndexBelow(0, 0, axis, dim);
    var src := seq(axis, i => i);
    assert IsSelector(Eye(axis, dim * axis), dim * axis, src);
    SelectorApply(Eye(axis, dim * axis), dim * axis, src, x);
  }
}
