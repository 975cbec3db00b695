/** The matrix algebra of the extended Kalman filters in
    tracklib/filter/ekf.py (D. Simon, "Optimal State Estimation", 2006,
    chapter 13): the time update, the measurement update, its iterated form
    and the probability-weighted update of joint probabilistic data
    association (JPDA).  The filters' user functions (f, h, their Jacobians
    and Hessians) and the numerics (inverse, log-determinant, normal density)
    are parameters. */
module EkfSteps {
  import opened Errors
  import opened Linalg

  /** A Gaussian estimate: mean `x` and covariance `P`. */
  datatype Gaussian = Gaussian(x: Vector, P: Matrix)

  /** `lg.inv`, `log(det(S))` and the normal density of a Mahalanobis
      distance `q` under covariance `S`: the floating-point numerics the
      model leaves abstract. */
  datatype Numerics = Numerics(inv: Matrix -> Matrix, logDet: Matrix -> real, density: (real, Matrix) -> real)

  /** The measurement function at a point: its Jacobian `H`, its noise gain
      `M` and its value `z`. */
  datatype Linearisation = Linearisation(H: Matrix, M: Matrix, z: Vector)

  /** How a filter linearises its measurement function and where it takes
      the Hessians `HH[:, :, i]`. */
  datatype MeasurementModel = MeasurementModel(lin: Vector -> Linearisation, hes: Vector -> seq<Matrix>)

  /** Everything a measurement update needs besides the data.  `additive`
      filters take the JPDA noise gains from the caller; the others take
      them from the Jacobian. */
  datatype Correction = Correction(mm: MeasurementModel, order: int, zdim: nat, num: Numerics, additive: bool)

  /** `np.finfo(float).tiny`, the floor of every likelihood. */
  const Tiny: real := 2.2250738585072014 / TenTo(308)

  function TenTo(n: nat): (r: real)
    ensures r > 0.0
  {
    if n == 0 then 1.0 else 10.0 * TenTo(n - 1)
  }

  function RealMax(a: real, b: real): real { if a < b then b else a }

  function Halve(v: Vector): Vector { seq(|v|, i requires 0 <= i < |v| => v[i] / 2.0) }

  /** `FH[:, :, i]`, or the empty matrix when there is no slice `i`. */
  function Slice(hs: seq<Matrix>, i: int): Matrix { if 0 <= i < |hs| then hs[i] else [] }

  /** `[trace(FH[:, :, i] @ P) for i in range(n)]`. */
  function Quad(hs: seq<Matrix>, P: Matrix, n: nat): (q: Vector)
    ensures |q| == n
  {
    seq(n, i => Trace(MatMul(Slice(hs, i), P)))
  }

  /** The second-order term `quad / 2` that an order-2 filter adds. */
  function SecondOrder(v: Vector, order: int, hs: seq<Matrix>, P: Matrix, n: nat): Vector
  {
    if order == 2 then VAdd(v, Halve(Quad(hs, P, n))) else v
  }

  // ---------------------------------------------------------------------
  // Time update

  /** `sym(F P F' + L Q L')`. */
  function PredictCov(F: Matrix, P: Matrix, L: Matrix, Q: Matrix): (c: Matrix)
    ensures IsSymmetric(c)
  {
    var c := Symmetrize(MAdd(Congruence(F, P), Congruence(L, Q)));
    SymmetrizeIsSymmetric(MAdd(Congruence(F, P), Congruence(L, Q)));
    c
  }

  /** The predicted estimate from `fx = f(x, u)`, the Jacobian `F`, the
      noise gain `L` and the Hessians `FH` of `f` at the posterior. */
  function Predicted(fx: Vector, F: Matrix, L: Matrix, Q: Matrix, post: Gaussian,
                     order: int, FH: seq<Matrix>, xdim: nat): (e: Gaussian)
    ensures IsSymmetric(e.P)
    ensures order != 2 ==> e.x == fx
  {
    Gaussian(SecondOrder(fx, order, FH, post.P, xdim), PredictCov(F, post.P, L, Q))
  }

  /** With order 2, component `i` of the predicted state gains
      `trace(FH_i P) / 2`. */
  lemma SecondOrderPredictEntry(fx: Vector, F: Matrix, L: Matrix, Q: Matrix, post: Gaussian,
                                FH: seq<Matrix>, i: nat)
    requires i < |fx| && i < |FH|
    ensures var e := Predicted(fx, F, L, Q, post, 2, FH, |fx|);
      |e.x| == |fx| && e.x[i] == fx[i] + Trace(MatMul(FH[i], post.P)) / 2.0
  {
  }

  // ---------------------------------------------------------------------
  // Measurement update

  /** `sym(H P H' + M R M')`. */
  function InnovationCov(H: Matrix, P: Matrix, M: Matrix, R: Matrix): (S: Matrix)
    ensures IsSymmetric(S)
  {
    SymmetrizeIsSymmetric(MAdd(Congruence(H, P), Congruence(M, R)));
    Symmetrize(MAdd(Congruence(H, P), Congruence(M, R)))
  }

  /** `K = P H' inv(S)`: one row per state component, one column per
      column of `inv(S)`. */
  function Gain(P: Matrix, H: Matrix, S: Matrix, num: Numerics): (K: Matrix)
    ensures |K| == |P|
    ensures forall i :: 0 <= i < |K| ==> |K[i]| == Cols(num.inv(S))
  {
    MatMul(MatMul(P, Transpose(H)), num.inv(S))
  }

  /** `K (z - z_pred)` for one measurement: a change to every state
      component, and no change at all when the measurement is the predicted
      one. */
  function Increment(prior: Gaussian, H: Matrix, M: Matrix, R: Matrix, zPred: Vector, z: Vector, num: Numerics): (inc: Vector)
    ensures |inc| == |prior.P|
    ensures z == zPred ==> inc == Zeros(|prior.P|)
  {
    var S := InnovationCov(H, prior.P, M, R);
    var K := Gain(prior.P, H, S, num);
    var innov := VSub(z, zPred);
    if z == zPred then MatVecZeroRight(K, innov); MatVec(K, innov)
    else MatVec(K, innov)
  }

  /** `P - K S K'` for one measurement: a matrix with the rows of `P`. */
  function Reduced(prior: Gaussian, H: Matrix, M: Matrix, R: Matrix, num: Numerics): (red: Matrix)
    ensures |red| == |prior.P|
  {
    var S := InnovationCov(H, prior.P, M, R);
    MSub(prior.P, Congruence(Gain(prior.P, H, S, num), S))
  }

  /** The Kalman update of `prior` by the measurement `z`. */
  function Update(prior: Gaussian, H: Matrix, M: Matrix, R: Matrix, zPred: Vector, z: Vector, num: Numerics): (e: Gaussian)
    ensures IsSymmetric(e.P)
  {
    SymmetrizeIsSymmetric(Reduced(prior, H, M, R, num));
    Gaussian(VAdd(prior.x, Increment(prior, H, M, R, zPred, z, num)), Symmetrize(Reduced(prior, H, M, R, num)))
  }

  /** The predicted measurement of one pass: `h` at the linearisation point
      `at`, moved back to the prior mean on every pass after the first, plus
      the second-order term taken with the covariance of `at`. */
  function PredictedMeasurement(c: Correction, prior: Vector, at: Gaussian, first: bool): (r: Vector)
    ensures c.order != 2 && first ==> r == c.mm.lin(at.x).z
    ensures c.order != 2 && at.x == prior && |c.mm.lin(at.x).H| <= |c.mm.lin(at.x).z| ==> r == c.mm.lin(at.x).z
    ensures c.order == 2 && first ==> forall i :: 0 <= i < c.zdim ==>
      At(r, i) == At(c.mm.lin(at.x).z, i) + Trace(MatMul(Slice(c.mm.hes(at.x), i), at.P)) / 2.0
  {
    var lin := c.mm.lin(at.x);
    var base := if first then lin.z else VAdd(lin.z, MatVec(lin.H, VSub(prior, at.x)));
    if at.x == prior && |lin.H| <= |lin.z| then
      NoCorrectionAtPoint(lin, prior);
      SecondOrder(base, c.order, c.mm.hes(at.x), at.P, c.zdim)
    else SecondOrder(base, c.order, c.mm.hes(at.x), at.P, c.zdim)
  }

  /** One pass of `correct`: linearise at `at`, update the original prior. */
  function CorrectPass(c: Correction, R: Matrix, prior: Gaussian, at: Gaussian, first: bool, z: Vector): (e: Gaussian)
    ensures IsSymmetric(e.P)
  {
    var lin := c.mm.lin(at.x);
    Update(prior, lin.H, lin.M, R, PredictedMeasurement(c, prior.x, at, first), z, c.num)
  }

  /** The estimate after the first pass and `k` further passes. */
  function Corrected(k: nat, c: Correction, R: Matrix, prior: Gaussian, z: Vector): (e: Gaussian)
    ensures IsSymmetric(e.P)
  {
    if k == 0 then CorrectPass(c, R, prior, prior, true, z)
    else CorrectPass(c, R, prior, Corrected(k - 1, c, R, prior, z), false, z)
  }

  /** The first pass is the relinearised pass taken at the prior itself: the
      correction term `H (prior - at)` vanishes there. */
  lemma {:induction false} FirstPassIsPassAtPrior(c: Correction, R: Matrix, prior: Gaussian, z: Vector)
    requires |c.mm.lin(prior.x).H| <= |c.mm.lin(prior.x).z|
    ensures CorrectPass(c, R, prior, prior, true, z) == CorrectPass(c, R, prior, prior, false, z)
  {
    NoCorrectionAtPoint(c.mm.lin(prior.x), prior.x);
  }

  /** `h(at) + H (x - at)` at `x == at` is `h(at)`. */
  lemma NoCorrectionAtPoint(lin: Linearisation, x: Vector)
    requires |lin.H| <= |lin.z|
    ensures VAdd(lin.z, MatVec(lin.H, VSub(x, x))) == lin.z
  {
    var d := VSub(x, x);
    var zero := MatVec(lin.H, d);
    forall i | 0 <= i < |lin.H|
      ensures zero[i] == 0.0
    {
      DotZeroRight(lin.H[i], d);
    }
    assert VAdd(lin.z, zero) == lin.z;
  }

  /** Every pass after the first updates the original prior, linearised at
      the previous pass's estimate. */
  lemma CorrectedStep(k: nat, c: Correction, R: Matrix, prior: Gaussian, z: Vector)
    ensures var at := Corrected(k, c, R, prior, z);
      Corrected(k + 1, c, R, prior, z) ==
        Update(prior, c.mm.lin(at.x).H, c.mm.lin(at.x).M, R, PredictedMeasurement(c, prior.x, at, false), z, c.num)
  {
  }

  /** The pass loop of `correct`: the first pass at the prior, then
      `passes` passes relinearised at the latest estimate. */
  method CorrectPasses(c: Correction, R: Matrix, prior: Gaussian, z: Vector, passes: nat) returns (e: Gaussian)
    ensures e == Corrected(passes, c, R, prior, z)
  {
    e := CorrectPass(c, R, prior, prior, true, z);
    for k := 0 to passes
      invariant e == Corrected(k, c, R, prior, z)
    {
      e := CorrectPass(c, R, prior, e, false, z);
    }
  }

  // ---------------------------------------------------------------------
  // Joint probabilistic data association

  /** The noise gains of the candidates: the caller's for an additive filter,
      the Jacobian's at `at` otherwise. */
  function JpdaGains(c: Correction, Ms: seq<Matrix>, at: Gaussian, n: nat): (g: seq<Matrix>)
    requires c.additive ==> n <= |Ms|
    ensures |g| == n
  {
    if c.additive then Ms[..n] else seq(n, _ => c.mm.lin(at.x).M)
  }

  function Increments(prior: Gaussian, H: Matrix, gains: seq<Matrix>, Rs: seq<Matrix>, zPred: Vector,
                      zs: seq<Vector>, num: Numerics): (incs: seq<Vector>)
    requires |gains| >= |zs| && |Rs| >= |zs|
    ensures |incs| == |zs|
  {
    seq(|zs|, i requires 0 <= i < |zs| => Increment(prior, H, gains[i], Rs[i], zPred, zs[i], num))
  }

  function Reductions(prior: Gaussian, H: Matrix, gains: seq<Matrix>, Rs: seq<Matrix>, n: nat, num: Numerics): (ps: seq<Matrix>)
    requires |gains| >= n && |Rs| >= n
    ensures |ps| == n
  {
    seq(n, i requires 0 <= i < n => Reduced(prior, H, gains[i], Rs[i], num))
  }

  function Spreads(incs: seq<Vector>): (ps: seq<Matrix>)
    ensures |ps| == |incs|
  {
    seq(|incs|, i requires 0 <= i < |incs| => Outer(incs[i], incs[i]))
  }

  /** The three accumulators of the candidate loop. */
  datatype JpdaSums = JpdaSums(state: Vector, cov1: Matrix, cov2: Matrix)

  function JpdaAccumulated(prior: Gaussian, H: Matrix, gains: seq<Matrix>, Rs: seq<Matrix>, probs: seq<real>,
                           zPred: Vector, zs: seq<Vector>, num: Numerics): JpdaSums
    requires |gains| >= |zs| && |Rs| >= |zs| && |probs| >= |zs|
  {
    var n := |zs|;
    var incs := Increments(prior, H, gains, Rs, zPred, zs, num);
    JpdaSums(WSum(probs[..n], incs), WSumM(probs[..n], Reductions(prior, H, gains, Rs, n, num)),
             WSumM(probs[..n], Spreads(incs)))
  }

  /** The candidate loop: for each measurement, its gain and increment, and
      the probability-weighted sums of the increments, of the reduced
      covariances and of the increments' outer products. */
  method Accumulate(prior: Gaussian, H: Matrix, gains: seq<Matrix>, Rs: seq<Matrix>, probs: seq<real>,
                    zPred: Vector, zs: seq<Vector>, num: Numerics) returns (sums: JpdaSums)
    requires |gains| >= |zs| && |Rs| >= |zs| && |probs| >= |zs|
    ensures sums == JpdaAccumulated(prior, H, gains, Rs, probs, zPred, zs, num)
  {
    var incs := Increments(prior, H, gains, Rs, zPred, zs, num);
    var reds := Reductions(prior, H, gains, Rs, |zs|, num);
    var spreads := Spreads(incs);
    var stateItem: Vector := [];
    var covItem1: Matrix := [];
    var covItem2: Matrix := [];
    for i := 0 to |zs|
      invariant stateItem == WSum(probs[..|zs|][..i], incs[..i])
      invariant covItem1 == WSumM(probs[..|zs|][..i], reds[..i])
      invariant covItem2 == WSumM(probs[..|zs|][..i], spreads[..i])
    {
      var S := InnovationCov(H, prior.P, gains[i], Rs[i]);
      var K := Gain(prior.P, H, S, num);
      var incre := MatVec(K, VSub(zs[i], zPred));
      assert incre == incs[i];
      WSumStep(probs[..|zs|], incs, i);
      WSumMStep(probs[..|zs|], reds, i);
      WSumMStep(probs[..|zs|], spreads, i);
      stateItem := VAdd(stateItem, VScale(probs[i], incre));
      covItem1 := MAdd(covItem1, MScale(probs[i], MSub(prior.P, Congruence(K, S))));
      covItem2 := MAdd(covItem2, MScale(probs[i], Outer(incre, incre)));
    }
    assert probs[..|zs|][..|zs|] == probs[..|zs|] && incs[..|zs|] == incs;
    assert reds[..|zs|] == reds && spreads[..|zs|] == spreads;
    sums := JpdaSums(stateItem, covItem1, covItem2);
  }

  /** `(1 - sum(probs)) P + cov_item1 + (cov_item2 - item item')`, symmetrised. */
  function JpdaCov(prior: Gaussian, probs: seq<real>, sums: JpdaSums): (P: Matrix)
    ensures IsSymmetric(P)
  {
    var m := MAdd(MAdd(MScale(1.0 - Sum(probs), prior.P), sums.cov1), MSub(sums.cov2, Outer(sums.state, sums.state)));
    SymmetrizeIsSymmetric(m);
    Symmetrize(m)
  }

  /** One pass of `correct_JPDA`. */
  function JpdaPass(c: Correction, Ms: seq<Matrix>, Rs: seq<Matrix>, probs: seq<real>, zs: seq<Vector>,
                    prior: Gaussian, at: Gaussian, first: bool): (e: Gaussian)
    requires c.additive ==> |Ms| >= |zs|
    requires |Rs| >= |zs| && |probs| >= |zs|
    ensures IsSymmetric(e.P)
  {
    var H := c.mm.lin(at.x).H;
    var zPred := PredictedMeasurement(c, prior.x, at, first);
    var sums := JpdaAccumulated(prior, H, JpdaGains(c, Ms, at, |zs|), Rs, probs, zPred, zs, c.num);
    Gaussian(VAdd(prior.x, sums.state), JpdaCov(prior, probs, sums))
  }

  function JpdaCorrected(k: nat, c: Correction, Ms: seq<Matrix>, Rs: seq<Matrix>, probs: seq<real>,
                         zs: seq<Vector>, prior: Gaussian): (e: Gaussian)
    requires c.additive ==> |Ms| >= |zs|
    requires |Rs| >= |zs| && |probs| >= |zs|
    ensures IsSymmetric(e.P)
  {
    if k == 0 then JpdaPass(c, Ms, Rs, probs, zs, prior, prior, true)
    else JpdaPass(c, Ms, Rs, probs, zs, prior, JpdaCorrected(k - 1, c, Ms, Rs, probs, zs, prior), false)
  }

  /** One pass of `correct_JPDA` as the code runs it: the candidate loop,
      then the combination. */
  method JpdaStep(c: Correction, Ms: seq<Matrix>, Rs: seq<Matrix>, probs: seq<real>, zs: seq<Vector>,
                  prior: Gaussian, at: Gaussian, first: bool) returns (e: Gaussian)
    requires c.additive ==> |Ms| >= |zs|
    requires |Rs| >= |zs| && |probs| >= |zs|
    ensures e == JpdaPass(c, Ms, Rs, probs, zs, prior, at, first)
  {
    var H := c.mm.lin(at.x).H;
    var zPred := PredictedMeasurement(c, prior.x, at, first);
    var sums := Accumulate(prior, H, JpdaGains(c, Ms, at, |zs|), Rs, probs, zPred, zs, c.num);
    e := Gaussian(VAdd(prior.x, sums.state), JpdaCov(prior, probs, sums));
  }

  /** The pass loop of `correct_JPDA`. */
  method JpdaPasses(c: Correction, Ms: seq<Matrix>, Rs: seq<Matrix>, probs: seq<real>, zs: seq<Vector>,
                    prior: Gaussian, passes: nat) returns (e: Gaussian)
    requires c.additive ==> |Ms| >= |zs|
    requires |Rs| >= |zs| && |probs| >= |zs|
    ensures e == JpdaCorrected(passes, c, Ms, Rs, probs, zs, prior)
  {
    e := JpdaStep(c, Ms, Rs, probs, zs, prior, prior, true);
    for k := 0 to passes
      invariant e == JpdaCorrected(k, c, Ms, Rs, probs, zs, prior)
    {
      e := JpdaStep(c, Ms, Rs, probs, zs, prior, e, false);
    }
  }

  /** With no candidate measurement the mean is unchanged and the covariance
      is the prior scaled by `1 - sum(probs)`. */
  lemma JpdaNoCandidates(c: Correction, Ms: seq<Matrix>, Rs: seq<Matrix>, probs: seq<real>,
                         prior: Gaussian, at: Gaussian, first: bool)
    ensures JpdaPass(c, Ms, Rs, probs, [], prior, at, first) ==
      Gaussian(prior.x, Symmetrize(MScale(1.0 - Sum(probs), prior.P)))
  {
    var H := c.mm.lin(at.x).H;
    var zPred := PredictedMeasurement(c, prior.x, at, first);
    EmptySums(prior, H, JpdaGains(c, Ms, at, 0), Rs, probs, zPred, c.num);
    EmptyJpdaCov(prior, probs);
    VAddEmpty(prior.x);
  }

  lemma EmptySums(prior: Gaussian, H: Matrix, gains: seq<Matrix>, Rs: seq<Matrix>, probs: seq<real>,
                  zPred: Vector, num: Numerics)
    ensures JpdaAccumulated(prior, H, gains, Rs, probs, zPred, [], num) == JpdaSums([], [], [])
  {
    assert probs[..0] == [];
  }

  lemma EmptyJpdaCov(prior: Gaussian, probs: seq<real>)
    ensures JpdaCov(prior, probs, JpdaSums([], [], [])) == Symmetrize(MScale(1.0 - Sum(probs), prior.P))
  {
    var a := MScale(1.0 - Sum(probs), prior.P);
    MAddEmpty(a);
    assert Outer([], []) == [];
    assert MSub([], []) == [];
    assert MAdd(MAdd(a, []), MSub([], Outer([], []))) == a;
  }

  /** ... and with no probabilities either, the covariance of a symmetric
      prior comes back unchanged. */
  lemma JpdaNothingKeepsPrior(c: Correction, Ms: seq<Matrix>, Rs: seq<Matrix>,
                              prior: Gaussian, at: Gaussian, first: bool)
    requires IsSymmetric(prior.P)
    ensures JpdaPass(c, Ms, Rs, [], [], prior, at, first) == prior
  {
    JpdaNoCandidates(c, Ms, Rs, [], prior, at, first);
    MScaleOne(prior.P);
    SymmetrizeKeepsSymmetric(prior.P);
  }

  /** A single candidate with probability 1 gives exactly the pass of
      `correct` with the same noise. */
  lemma JpdaSingleCertain(c: Correction, Ms: seq<Matrix>, R: Matrix, z: Vector, prior: Gaussian,
                          at: Gaussian, first: bool, n: nat)
    requires c.additive ==> |Ms| >= 1
    requires JpdaGains(c, Ms, at, 1)[0] == c.mm.lin(at.x).M
    requires IsMatrix(prior.P, n, n)
    ensures JpdaPass(c, Ms, [R], [1.0], [z], prior, at, first) == CorrectPass(c, R, prior, at, first, z)
  {
    var lin := c.mm.lin(at.x);
    var zPred := PredictedMeasurement(c, prior.x, at, first);
    var gains := JpdaGains(c, Ms, at, 1);
    var sums := JpdaAccumulated(prior, lin.H, gains, [R], [1.0], zPred, [z], c.num);
    var inc := Increment(prior, lin.H, lin.M, R, zPred, z, c.num);
    var red := Reduced(prior, lin.H, lin.M, R, c.num);
    assert [1.0][..1] == [1.0];
    assert Increments(prior, lin.H, gains, [R], zPred, [z], c.num) == [inc];
    assert Reductions(prior, lin.H, gains, [R], 1, c.num) == [red];
    assert Spreads([inc]) == [Outer(inc, inc)];
    WSumSingle(1.0, inc);
    VScaleOne(inc);
    assert sums.state == inc;
    WSumMSingle(1.0, red);
    MScaleOne(red);
    assert sums.cov1 == red;
    WSumMSingle(1.0, Outer(inc, inc));
    MScaleOne(Outer(inc, inc));
    assert sums.cov2 == Outer(inc, inc);
    assert Sum([1.0]) == 1.0 by {
      assert [1.0][..0] == [];
    }
    ReducedShape(prior, lin.H, lin.M, R, c.num, n);
    CertainCombination(prior.P, red, inc, n);
    assert JpdaCov(prior, [1.0], sums) == Symmetrize(red);
  }

  /** `P - K S K'` keeps the `n` rows of `P`, each at least `n` long, and
      the gain has `n` rows. */
  lemma ReducedShape(prior: Gaussian, H: Matrix, M: Matrix, R: Matrix, num: Numerics, n: nat)
    requires IsMatrix(prior.P, n, n)
    ensures var red := Reduced(prior, H, M, R, num);
      |red| == n && (forall i :: 0 <= i < n ==> |red[i]| >= n) &&
      |Increment(prior, H, M, R, Zeros(0), Zeros(0), num)| == n
  {
    var S := InnovationCov(H, prior.P, M, R);
    var K := Gain(prior.P, H, S, num);
    assert |K| == n;
    assert |Congruence(K, S)| == n;
  }

  /** `0 P + red + (o o' - o o') == red` when the shapes agree. */
  lemma CertainCombination(P: Matrix, red: Matrix, inc: Vector, n: nat)
    requires IsMatrix(P, n, n) && |red| == n && (forall i :: 0 <= i < n ==> |red[i]| >= n) && |inc| == n
    ensures MAdd(MAdd(MScale(1.0 - 1.0, P), red), MSub(Outer(inc, inc), Outer(inc, inc))) == red
  {
    var zero := MScale(1.0 - 1.0, P);
    var a := MAdd(zero, red);
    forall i | 0 <= i < n ensures a[i] == red[i] {
      assert forall j :: 0 <= j < |red[i]| ==> a[i][j] == red[i][j];
    }
    assert a == red;
    var o := MSub(Outer(inc, inc), Outer(inc, inc));
    forall i | 0 <= i < n ensures MAdd(red, o)[i] == red[i] {
      assert forall j :: 0 <= j < |red[i]| ==> MAdd(red, o)[i][j] == red[i][j];
    }
  }

  // ---------------------------------------------------------------------
  // Distance and likelihood

  /** The innovation `z - z_pred` and its covariance `S` at the estimate `est`. */
  function Innovation(c: Correction, R: Matrix, est: Gaussian, z: Vector): (Vector, Matrix)
  {
    var lin := c.mm.lin(est.x);
    (VSub(z, PredictedMeasurement(c, est.x, est, true)), InnovationCov(lin.H, est.P, lin.M, R))
  }

  /** `innov' inv(S) innov`. */
  function Mahalanobis(innov: Vector, Sinv: Matrix): real { Dot(VecMat(innov, Sinv), innov) }

  /** `innov' inv(S) innov + log(det(S))`; a measurement equal to the
      predicted one is at distance `log(det(S))`. */
  function Distance(c: Correction, R: Matrix, est: Gaussian, z: Vector): (d: real)
    ensures z == PredictedMeasurement(c, est.x, est, true) ==> d == c.num.logDet(Innovation(c, R, est, z).1)
  {
    var (innov, S) := Innovation(c, R, est, z);
    if z == PredictedMeasurement(c, est.x, est, true) then
      DotZeroRight(VecMat(innov, c.num.inv(S)), innov);
      Mahalanobis(innov, c.num.inv(S)) + c.num.logDet(S)
    else Mahalanobis(innov, c.num.inv(S)) + c.num.logDet(S)
  }

  /** The normal density of the innovation, floored at `Tiny`; a
      measurement equal to the predicted one has the density at 0. */
  function Likelihood(c: Correction, R: Matrix, est: Gaussian, z: Vector): (l: real)
    ensures l >= Tiny > 0.0
    ensures z == PredictedMeasurement(c, est.x, est, true) ==>
      l == RealMax(c.num.density(0.0, Innovation(c, R, est, z).1), Tiny)
  {
    var (innov, S) := Innovation(c, R, est, z);
    if z == PredictedMeasurement(c, est.x, est, true) then
      DotZeroRight(VecMat(innov, c.num.inv(S)), innov);
      RealMax(c.num.density(Mahalanobis(innov, c.num.inv(S)), S), Tiny)
    else RealMax(c.num.density(Mahalanobis(innov, c.num.inv(S)), S), Tiny)
  }
}
