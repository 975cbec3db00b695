/** The extended Kalman filters of tracklib/filter/ekf.py: `EKFilterAN`
    (additive noise, `x' = f(x, u) + L w`, `z = h(x) + M v`) and
    `EKFilterNAN` (non-additive noise, `x' = f(x, u, w)`, `z = h(x, v)`).
    Each keeps the lifecycle record of `KFBase` and runs the steps of
    `EkfSteps` on it. */
module Ekf {
  import opened Errors
  import opened Linalg
  import opened FilterBase
  import opened EkfSteps

  /** A keyword override written over a stored matrix: a given matrix wins,
      an absent one keeps the stored matrix. */
  function Override(stored: Matrix, given: Option<Matrix>): (m: Matrix)
    ensures given.Some? ==> m == given.value
    ensures given.None? ==> m == stored
  {
    if given.Some? then given.value else stored
  }

  /** The additive filter's measurement model: Jacobian `hjac(x)`, the
      stored noise gain `M` and `h(x)`. */
  function AdditiveMeasurement(h: Vector -> Vector, hjac: Vector -> Matrix, hhes: Vector -> seq<Matrix>,
                               M: Matrix): (mm: MeasurementModel)
    ensures forall x :: mm.lin(x).H == hjac(x) && mm.lin(x).M == M && mm.lin(x).z == h(x)
    ensures forall x :: mm.hes(x) == hhes(x)
  {
    MeasurementModel(x => Linearisation(hjac(x), M, h(x)), hhes)
  }

  /** The non-additive filter's measurement model: everything evaluated at
      zero measurement noise of dimension `vdim`. */
  function NonAdditiveMeasurement(h: (Vector, Vector) -> Vector, hjac: (Vector, Vector) -> (Matrix, Matrix),
                                  hhes: (Vector, Vector) -> seq<Matrix>, vdim: nat): (mm: MeasurementModel)
    ensures forall x :: (mm.lin(x).H, mm.lin(x).M) == hjac(x, Zeros(vdim)) && mm.lin(x).z == h(x, Zeros(vdim))
    ensures forall x :: mm.hes(x) == hhes(x, Zeros(vdim))
  {
    MeasurementModel(
      x => Linearisation(hjac(x, Zeros(vdim)).0, hjac(x, Zeros(vdim)).1, h(x, Zeros(vdim))),
      x => hhes(x, Zeros(vdim)))
  }

  /** `[x] * n`: the default per-candidate list. */
  function Repeat<T>(n: nat, x: T): (r: seq<T>)
    ensures |r| == n && forall i :: 0 <= i < n ==> r[i] == x
  {
    seq(n, _ => x)
  }

  /** `range(it)`: a negative count runs no pass. */
  function PassCount(it: int): nat { if it < 0 then 0 else it }

  class EKFilterAN {
    const f: (Vector, Vector) -> Vector
    const h: Vector -> Vector
    const fjac: (Vector, Vector) -> Matrix
    const hjac: Vector -> Matrix
    const fhes: (Vector, Vector) -> seq<Matrix>
    const hhes: Vector -> seq<Matrix>
    const xdim: nat
    const zdim: nat
    const order: int
    const it: int
    const num: Numerics
    var L: Matrix
    var M: Matrix
    var Q: Matrix
    var R: Matrix
    var state: Option<Vector>
    var cov: Option<Matrix>
    var len: nat
    var initialized: bool

    predicate Valid()
      reads this
    {
      (order == 1 || order == 2) && (initialized ==> state.Some? && cov.Some?)
    }

    constructor(f: (Vector, Vector) -> Vector, L: Matrix, h: Vector -> Vector, M: Matrix, Q: Matrix, R: Matrix,
                xdim: nat, zdim: nat, fjac: (Vector, Vector) -> Matrix, hjac: Vector -> Matrix,
                fhes: (Vector, Vector) -> seq<Matrix>, hhes: Vector -> seq<Matrix>, order: int, it: int, num: Numerics)
      requires order == 1 || order == 2
      ensures Valid()
      ensures this.f == f && this.h == h && this.fjac == fjac && this.hjac == hjac && this.fhes == fhes && this.hhes == hhes
      ensures this.L == L && this.M == M && this.Q == Q && this.R == R
      ensures this.xdim == xdim && this.zdim == zdim && this.order == order && this.it == it && this.num == num
      ensures state == None && cov == None && len == 0 && !initialized
    {
      this.f, this.h, this.fjac, this.hjac, this.fhes, this.hhes := f, h, fjac, hjac, fhes, hhes;
      this.L, this.M, this.Q, this.R := L, M, Q, R;
      this.xdim, this.zdim, this.order, this.it, this.num := xdim, zdim, order, it, num;
      state, cov, len, initialized := None, None, 0, false;
    }

    /** `EKFilterAN(...)`: only orders 1 and 2 are accepted. */
    static method Create(f: (Vector, Vector) -> Vector, L: Matrix, h: Vector -> Vector, M: Matrix, Q: Matrix, R: Matrix,
                         xdim: nat, zdim: nat, fjac: (Vector, Vector) -> Matrix, hjac: Vector -> Matrix,
                         fhes: (Vector, Vector) -> seq<Matrix>, hhes: Vector -> seq<Matrix>, order: int, it: int,
                         num: Numerics) returns (r: Result<EKFilterAN>)
      ensures r.Success? <==> order == 1 || order == 2
      ensures r.Failure? ==> r.error == ValueError
      ensures r.Success? ==>
        fresh(r.value) && r.value.Valid() && r.value.order == order && r.value.it == it &&
        r.value.L == L && r.value.M == M && r.value.Q == Q && r.value.R == R &&
        r.value.state == None && r.value.cov == None && r.value.len == 0 && !r.value.initialized
    {
      if order == 1 || order == 2 {
        var filter := new EKFilterAN(f, L, h, M, Q, R, xdim, zdim, fjac, hjac, fhes, hhes, order, it, num);
        r := Success(filter);
      } else {
        r := Failure(ValueError);
      }
    }

    /** The measurement model with noise gain `gain`. */
    function Measurement(gain: Matrix): Correction
    {
      Correction(AdditiveMeasurement(h, hjac, hhes, gain), order, zdim, num, true)
    }

    function Length(): (n: nat)
      reads this
      ensures n == len
    {
      len
    }

    function State(): (r: Result<Vector>)
      reads this
      ensures r.Success? <==> state.Some?
      ensures r.Success? ==> r.value == state.value
    {
      Stored(state, "prior_state")
    }

    function Cov(): (r: Result<Matrix>)
      reads this
      ensures r.Success? <==> cov.Some?
      ensures r.Success? ==> r.value == cov.value
    {
      Stored(cov, "prior_cov")
    }

    method Init(x: Vector, P: Matrix)
      requires Valid()
      modifies this`state, this`cov, this`initialized
      ensures Valid() && initialized && state == Some(x) && cov == Some(P)
      ensures L == old(L) && M == old(M) && Q == old(Q) && R == old(R) && len == old(len)
    {
      state, cov, initialized := Some(x), Some(P), true;
    }

    /** Like `Init`, but an uninitialised filter stays uninitialised. */
    method Reset(x: Vector, P: Matrix)
      requires Valid()
      modifies this`state, this`cov
      ensures Valid() && initialized == old(initialized) && state == Some(x) && cov == Some(P)
      ensures L == old(L) && M == old(M) && Q == old(Q) && R == old(R) && len == old(len)
    {
      state, cov := Some(x), Some(P);
    }

    /** The time update.  Overrides of `L` and `Q` are written into the
        filter and stay. */
    method Predict(u: Vector, newL: Option<Matrix>, newQ: Option<Matrix>) returns (r: Result<Gaussian>)
      requires Valid()
      modifies this`L, this`Q, this`state, this`cov
      ensures Valid()
      ensures !old(initialized) ==> r == Failure(RuntimeError) && unchanged(this)
      ensures old(initialized) ==> L == Override(old(L), newL) && Q == Override(old(Q), newQ)
      ensures old(initialized) ==>
        var post := Gaussian(old(state).value, old(cov).value);
        r == Success(Predicted(f(post.x, u), fjac(post.x, u), L, Q, post, order, fhes(post.x, u), xdim)) &&
        state == Some(r.value.x) && cov == Some(r.value.P)
    {
      if !initialized {
        return Failure(RuntimeError);
      }
      if newL.Some? { L := newL.value; }
      if newQ.Some? { Q := newQ.value; }
      var post := Gaussian(state.value, cov.value);
      var F := fjac(post.x, u);
      var predicted := Predicted(f(post.x, u), F, L, Q, post, order, fhes(post.x, u), xdim);
      state, cov := Some(predicted.x), Some(predicted.P);
      r := Success(predicted);
    }

    /** The measurement update: a first pass at the prior and `it` passes
        relinearised at the latest estimate, each updating the original
        prior.  Overrides of `M` and `R` are written into the filter. */
    method Correct(z: Vector, newM: Option<Matrix>, newR: Option<Matrix>) returns (r: Result<Gaussian>)
      requires Valid()
      modifies this`M, this`R, this`state, this`cov
      ensures Valid()
      ensures !old(initialized) ==> r == Failure(RuntimeError) && unchanged(this)
      ensures old(initialized) ==> M == Override(old(M), newM) && R == Override(old(R), newR)
      ensures old(initialized) ==>
        r == Success(Corrected(PassCount(it), Measurement(M), R, Gaussian(old(state).value, old(cov).value), z)) &&
        state == Some(r.value.x) && cov == Some(r.value.P)
    {
      if !initialized {
        return Failure(RuntimeError);
      }
      var gain, noise := Override(M, newM), Override(R, newR);
      var est := CorrectPasses(Measurement(gain), noise, Gaussian(state.value, cov.value), z, PassCount(it));
      M, R, state, cov := gain, noise, Some(est.x), Some(est.P);
      r := Success(est);
    }

    /** The JPDA update by the candidates `zs` with association
        probabilities `probs`.  The lists of noise gains and covariances
        default to the stored ones and are not written into the filter. */
    method CorrectJpda(zs: seq<Vector>, probs: seq<real>, Ms: Option<seq<Matrix>>, Rs: Option<seq<Matrix>>)
      returns (r: Result<Gaussian>)
      requires Valid()
      modifies this`state, this`cov
      ensures Valid()
      ensures !old(initialized) ==> r == Failure(RuntimeError) && unchanged(this)
      ensures var gains := if Ms.Some? then Ms.value else Repeat(|zs|, old(M));
        var noises := if Rs.Some? then Rs.value else Repeat(|zs|, old(R));
        old(initialized) ==>
          if |gains| < |zs| || |noises| < |zs| || |probs| < |zs| then
            r == Failure(IndexError) && unchanged(this)
          else
            r == Success(JpdaCorrected(PassCount(it), Measurement(old(M)), gains, noises, probs, zs,
                                       Gaussian(old(state).value, old(cov).value))) &&
            state == Some(r.value.x) && cov == Some(r.value.P)
    {
      if !initialized {
        return Failure(RuntimeError);
      }
      var gains := if Ms.Some? then Ms.value else Repeat(|zs|, M);
      var noises := if Rs.Some? then Rs.value else Repeat(|zs|, R);
      if |gains| < |zs| || |noises| < |zs| || |probs| < |zs| {
        return Failure(IndexError);
      }
      var prior := Gaussian(state.value, cov.value);
      var c := Measurement(M);
      var est := JpdaPasses(c, gains, noises, probs, zs, prior, PassCount(it));
      state, cov := Some(est.x), Some(est.P);
      r := Success(est);
    }

    /** `innov' inv(S) innov + log det S` at the current estimate; the
        overrides apply to this call only. */
    function Distance(z: Vector, newM: Option<Matrix>, newR: Option<Matrix>): (r: Result<real>)
      reads this
      requires Valid()
      ensures r.Failure? <==> !initialized
      ensures r.Failure? ==> r.error == RuntimeError
      ensures r.Success? ==>
        r.value == EkfSteps.Distance(Measurement(Override(M, newM)), Override(R, newR), Gaussian(state.value, cov.value), z)
    {
      if !initialized then Failure(RuntimeError)
      else Success(EkfSteps.Distance(Measurement(Override(M, newM)), Override(R, newR), Gaussian(state.value, cov.value), z))
    }

    /** The likelihood of `z`, never below `Tiny`; the overrides apply to
        this call only. */
    function Likelihood(z: Vector, newM: Option<Matrix>, newR: Option<Matrix>): (r: Result<real>)
      reads this
      requires Valid()
      ensures r.Failure? <==> !initialized
      ensures r.Failure? ==> r.error == RuntimeError
      ensures r.Success? ==> r.value >= Tiny > 0.0
      ensures r.Success? ==>
        r.value == EkfSteps.Likelihood(Measurement(Override(M, newM)), Override(R, newR), Gaussian(state.value, cov.value), z)
    {
      if !initialized then Failure(RuntimeError)
      else Success(EkfSteps.Likelihood(Measurement(Override(M, newM)), Override(R, newR), Gaussian(state.value, cov.value), z))
    }
  }

  class EKFilterNAN {
    const f: (Vector, Vector, Vector) -> Vector
    const h: (Vector, Vector) -> Vector
    const fjac: (Vector, Vector, Vector) -> (Matrix, Matrix)
    const hjac: (Vector, Vector) -> (Matrix, Matrix)
    const fhes: (Vector, Vector, Vector) -> seq<Matrix>
    const hhes: (Vector, Vector) -> seq<Matrix>
    const xdim: nat
    const wdim: nat
    const zdim: nat
    const vdim: nat
    const order: int
    const it: int
    const num: Numerics
    var Q: Matrix
    var R: Matrix
    var state: Option<Vector>
    var cov: Option<Matrix>
    var len: nat
    var initialized: bool

    predicate Valid()
      reads this
    {
      (order == 1 || order == 2) && (initialized ==> state.Some? && cov.Some?)
    }

    /** The noise dimensions are read from the shapes of `Q` and `R`. */
    constructor(f: (Vector, Vector, Vector) -> Vector, h: (Vector, Vector) -> Vector, Q: Matrix, R: Matrix,
                xdim: nat, zdim: nat, fjac: (Vector, Vector, Vector) -> (Matrix, Matrix),
                hjac: (Vector, Vector) -> (Matrix, Matrix), fhes: (Vector, Vector, Vector) -> seq<Matrix>,
                hhes: (Vector, Vector) -> seq<Matrix>, order: int, it: int, num: Numerics)
      requires order == 1 || order == 2
      ensures Valid()
      ensures this.f == f && this.h == h && this.fjac == fjac && this.hjac == hjac && this.fhes == fhes && this.hhes == hhes
      ensures this.Q == Q && this.R == R && wdim == |Q| && vdim == |R|
      ensures this.xdim == xdim && this.zdim == zdim && this.order == order && this.it == it && this.num == num
      ensures state == None && cov == None && len == 0 && !initialized
    {
      this.f, this.h, this.fjac, this.hjac, this.fhes, this.hhes := f, h, fjac, hjac, fhes, hhes;
      this.Q, this.R, wdim, vdim := Q, R, |Q|, |R|;
      this.xdim, this.zdim, this.order, this.it, this.num := xdim, zdim, order, it, num;
      state, cov, len, initialized := None, None, 0, false;
    }

    /** `EKFilterNAN(...)`: only orders 1 and 2 are accepted. */
    static method Create(f: (Vector, Vector, Vector) -> Vector, h: (Vector, Vector) -> Vector, Q: Matrix, R: Matrix,
                         xdim: nat, zdim: nat, fjac: (Vector, Vector, Vector) -> (Matrix, Matrix),
                         hjac: (Vector, Vector) -> (Matrix, Matrix), fhes: (Vector, Vector, Vector) -> seq<Matrix>,
                         hhes: (Vector, Vector) -> seq<Matrix>, order: int, it: int, num: Numerics)
      returns (r: Result<EKFilterNAN>)
      ensures r.Success? <==> order == 1 || order == 2
      ensures r.Failure? ==> r.error == ValueError
      ensures r.Success? ==>
        fresh(r.value) && r.value.Valid() && r.value.order == order && r.value.it == it &&
        r.value.Q == Q && r.value.R == R && r.value.wdim == |Q| && r.value.vdim == |R| &&
        r.value.state == None && r.value.cov == None && r.value.len == 0 && !r.value.initialized
    {
      if order == 1 || order == 2 {
        var filter := new EKFilterNAN(f, h, Q, R, xdim, zdim, fjac, hjac, fhes, hhes, order, it, num);
        r := Success(filter);
      } else {
        r := Failure(ValueError);
      }
    }

    function Measurement(): Correction
    {
      Correction(NonAdditiveMeasurement(h, hjac, hhes, vdim), order, zdim, num, false)
    }

    function Length(): (n: nat)
      reads this
      ensures n == len
    {
      len
    }

    function State(): (r: Result<Vector>)
      reads this
      ensures r.Success? <==> state.Some?
      ensures r.Success? ==> r.value == state.value
    {
      Stored(state, "prior_state")
    }

    function Cov(): (r: Result<Matrix>)
      reads this
      ensures r.Success? <==> cov.Some?
      ensures r.Success? ==> r.value == cov.value
    {
      Stored(cov, "prior_cov")
    }

    method Init(x: Vector, P: Matrix)
      requires Valid()
      modifies this`state, this`cov, this`initialized
      ensures Valid() && initialized && state == Some(x) && cov == Some(P)
      ensures Q == old(Q) && R == old(R) && len == old(len)
    {
      state, cov, initialized := Some(x), Some(P), true;
    }

    method Reset(x: Vector, P: Matrix)
      requires Valid()
      modifies this`state, this`cov
      ensures Valid() && initialized == old(initialized) && state == Some(x) && cov == Some(P)
      ensures Q == old(Q) && R == old(R) && len == old(len)
    {
      state, cov := Some(x), Some(P);
    }

    /** The time update with `f`, its Jacobians and Hessians taken at zero
        process noise; the noise gain is the Jacobian in the noise. */
    method Predict(u: Vector, newQ: Option<Matrix>) returns (r: Result<Gaussian>)
      requires Valid()
      modifies this`Q, this`state, this`cov
      ensures Valid()
      ensures !old(initialized) ==> r == Failure(RuntimeError) && unchanged(this)
      ensures old(initialized) ==> Q == Override(old(Q), newQ)
      ensures old(initialized) ==>
        var post := Gaussian(old(state).value, old(cov).value);
        var w := Zeros(wdim);
        r == Success(Predicted(f(post.x, u, w), fjac(post.x, u, w).0, fjac(post.x, u, w).1, Q, post, order,
                               fhes(post.x, u, w), xdim)) &&
        state == Some(r.value.x) && cov == Some(r.value.P)
    {
      if !initialized {
        return Failure(RuntimeError);
      }
      if newQ.Some? { Q := newQ.value; }
      var post := Gaussian(state.value, cov.value);
      var w := Zeros(wdim);
      var (F, Lw) := fjac(post.x, u, w);
      var predicted := Predicted(f(post.x, u, w), F, Lw, Q, post, order, fhes(post.x, u, w), xdim);
      state, cov := Some(predicted.x), Some(predicted.P);
      r := Success(predicted);
    }

    method Correct(z: Vector, newR: Option<Matrix>) returns (r: Result<Gaussian>)
      requires Valid()
      modifies this`R, this`state, this`cov
      ensures Valid()
      ensures !old(initialized) ==> r == Failure(RuntimeError) && unchanged(this)
      ensures old(initialized) ==> R == Override(old(R), newR)
      ensures old(initialized) ==>
        r == Success(Corrected(PassCount(it), Measurement(), R, Gaussian(old(state).value, old(cov).value), z)) &&
        state == Some(r.value.x) && cov == Some(r.value.P)
    {
      if !initialized {
        return Failure(RuntimeError);
      }
      var noise := Override(R, newR);
      var est := CorrectPasses(Measurement(), noise, Gaussian(state.value, cov.value), z, PassCount(it));
      R, state, cov := noise, Some(est.x), Some(est.P);
      r := Success(est);
    }

    /** The JPDA update; every candidate shares the noise gain of the
        Jacobian and takes its own noise covariance. */
    method CorrectJpda(zs: seq<Vector>, probs: seq<real>, Rs: Option<seq<Matrix>>) returns (r: Result<Gaussian>)
      requires Valid()
      modifies this`state, this`cov
      ensures Valid()
      ensures !old(initialized) ==> r == Failure(RuntimeError) && unchanged(this)
      ensures var noises := if Rs.Some? then Rs.value else Repeat(|zs|, old(R));
        old(initialized) ==>
          if |noises| < |zs| || |probs| < |zs| then
            r == Failure(IndexError) && unchanged(this)
          else
            r == Success(JpdaCorrected(PassCount(it), Measurement(), [], noises, probs, zs,
                                       Gaussian(old(state).value, old(cov).value))) &&
            state == Some(r.value.x) && cov == Some(r.value.P)
    {
      if !initialized {
        return Failure(RuntimeError);
      }
      var noises := if Rs.Some? then Rs.value else Repeat(|zs|, R);
      if |noises| < |zs| || |probs| < |zs| {
        return Failure(IndexError);
      }
      var prior := Gaussian(state.value, cov.value);
      var c := Measurement();
      var est := JpdaPasses(c, [], noises, probs, zs, prior, PassCount(it));
      state, cov := Some(est.x), Some(est.P);
      r := Success(est);
    }

    function Distance(z: Vector, newR: Option<Matrix>): (r: Result<real>)
      reads this
      requires Valid()
      ensures r.Failure? <==> !initialized
      ensures r.Failure? ==> r.error == RuntimeError
      ensures r.Success? ==>
        r.value == EkfSteps.Distance(Measurement(), Override(R, newR), Gaussian(state.value, cov.value), z)
    {
      if !initialized then Failure(RuntimeError)
      else Success(EkfSteps.Distance(Measurement(), Override(R, newR), Gaussian(state.value, cov.value), z))
    }

    function Likelihood(z: Vector, newR: Option<Matrix>): (r: Result<real>)
      reads this
      requires Valid()
      ensures r.Failure? <==> !initialized
      ensures r.Failure? ==> r.error == RuntimeError
      ensures r.Success? ==> r.value >= Tiny > 0.0
      ensures r.Success? ==>
        r.value == EkfSteps.Likelihood(Measurement(), Override(R, newR), Gaussian(state.value, cov.value), z)
    {
      if !initialized then Failure(RuntimeError)
      else Success(EkfSteps.Likelihood(Measurement(), Override(R, newR), Gaussian(state.value, cov.value), z))
    }
  }
}
