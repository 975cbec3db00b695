/** The lifecycle bases of tracklib/filter/base.py: `KFBase`, the record
    every Kalman-type filter keeps (`_state`, `_cov`, `_len`, `_init`), and
    `PFBase`, the particle filter's samples and weights with the two point
    estimates derived from them. */
module FilterBase {
  import opened Errors
  import opened Linalg

  datatype Option<+T> = None | Some(value: T)

  /** A read of a stored attribute: the value itself (a copy, since Dafny
      sequences are values) or `AttributeError` naming `attr` when nothing is
      stored. */
  function Stored<T>(v: Option<T>, attr: string): (r: Result<T>)
    ensures r.Success? <==> v.Some?
    ensures r.Success? ==> r.value == v.value
    ensures r.Failure? ==> r.error == AttributeError(attr)
  {
    match v
    case Some(x) => Success(x)
    case None => Failure(AttributeError(attr))
  }

  /** What assigning the read-only `state` or `cov` property raises, and what
      `IMMFilter.reset` raises on an empty bank. */
  const CannotSet: Error := AttributeError("can't set attribute")

  class KFBase {
    var state: Option<Vector>
    var cov: Option<Matrix>
    var len: nat
    var initialized: bool

    constructor()
      ensures state == None && cov == None && len == 0 && !initialized
    {
      state, cov, len, initialized := None, None, 0, false;
    }

    /** `len(filter)`. */
    function Length(): (n: nat)
      reads this
      ensures n == len
    {
      len
    }

    /** The `state` property. */
    function State(): (r: Result<Vector>)
      reads this
      ensures r.Success? <==> state.Some?
      ensures r.Success? ==> r.value == state.value
      ensures r.Failure? ==> r.error == AttributeError("prior_state")
    {
      Stored(state, "prior_state")
    }

    /** The `cov` property. */
    function Cov(): (r: Result<Matrix>)
      reads this
      ensures r.Success? <==> cov.Some?
      ensures r.Success? ==> r.value == cov.value
      ensures r.Failure? ==> r.error == AttributeError("prior_cov")
    {
      Stored(cov, "prior_cov")
    }

    /** Assigning `filter.state` raises and leaves the filter as it was. */
    method SetState(x: Vector) returns (o: Outcome)
      ensures o == Fail(CannotSet)
    {
      o := Fail(CannotSet);
    }

    /** Assigning `filter.cov` raises and leaves the filter as it was. */
    method SetCov(P: Matrix) returns (o: Outcome)
      ensures o == Fail(CannotSet)
    {
      o := Fail(CannotSet);
    }
  }

  /** A fresh filter answers `len` with 0 and has neither state nor
      covariance to read. */
  lemma FreshFilterIsEmpty(f: KFBase)
    requires f.state == None && f.cov == None && f.len == 0
    ensures f.Length() == 0
    ensures f.State() == Failure(AttributeError("prior_state"))
    ensures f.Cov() == Failure(AttributeError("prior_cov"))
  {
  }

  class PFBase {
    var samples: Option<Matrix>
    var weights: Option<Vector>
    var len: nat
    var initialized: bool

    constructor()
      ensures samples == None && weights == None && len == 0 && !initialized
    {
      samples, weights, len, initialized := None, None, 0, false;
    }

    function Length(): (n: nat)
      reads this
      ensures n == len
    {
      len
    }

    /** The `samples` property. */
    function Samples(): (r: Result<Matrix>)
      reads this
      ensures r.Success? <==> samples.Some?
      ensures r.Success? ==> r.value == samples.value
      ensures r.Failure? ==> r.error == AttributeError("samples")
    {
      Stored(samples, "samples")
    }

    /** The `weights` property. */
    function Weights(): (r: Result<Vector>)
      reads this
      ensures r.Success? <==> weights.Some?
      ensures r.Success? ==> r.value == weights.value
      ensures r.Failure? ==> r.error == AttributeError("weights")
    {
      Stored(weights, "weights")
    }

    /** The minimum mean-square-error estimate `weights @ samples`.  Reading
        `samples` first makes a missing sample set fail on `samples`. */
    function MMSE(): (r: Result<Vector>)
      reads this
      ensures samples.None? ==> r == Failure(AttributeError("samples"))
      ensures samples.Some? && weights.None? ==> r == Failure(AttributeError("MMSE"))
      ensures samples.Some? && weights.Some? ==>
        (r.Success? <==> |weights.value| == |samples.value|)
      ensures r.Success? ==> r.value == VecMat(weights.value, samples.value)
      ensures r.Failure? && samples.Some? && weights.Some? ==> r.error == NotAligned
    {
      match Samples()
      case Failure(e) => Failure(e)
      case Success(s) =>
        if weights.None? then Failure(AttributeError("MMSE"))
        else if |weights.value| != |s| then Failure(NotAligned)
        else Success(VecMat(weights.value, s))
    }

    /** The maximum a-posteriori sample: the sample at the first index of the
        largest weight. */
    function MAP(): (r: Result<Vector>)
      reads this
      ensures samples.None? ==> r == Failure(AttributeError("samples"))
      ensures samples.Some? && weights.None? ==> r == Failure(AttributeError("MAP"))
      ensures samples.Some? && weights.Some? && |weights.value| == 0 ==> r == Failure(ValueError)
      ensures r.Success? ==>
        exists k :: 0 <= k < |weights.value| && k < |samples.value| &&
          r.value == samples.value[k] &&
          (forall j :: 0 <= j < |weights.value| ==> weights.value[j] <= weights.value[k]) &&
          (forall j :: 0 <= j < k ==> weights.value[j] < weights.value[k])
      ensures samples.Some? && weights.Some? && 0 < |weights.value| <= |samples.value| ==> r.Success?
    {
      match Samples()
      case Failure(e) => Failure(e)
      case Success(s) =>
        if weights.None? then Failure(AttributeError("MAP"))
        else if |weights.value| == 0 then Failure(ValueError)
        else
          var k := ArgMax(weights.value);
          if k < |s| then Success(s[k]) else Failure(IndexError)
    }
  }

  /** The MMSE estimate is the weighted mean of the samples: entry `j` is
      `sum_i weights[i] * samples[i][j]`. */
  lemma MMSEIsWeightedSum(w: Vector, s: Matrix, d: nat)
    requires |w| == |s| > 0 && IsMatrix(s, |s|, d)
    ensures VecMat(w, s) == WSum(w, s)
  {
    WSumLength(w, s, d);
    forall j | 0 <= j < d
      ensures VecMat(w, s)[j] == WSum(w, s)[j]
    {
      VecMatEntry(w, s, d, j);
      WSumEntry(w, s, d, j);
    }
  }

  lemma VecMatEntry(w: Vector, s: Matrix, d: nat, j: nat)
    requires |w| == |s| > 0 && IsMatrix(s, |s|, d) && j < d
    ensures |VecMat(w, s)| == d
    ensures VecMat(w, s)[j] == Sum(seq(|s|, k requires 0 <= k < |s| => w[k] * At(s[k], j)))
  {
    var c := Transpose(s)[j];
    assert c == Column(s, j);
    var t := seq(|c|, k requires 0 <= k < |c| => c[k] * At(w, k));
    assert VecMat(w, s)[j] == Sum(t);
    var u := seq(|s|, k requires 0 <= k < |s| => w[k] * At(s[k], j));
    assert t == u by {
      forall k | 0 <= k < |s|
        ensures t[k] == u[k]
      {
        assert c[k] == At(s[k], j);
      }
    }
  }
}
