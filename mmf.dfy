/** The hybrid multiple-model filter of tracklib/filter/mmf.py: a bank of
    Kalman-type filters run side by side, each with a model probability that
    the likelihood of its innovation reweights after every measurement.  The
    filter moves through two stages, predict (stage 0 to 1) and update
    (stage 1 back to 0), and after each update it keeps the
    probability-weighted state and the state of the most probable model. */
module Mmf {
  import opened Errors
  import opened Linalg
  import opened FilterBase
  import opened EkfSteps
  import opened Imm

  /** The class of an object passed to `add_model`: only the Kalman and the
      extended Kalman filters are registered. */
  datatype Kind = KFilter | EKFilter1st | EKFilter2ed | Other

  /** One registered filter: its current estimate and the three operations
      the bank calls on it.  `density(prior, z)` is the normal density of the
      innovation that updating `prior` with `z` produces (the `exp(...) /
      sqrt(det(2 pi S))` of the bank's update). */
  datatype Member = Member(
    kind: Kind,
    est: Gaussian,
    predict: (Gaussian, Vector) -> Gaussian,
    update: (Gaussian, Vector) -> Gaussian,
    density: (Gaussian, Vector) -> real)

  /** The `state` argument of `init`: absent, one array for every model, a
      list with one optional entry per model, or anything else. */
  datatype StateArg = NoState | StateArray(x: Vector) | StateList(xs: seq<Option<Vector>>) | StateOther

  /** The `cov` argument of `init`, shaped like `StateArg`. */
  datatype CovArg = NoCov | CovArray(P: Matrix) | CovList(Ps: seq<Option<Matrix>>) | CovOther

  // ---------------------------------------------------------------------
  // The bank's operations on its members

  /** Every member after its own `init(x, P)`. */
  function InitialisedAll(ms: seq<Member>, x: Vector, P: Matrix): (r: seq<Member>)
    ensures |r| == |ms|
    ensures forall i :: 0 <= i < |ms| ==> r[i].est == Gaussian(x, P) && r[i].(est := ms[i].est) == ms[i]
  {
    seq(|ms|, i requires 0 <= i < |ms| => ms[i].(est := Gaussian(x, P)))
  }

  /** Whether `init` with lists raises `IndexError` at model `i`: the state
      list is read first, and the covariance list only when the state entry
      is not `None`. */
  predicate ListFails(xs: seq<Option<Vector>>, Ps: seq<Option<Matrix>>, i: nat)
  {
    i >= |xs| || (xs[i].Some? && i >= |Ps|)
  }

  /** The first model, from `i` on among `n`, at which a list `init` raises,
      or `n` when it runs to the end. */
  function FirstFailure(n: nat, xs: seq<Option<Vector>>, Ps: seq<Option<Matrix>>, i: nat): (k: nat)
    requires i <= n
    ensures i <= k <= n
    ensures forall j :: i <= j < k ==> !ListFails(xs, Ps, j)
    ensures k < n ==> ListFails(xs, Ps, k)
    decreases n - i
  {
    if i == n then n
    else if ListFails(xs, Ps, i) then i
    else FirstFailure(n, xs, Ps, i + 1)
  }

  /** Model `i` after a list `init` visits it: initialised when both entries
      are given, left alone when either is `None`. */
  function ListEntry(m: Member, xs: seq<Option<Vector>>, Ps: seq<Option<Matrix>>, i: nat): (r: Member)
    requires !ListFails(xs, Ps, i)
    ensures xs[i].Some? && Ps[i].Some? ==> r == m.(est := Gaussian(xs[i].value, Ps[i].value))
    ensures xs[i].None? || Ps[i].None? ==> r == m
  {
    if xs[i].None? || Ps[i].None? then m else m.(est := Gaussian(xs[i].value, Ps[i].value))
  }

  /** The bank after a list `init` that visited the models before `k`. */
  function ListInitialised(ms: seq<Member>, xs: seq<Option<Vector>>, Ps: seq<Option<Matrix>>, k: nat): (r: seq<Member>)
    ensures |r| == |ms|
  {
    seq(|ms|, j requires 0 <= j < |ms| =>
      if j < k && !ListFails(xs, Ps, j) then ListEntry(ms[j], xs, Ps, j) else ms[j])
  }

  /** Every member after its own `predict(u)`. */
  function Advanced(ms: seq<Member>, u: Vector): (r: seq<Member>)
    ensures |r| == |ms|
    ensures forall i :: 0 <= i < |ms| ==>
      r[i].est == ms[i].predict(ms[i].est, u) && r[i].(est := ms[i].est) == ms[i]
  {
    seq(|ms|, i requires 0 <= i < |ms| => ms[i].(est := ms[i].predict(ms[i].est, u)))
  }

  /** Every member after its own `update(z)`. */
  function Updated(ms: seq<Member>, z: Vector): (r: seq<Member>)
    ensures |r| == |ms|
    ensures forall i :: 0 <= i < |ms| ==>
      r[i].est == ms[i].update(ms[i].est, z) && r[i].(est := ms[i].est) == ms[i]
  {
    seq(|ms|, i requires 0 <= i < |ms| => ms[i].(est := ms[i].update(ms[i].est, z)))
  }

  /** The innovation densities of the members' updates with `z`. */
  function Densities(ms: seq<Member>, z: Vector): (pdf: seq<real>)
    ensures |pdf| == |ms|
  {
    seq(|ms|, i requires 0 <= i < |ms| => ms[i].density(ms[i].est, z))
  }

  /** The state estimates of the members, one per model. */
  function States(ms: seq<Member>): (xs: seq<Vector>)
    ensures |xs| == |ms|
  {
    seq(|ms|, i requires 0 <= i < |ms| => ms[i].est.x)
  }

  /** How an update of `n` models whose total probability is `total` ends:
      with no model `argmax` of the empty probability list raises
      `ValueError`; a zero total makes the first division raise. */
  function UpdateOutcome(n: nat, total: real): (o: Outcome)
    ensures o == Pass <==> n > 0 && total != 0.0
    ensures n == 0 ==> o == Fail(ValueError)
    ensures n > 0 && total == 0.0 ==> o == Fail(ZeroDivisionError)
  {
    if n == 0 then Fail(ValueError)
    else if total == 0.0 then Fail(ZeroDivisionError)
    else Pass
  }

  // ---------------------------------------------------------------------
  // The loops of `init`, `predict` and `update`

  method InitialiseEach(ms: seq<Member>, x: Vector, P: Matrix) returns (r: seq<Member>)
    ensures r == InitialisedAll(ms, x, P)
  {
    r := ms;
    for i := 0 to |ms|
      invariant |r| == |ms|
      invariant forall k :: 0 <= k < i ==> r[k] == ms[k].(est := Gaussian(x, P))
      invariant forall k :: i <= k < |ms| ==> r[k] == ms[k]
    {
      r := r[i := ms[i].(est := Gaussian(x, P))];
    }
  }

  method InitialiseListed(ms: seq<Member>, xs: seq<Option<Vector>>, Ps: seq<Option<Matrix>>)
    returns (r: seq<Member>, o: Outcome)
    ensures r == ListInitialised(ms, xs, Ps, FirstFailure(|ms|, xs, Ps, 0))
    ensures o == (if FirstFailure(|ms|, xs, Ps, 0) < |ms| then Fail(IndexError) else Pass)
  {
    r := ms;
    var i := 0;
    while i < |ms|
      invariant i <= |ms|
      invariant forall j :: 0 <= j < i ==> !ListFails(xs, Ps, j)
      invariant r == ListInitialised(ms, xs, Ps, i)
    {
      if ListFails(xs, Ps, i) {
        o := Fail(IndexError);
        return;
      }
      ghost var before := r;
      r := r[i := ListEntry(ms[i], xs, Ps, i)];
      assert r == ListInitialised(ms, xs, Ps, i + 1) by {
        var t := ListInitialised(ms, xs, Ps, i + 1);
        forall j | 0 <= j < |ms|
          ensures r[j] == t[j]
        {
          assert j != i ==> before[j] == t[j];
        }
      }
      i := i + 1;
    }
    o := Pass;
  }

  method PredictEach(ms: seq<Member>, u: Vector) returns (r: seq<Member>)
    ensures r == Advanced(ms, u)
  {
    r := ms;
    for i := 0 to |ms|
      invariant |r| == |ms|
      invariant forall k :: 0 <= k < i ==> r[k] == ms[k].(est := ms[k].predict(ms[k].est, u))
      invariant forall k :: i <= k < |ms| ==> r[k] == ms[k]
    {
      r := r[i := ms[i].(est := ms[i].predict(ms[i].est, u))];
    }
  }

  /** The first loop of `update`: each member updates, and the density of
      its innovation is recorded. */
  method CorrectEach(ms: seq<Member>, z: Vector) returns (r: seq<Member>, pdf: seq<real>)
    ensures r == Updated(ms, z) && pdf == Densities(ms, z)
  {
    r := ms;
    pdf := [];
    for i := 0 to |ms|
      invariant |r| == |ms| && |pdf| == i
      invariant forall k :: 0 <= k < i ==>
        r[k] == ms[k].(est := ms[k].update(ms[k].est, z)) && pdf[k] == ms[k].density(ms[k].est, z)
      invariant forall k :: i <= k < |ms| ==> r[k] == ms[k]
    {
      pdf := pdf + [ms[i].density(ms[i].est, z)];
      r := r[i := ms[i].(est := ms[i].update(ms[i].est, z))];
    }
  }

  /** The third loop of `update`: each probability becomes
      `pdf[i] * prob[i] / total`. */
  method Reweigh(probs: seq<real>, pdf: seq<real>, total: real) returns (p: seq<real>)
    requires |probs| == |pdf|
    requires total == Dot(pdf, probs) && total != 0.0
    ensures p == Posterior(probs, pdf)
  {
    p := probs;
    for i := 0 to |probs|
      invariant |p| == |probs|
      invariant forall k :: 0 <= k < i ==> p[k] == pdf[k] * probs[k] / total
      invariant forall k :: i <= k < |probs| ==> p[k] == probs[k]
    {
      p := p[i := pdf[i] * probs[i] / total];
    }
    forall k | 0 <= k < |probs|
      ensures p[k] == Posterior(probs, pdf)[k]
    {
      PosteriorAsWritten(probs, pdf, k);
    }
  }

  // ---------------------------------------------------------------------
  // What the update promises

  /** The total the update loop accumulates, `sum pdf[i] * prob[i]`, is the
      normaliser of `Posterior`. */
  lemma TotalIsNormaliser(probs: seq<real>, pdf: seq<real>)
    requires |probs| == |pdf|
    ensures Dot(pdf, probs) == Sum(seq(|probs|, i requires 0 <= i < |probs| => probs[i] * pdf[i]))
  {
    var a := seq(|pdf|, k requires 0 <= k < |pdf| => pdf[k] * At(probs, k));
    var b := seq(|probs|, i requires 0 <= i < |probs| => probs[i] * pdf[i]);
    assert a == b by {
      forall k | 0 <= k < |a|
        ensures a[k] == b[k]
      {
      }
    }
  }

  /** Each probability the update writes, `pdf[i] * prob[i] / total`, is the
      posterior model probability. */
  lemma PosteriorAsWritten(probs: seq<real>, pdf: seq<real>, i: nat)
    requires |probs| == |pdf| && i < |probs|
    requires Dot(pdf, probs) != 0.0
    ensures Posterior(probs, pdf)[i] == pdf[i] * probs[i] / Dot(pdf, probs)
  {
    TotalIsNormaliser(probs, pdf);
    assert probs[i] * pdf[i] == pdf[i] * probs[i];
  }

  /** With non-negative prior probabilities and densities and a positive
      total, the updated model probabilities are non-negative, sum to 1 and
      are proportional to `pdf[i] * prob[i]`. */
  lemma UpdatedProbabilities(probs: seq<real>, pdf: seq<real>)
    requires |probs| == |pdf|
    requires forall i :: 0 <= i < |probs| ==> 0.0 <= probs[i] && 0.0 <= pdf[i]
    requires Dot(pdf, probs) > 0.0
    ensures forall i :: 0 <= i < |probs| ==> 0.0 <= Posterior(probs, pdf)[i]
    ensures forall i :: 0 <= i < |probs| ==>
      Posterior(probs, pdf)[i] * Dot(pdf, probs) == pdf[i] * probs[i]
    ensures Sum(Posterior(probs, pdf)) == 1.0
  {
    TotalIsNormaliser(probs, pdf);
    PosteriorIsDistribution(probs, pdf);
    forall i | 0 <= i < |probs|
      ensures Posterior(probs, pdf)[i] * Dot(pdf, probs) == pdf[i] * probs[i]
    {
      assert probs[i] * pdf[i] == pdf[i] * probs[i];
    }
  }

  /** When every model holds the same state `x` and the probabilities sum to
      1, the weighted state is `x`. */
  lemma WeightedStateOfAgreeingModels(ws: seq<real>, xs: seq<Vector>, x: Vector)
    requires |ws| == |xs| > 0
    requires forall k :: 0 <= k < |xs| ==> xs[k] == x
    requires Sum(ws) == 1.0
    ensures WSum(ws, xs) == x
  {
    WSumLength(ws, xs, |x|);
    forall j | 0 <= j < |x|
      ensures WSum(ws, xs)[j] == x[j]
    {
      AgreeingEntry(ws, xs, x, j);
      ScaledDistribution(x[j], ws);
    }
  }

  lemma ScaledDistribution(c: real, ws: seq<real>)
    requires Sum(ws) == 1.0
    ensures Sum(seq(|ws|, k requires 0 <= k < |ws| => c * ws[k])) == c
  {
    SumScale(c, ws);
  }

  lemma AgreeingEntry(ws: seq<real>, xs: seq<Vector>, x: Vector, j: nat)
    requires |ws| == |xs| && j < |x|
    requires forall k :: 0 <= k < |xs| ==> xs[k] == x
    ensures At(WSum(ws, xs), j) == Sum(seq(|ws|, k requires 0 <= k < |ws| => x[j] * ws[k]))
  {
    WSumEntry(ws, xs, |x|, j);
    AgreeingTerms(ws, xs, x, j);
  }

  lemma AgreeingTerms(ws: seq<real>, xs: seq<Vector>, x: Vector, j: nat)
    requires |ws| == |xs| && j < |x|
    requires forall k :: 0 <= k < |xs| ==> xs[k] == x
    ensures seq(|xs|, k requires 0 <= k < |xs| => ws[k] * At(xs[k], j)) ==
            seq(|ws|, k requires 0 <= k < |ws| => x[j] * ws[k])
  {
    var s := seq(|xs|, k requires 0 <= k < |xs| => ws[k] * At(xs[k], j));
    var t := seq(|ws|, k requires 0 <= k < |ws| => x[j] * ws[k]);
    forall k | 0 <= k < |xs|
      ensures s[k] == t[k]
    {
      assert At(xs[k], j) == x[j];
    }
  }

  /** When one model holds all the probability, the weighted state is that
      model's state (all states of one dimension `d`). */
  lemma WeightedStateOfCertainModel(ws: seq<real>, xs: seq<Vector>, d: nat, m: nat)
    requires |ws| == |xs| && m < |xs|
    requires forall k :: 0 <= k < |xs| ==> |xs[k]| == d
    requires ws[m] == 1.0 && forall k :: 0 <= k < |ws| && k != m ==> ws[k] == 0.0
    ensures WSum(ws, xs) == xs[m]
  {
    WSumLength(ws, xs, d);
    forall j | 0 <= j < d
      ensures WSum(ws, xs)[j] == xs[m][j]
    {
      WSumEntry(ws, xs, d, j);
      var s := seq(|xs|, k requires 0 <= k < |xs| => ws[k] * At(xs[k], j));
      SumSingle(s, m);
    }
  }

  /** A list `init` with an entry (possibly `None`) for every model visits
      them all: it raises nothing, initialises each model whose state and
      covariance are both given and leaves the others as they were. */
  lemma ListInitCovering(ms: seq<Member>, xs: seq<Option<Vector>>, Ps: seq<Option<Matrix>>)
    requires |xs| >= |ms| && |Ps| >= |ms|
    ensures FirstFailure(|ms|, xs, Ps, 0) == |ms|
    ensures forall j :: 0 <= j < |ms| && xs[j].Some? && Ps[j].Some? ==>
      ListInitialised(ms, xs, Ps, |ms|)[j].est == Gaussian(xs[j].value, Ps[j].value)
    ensures forall j :: 0 <= j < |ms| && (xs[j].None? || Ps[j].None?) ==>
      ListInitialised(ms, xs, Ps, |ms|)[j] == ms[j]
  {
    assert forall j :: 0 <= j < |ms| ==> !ListFails(xs, Ps, j);
  }

  /** A state list shorter than the bank makes a list `init` raise, at the
      latest at the first model it has no entry for. */
  lemma ListInitShortStates(ms: seq<Member>, xs: seq<Option<Vector>>, Ps: seq<Option<Matrix>>)
    requires |xs| < |ms|
    ensures FirstFailure(|ms|, xs, Ps, 0) <= |xs|
  {
    assert ListFails(xs, Ps, |xs|);
  }

  // ---------------------------------------------------------------------
  // The filter

  class MMFilter {
    var members: seq<Member>
    var probs: seq<real>
    var weightState: Option<Vector>
    var maxprobState: Option<Vector>
    /** `_stage`, which `init` creates. */
    var stage: Option<nat>
    var len: nat
    var initialized: bool

    /** One probability per model; the stage exists only once `init` ran and
        is 0 (expecting `predict`) or 1 (expecting `update`). */
    predicate Valid()
      reads this
    {
      |members| == |probs| && (stage.Some? ==> initialized && stage.value <= 1)
    }

    constructor()
      ensures Valid()
      ensures members == [] && probs == [] && weightState == None && maxprobState == None
      ensures stage == None && len == 0 && !initialized
    {
      members, probs := [], [];
      weightState, maxprobState := None, None;
      stage, len, initialized := None, 0, false;
    }

    /** `filter[k]`: the model registered under key `k` with its
        probability, or `KeyError`. */
    function Item(k: int): (r: Result<(Member, real)>)
      reads this
      requires Valid()
      ensures r.Success? <==> 0 <= k < |members|
      ensures r.Success? ==> r.value == (members[k], probs[k])
      ensures r.Failure? ==> r.error == KeyError
    {
      if 0 <= k < |members| then Success((members[k], probs[k])) else Failure(KeyError)
    }

    /** `add_model`: a Kalman or extended Kalman filter is registered under
        the next key with probability `p`; anything else is ignored. */
    method AddModel(m: Member, p: real)
      requires Valid()
      modifies this`members, this`probs
      ensures Valid()
      ensures m.kind != Other ==> members == old(members) + [m] && probs == old(probs) + [p]
      ensures m.kind == Other ==> members == old(members) && probs == old(probs)
    {
      if m.kind != Other {
        members := members + [m];
        probs := probs + [p];
      }
    }

    /** `init`: both arguments absent leave the models as they were; two
        arrays initialise every model; two lists initialise model by model;
        any other pair raises `ValueError`.  When it does not raise, the
        filter restarts at stage 0 with length 0. */
    method Init(x: StateArg, P: CovArg) returns (o: Outcome)
      requires Valid()
      modifies this`members, this`len, this`stage, this`initialized
      ensures Valid()
      ensures x.NoState? && P.NoCov? ==> o == Pass && members == old(members)
      ensures x.StateArray? && P.CovArray? ==>
        o == Pass && members == InitialisedAll(old(members), x.x, P.P)
      ensures x.StateList? && P.CovList? ==>
        var k := FirstFailure(|old(members)|, x.xs, P.Ps, 0);
        members == ListInitialised(old(members), x.xs, P.Ps, k) &&
        o == (if k < |old(members)| then Fail(IndexError) else Pass)
      ensures (x.StateOther? || P.CovOther? || x.NoState? != P.NoCov? || x.StateArray? != P.CovArray?) ==>
        o == Fail(ValueError) && members == old(members)
      ensures o == Pass ==> len == 0 && stage == Some(0) && initialized
      ensures o != Pass ==>
        len == old(len) && stage == old(stage) && initialized == old(initialized)
    {
      if x.NoState? && P.NoCov? {
      } else if x.StateArray? && P.CovArray? {
        members := InitialiseEach(members, x.x, P.P);
      } else if x.StateList? && P.CovList? {
        var ms;
        ms, o := InitialiseListed(members, x.xs, P.Ps);
        members := ms;
        if o != Pass {
          return;
        }
      } else {
        o := Fail(ValueError);
        return;
      }
      len, stage, initialized := 0, Some(0), true;
      o := Pass;
    }

    /** `predict`: allowed only at stage 0 (`AssertionError` otherwise, and
        `AttributeError` on `_stage` before `init`); every model predicts and
        the filter moves to stage 1. */
    method Predict(u: Vector) returns (o: Outcome)
      requires Valid()
      modifies this`members, this`stage
      ensures Valid()
      ensures old(stage).None? ==>
        o == Fail(AttributeError("_stage")) && members == old(members) && stage == old(stage)
      ensures old(stage).Some? && old(stage) != Some(0) ==>
        o == Fail(AssertionError) && members == old(members) && stage == old(stage)
      ensures old(stage) == Some(0) ==>
        o == Pass && members == Advanced(old(members), u) && stage == Some(1)
    {
      if stage.None? {
        return Fail(AttributeError("_stage"));
      }
      if stage != Some(0) {
        return Fail(AssertionError);
      }
      members := PredictEach(members, u);
      stage := Some(1);
      o := Pass;
    }

    /** `update`: allowed only at stage 1.  Every model updates with `z`; the
        probabilities become the posterior model probabilities
        `pdf[i] * prob[i] / sum_k pdf[k] * prob[k]`; the weighted state is
        `sum_i prob[i] * state[i]` and the most-probable state is the state
        of the first model of largest probability; the length grows by one
        and the filter returns to stage 0. */
    method Update(z: Vector) returns (o: Outcome)
      requires Valid()
      modifies this`members, this`probs, this`weightState, this`maxprobState, this`len, this`stage
      ensures Valid()
      ensures old(stage).None? ==>
        o == Fail(AttributeError("_stage")) && members == old(members) && probs == old(probs) &&
        weightState == old(weightState) && maxprobState == old(maxprobState) &&
        len == old(len) && stage == old(stage)
      ensures old(stage).Some? && old(stage) != Some(1) ==>
        o == Fail(AssertionError) && members == old(members) && probs == old(probs) &&
        weightState == old(weightState) && maxprobState == old(maxprobState) &&
        len == old(len) && stage == old(stage)
      ensures old(stage) == Some(1) ==>
        members == Updated(old(members), z) &&
        o == UpdateOutcome(|members|, Dot(Densities(old(members), z), old(probs)))
      ensures old(stage) == Some(1) && o == Pass ==>
        probs == Posterior(old(probs), Densities(old(members), z)) &&
        weightState == Some(WSum(probs, States(members))) &&
        maxprobState == Some(members[ArgMax(probs)].est.x) &&
        len == old(len) + 1 && stage == Some(0)
      ensures old(stage) == Some(1) && o == Fail(ZeroDivisionError) ==>
        probs == old(probs) && weightState == old(weightState) &&
        maxprobState == old(maxprobState) && len == old(len) && stage == old(stage)
      ensures old(stage) == Some(1) && o == Fail(ValueError) ==>
        probs == [] && weightState == Some([0.0]) &&
        maxprobState == old(maxprobState) && len == old(len) && stage == old(stage)
    {
      if stage.None? {
        return Fail(AttributeError("_stage"));
      }
      if stage != Some(1) {
        return Fail(AssertionError);
      }
      var pdf;
      members, pdf := CorrectEach(members, z);
      var total := WeightedTotal(pdf, probs);
      if |members| == 0 {
        weightState := Some([0.0]);
        return Fail(ValueError);
      }
      if total == 0.0 {
        return Fail(ZeroDivisionError);
      }
      probs := Reweigh(probs, pdf, total);
      weightState := Some(WSum(probs, States(members)));
      maxprobState := Some(members[ArgMax(probs)].est.x);
      len := len + 1;
      stage := Some(0);
      o := Pass;
    }

    /** `step`: allowed only at stage 0; a predict with `u` followed by an
        update with `z`. */
    method Step(z: Vector, u: Vector) returns (o: Outcome)
      requires Valid()
      modifies this`members, this`probs, this`weightState, this`maxprobState, this`len, this`stage
      ensures Valid()
      ensures old(stage).None? ==>
        o == Fail(AttributeError("_stage")) && members == old(members) && probs == old(probs) &&
        weightState == old(weightState) && maxprobState == old(maxprobState) &&
        len == old(len) && stage == old(stage)
      ensures old(stage).Some? && old(stage) != Some(0) ==>
        o == Fail(AssertionError) && members == old(members) && probs == old(probs) &&
        weightState == old(weightState) && maxprobState == old(maxprobState) &&
        len == old(len) && stage == old(stage)
      ensures old(stage) == Some(0) ==>
        var predicted := Advanced(old(members), u);
        members == Updated(predicted, z) &&
        o == UpdateOutcome(|members|, Dot(Densities(predicted, z), old(probs)))
      ensures old(stage) == Some(0) && o == Pass ==>
        probs == Posterior(old(probs), Densities(Advanced(old(members), u), z)) &&
        weightState == Some(WSum(probs, States(members))) &&
        maxprobState == Some(members[ArgMax(probs)].est.x) &&
        len == old(len) + 1 && stage == Some(0)
      ensures old(stage) == Some(0) && o == Fail(ZeroDivisionError) ==>
        probs == old(probs) && weightState == old(weightState) &&
        maxprobState == old(maxprobState) && len == old(len) && stage == Some(1)
      ensures old(stage) == Some(0) && o == Fail(ValueError) ==>
        probs == [] && weightState == Some([0.0]) &&
        maxprobState == old(maxprobState) && len == old(len) && stage == Some(1)
    {
      if stage.None? {
        return Fail(AttributeError("_stage"));
      }
      if stage != Some(0) {
        return Fail(AssertionError);
      }
      o := Predict(u);
      o := Update(z);
    }
  }
}
