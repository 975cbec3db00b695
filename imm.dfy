/** The interacting multiple model combiner `IMMFilter` of
    tracklib/filter/dmmf.py (Bar-Shalom, Li and Kirubarajan, section 11.6.6):
    a set of component filters of different model types, their model
    probabilities and a transition matrix.  Before each prediction the
    components are mixed; after each correction the probabilities are
    reweighted by the components' likelihoods; after both, the components are
    fused into one estimate of the first model's type. */
module Imm {
  import opened Errors
  import opened Linalg
  import opened FilterBase
  import opened EkfSteps

  /** The switching function `switch_fcn(x, type_in, type_out)` applied to
      states and to covariances. */
  datatype Switch = Switch(state: (Vector, string, string) -> Vector, cov: (Matrix, string, string) -> Matrix)

  /** A component filter as the combiner uses it: its current estimate (none
      before it is initialised) and what its `predict`, `correct`,
      `distance` and `likelihood` do to or with an estimate. */
  datatype Component = Component(
    est: Option<Gaussian>,
    predict: (Gaussian, Vector) -> Gaussian,
    correct: (Gaussian, Vector) -> Gaussian,
    distance: (Gaussian, Vector) -> real,
    likelihood: (Gaussian, Vector) -> real)

  /** `a / b`; numpy gives nan or inf for a zero `b`, the model gives 0. */
  function Quotient(a: real, b: real): real { if b == 0.0 then 0.0 else a / b }

  // ---------------------------------------------------------------------
  // Defaults of `add_models`

  const TransProb: real := 0.999

  /** `np.full(n, 1 / n)`. */
  function DefaultProbs(n: nat): (p: Vector)
    requires n > 0
    ensures |p| == n
  {
    seq(n, _ => 1.0 / n as real)
  }

  /** `trans_prob` on the diagonal and `(1 - trans_prob) / 2` elsewhere. */
  function DefaultTransition(n: nat): (T: Matrix)
    ensures IsMatrix(T, n, n)
  {
    seq(n, i => seq(n, j => if i == j then TransProb else (1.0 - TransProb) / 2.0))
  }

  lemma {:induction false} SumConstant(n: nat, c: real)
    ensures Sum(seq(n, _ => c)) == n as real * c
    decreases n
  {
    if n > 0 {
      assert seq(n, _ => c)[..n - 1] == seq(n - 1, _ => c);
      SumConstant(n - 1, c);
    }
  }

  /** The default probabilities are uniform and sum to 1. */
  lemma DefaultProbsUniform(n: nat)
    requires n > 0
    ensures forall i :: 0 <= i < n ==> DefaultProbs(n)[i] == 1.0 / n as real
    ensures Sum(DefaultProbs(n)) == 1.0
  {
    SumConstant(n, 1.0 / n as real);
  }

  /** Every row of the default transition matrix sums to
      `0.999 + (n - 1) * 0.0005`: to 1 exactly when there are three models. */
  lemma DefaultTransitionRowSum(n: nat, i: nat)
    requires i < n
    ensures Sum(DefaultTransition(n)[i]) == TransProb + (n - 1) as real * ((1.0 - TransProb) / 2.0)
    ensures Sum(DefaultTransition(n)[i]) == 1.0 <==> n == 3
  {
    var off := (1.0 - TransProb) / 2.0;
    var a := seq(n, _ => off);
    var b := seq(n, j => if j == i then TransProb - off else 0.0);
    SumConstant(n, off);
    SumSingle(b, i);
    SumAdd(a, b);
    assert DefaultTransition(n)[i] == seq(|a|, k requires 0 <= k < |a| => a[k] + b[k]);
  }

  // ---------------------------------------------------------------------
  // Mixing and reweighting

  /** `sum(trans_mat * probs, axis=1)`: the prior model probabilities. */
  function PriorProbs(T: Matrix, mu: Vector): (p: Vector)
    ensures |p| == |T|
  {
    MatVec(T, mu)
  }

  /** `trans_mat * probs` with each row divided by its sum: the mixing
      weights of destination model `i`. */
  function MixingWeights(T: Matrix, mu: Vector): (w: Matrix)
    ensures |w| == |T| && forall i :: 0 <= i < |T| ==> |w[i]| == |T[i]|
  {
    seq(|T|, i requires 0 <= i < |T| => seq(|T[i]|, j => MixingWeight(T, mu, i, j)))
  }

  /** `trans_mat[i, j] * probs[j] / probs_prior[i]`. */
  function MixingWeight(T: Matrix, mu: Vector, i: int, j: int): real
  {
    Quotient(Entry(T, i, j) * At(mu, j), At(PriorProbs(T, mu), i))
  }

  /** Each row of the mixing weights with a non-zero prior probability sums
      to 1. */
  lemma MixingRowSumsToOne(T: Matrix, mu: Vector, i: nat)
    requires i < |T| && PriorProbs(T, mu)[i] != 0.0
    ensures Sum(MixingWeights(T, mu)[i]) == 1.0
  {
    var p := PriorProbs(T, mu)[i];
    var s := seq(|T[i]|, k requires 0 <= k < |T[i]| => T[i][k] * At(mu, k));
    assert Sum(s) == p;
    SumScale(1.0 / p, s);
    var row := MixingWeights(T, mu)[i];
    var t := seq(|s|, k requires 0 <= k < |s| => 1.0 / p * s[k]);
    assert |row| == |t|;
    forall k | 0 <= k < |s|
      ensures row[k] == t[k]
    {
      QuotientIsScale(s[k], p);
    }
    assert row == t;
  }

  lemma QuotientIsScale(a: real, p: real)
    requires p != 0.0
    ensures Quotient(a, p) == 1.0 / p * a
  {
  }

  /** Non-negative probabilities and transition entries give non-negative
      mixing weights. */
  lemma MixingWeightsNonNegative(T: Matrix, mu: Vector, i: nat, j: nat)
    requires i < |T| && j < |T[i]|
    requires forall k :: 0 <= k < |T[i]| ==> 0.0 <= T[i][k]
    requires forall k :: 0 <= k < |mu| ==> 0.0 <= mu[k]
    ensures 0.0 <= MixingWeights(T, mu)[i][j]
  {
    var s := seq(|T[i]|, k requires 0 <= k < |T[i]| => T[i][k] * At(mu, k));
    SumNonNegative(s);
    assert PriorProbs(T, mu)[i] == Sum(s);
    assert 0.0 <= T[i][j] * At(mu, j) by {
      NonNegativeProduct(T[i][j], At(mu, j));
    }
    NonNegativeQuotient(T[i][j] * At(mu, j), Sum(s));
    assert MixingWeights(T, mu)[i][j] == MixingWeight(T, mu, i, j);
  }

  lemma NonNegativeProduct(a: real, b: real)
    requires 0.0 <= a && 0.0 <= b
    ensures 0.0 <= a * b
  {
  }

  lemma NonNegativeQuotient(a: real, b: real)
    requires 0.0 <= a && 0.0 <= b
    ensures 0.0 <= Quotient(a, b)
  {
  }

  function ColumnSums(T: Matrix, n: nat): (c: Vector)
    ensures |c| == n
  {
    seq(n, j => Sum(Column(T, j)))
  }

  /** Summing the prior probabilities over the destination models weighs
      each source probability by its column sum. */
  lemma {:induction false} PriorProbsTotal(T: Matrix, mu: Vector, n: nat)
    requires IsMatrix(T, |T|, n) && |mu| == n
    ensures Sum(PriorProbs(T, mu)) == Dot(ColumnSums(T, n), mu)
    decreases |T|
  {
    if |T| == 0 {
      DotZeroLeft(ColumnSums(T, n), mu);
    } else {
      var m := |T| - 1;
      PriorProbsTotal(T[..m], mu, n);
      PriorProbsLast(T, mu);
      ColumnSumsLast(T, n);
      DotAddLeft(ColumnSums(T[..m], n), T[m], mu);
    }
  }

  lemma PriorProbsLast(T: Matrix, mu: Vector)
    requires |T| > 0
    ensures Sum(PriorProbs(T, mu)) == Sum(PriorProbs(T[..|T| - 1], mu)) + Dot(T[|T| - 1], mu)
  {
    assert PriorProbs(T, mu)[..|T| - 1] == PriorProbs(T[..|T| - 1], mu);
  }

  lemma ColumnSumsLast(T: Matrix, n: nat)
    requires |T| > 0 && IsMatrix(T, |T|, n)
    ensures var m := |T| - 1;
      ColumnSums(T, n) == seq(n, k requires 0 <= k < n => ColumnSums(T[..m], n)[k] + T[m][k])
  {
    var m := |T| - 1;
    forall j | 0 <= j < n
      ensures ColumnSums(T, n)[j] == ColumnSums(T[..m], n)[j] + T[m][j]
    {
      assert Column(T, j)[..m] == Column(T[..m], j);
    }
  }

  lemma DotAddLeft(a: Vector, b: Vector, mu: Vector)
    requires |a| == |b|
    ensures Dot(seq(|a|, k requires 0 <= k < |a| => a[k] + b[k]), mu) == Dot(a, mu) + Dot(b, mu)
  {
    var c := seq(|a|, k requires 0 <= k < |a| => a[k] + b[k]);
    var x := seq(|a|, k requires 0 <= k < |a| => a[k] * At(mu, k));
    var y := seq(|b|, k requires 0 <= k < |b| => b[k] * At(mu, k));
    SumAdd(x, y);
    var l := seq(|c|, k requires 0 <= k < |c| => c[k] * At(mu, k));
    var r := seq(|x|, k requires 0 <= k < |x| => x[k] + y[k]);
    forall k | 0 <= k < |c|
      ensures l[k] == r[k]
    {
      assert c[k] * At(mu, k) == a[k] * At(mu, k) + b[k] * At(mu, k);
    }
    assert l == r;
  }

  lemma DotZeroLeft(a: Vector, b: Vector)
    requires forall k :: 0 <= k < |a| ==> a[k] == 0.0
    ensures Dot(a, b) == 0.0
  {
    SumZeros(seq(|a|, k requires 0 <= k < |a| => a[k] * At(b, k)));
  }

  /** The prior probabilities sum to 1 when the probabilities do and every
      column of the transition matrix sums to 1. */
  lemma PriorProbsSumToOne(T: Matrix, mu: Vector, n: nat)
    requires IsMatrix(T, n, n) && |mu| == n && Sum(mu) == 1.0
    requires forall j :: 0 <= j < n ==> Sum(Column(T, j)) == 1.0
    ensures Sum(PriorProbs(T, mu)) == 1.0
  {
    PriorProbsTotal(T, mu, n);
    assert seq(n, k requires 0 <= k < n => ColumnSums(T, n)[k] * At(mu, k)) == mu;
  }

  /** A transition matrix whose rows, not columns, sum to 1 can give prior
      probabilities that do not sum to 1. */
  lemma RowStochasticPriorCounterexample()
    ensures var T := [[1.0, 0.0], [1.0, 0.0]];
      Sum(T[0]) == 1.0 && Sum(T[1]) == 1.0 && Sum([1.0, 0.0]) == 1.0 &&
      Sum(PriorProbs(T, [1.0, 0.0])) == 2.0
  {
    var T := [[1.0, 0.0], [1.0, 0.0]];
    SumTwo(1.0, 0.0);
    assert seq(2, k requires 0 <= k < 2 => T[0][k] * At([1.0, 0.0], k)) == [1.0, 0.0];
    assert PriorProbs(T, [1.0, 0.0]) == [1.0, 1.0];
    SumTwo(1.0, 1.0);
  }

  lemma SumTwo(a: real, b: real)
    ensures Sum([a, b]) == a + b
  {
    assert [a, b][..1] == [a] && [a][..0] == [];
    assert Sum([a]) == Sum([]) + a;
    assert Sum([a, b]) == Sum([a]) + b;
  }

  lemma DotSingle(a: Vector, b: Vector)
    requires |a| == 1
    ensures Dot(a, b) == a[0] * At(b, 0)
  {
    var s := seq(|a|, k requires 0 <= k < |a| => a[k] * At(b, k));
    assert s[..0] == [];
    assert Sum(s) == Sum(s[..0]) + s[0];
  }

  /** `probs * pdf / sum(probs * pdf)`: the posterior model probabilities. */
  function Posterior(mu: Vector, pdf: Vector): (p: Vector)
    requires |mu| == |pdf|
    ensures |p| == |mu|
  {
    var w := seq(|mu|, i requires 0 <= i < |mu| => mu[i] * pdf[i]);
    seq(|mu|, i requires 0 <= i < |mu| => Quotient(w[i], Sum(w)))
  }

  /** With non-negative probabilities and likelihoods and a positive total,
      the posterior probabilities are proportional to `probs * pdf`, are
      non-negative and sum to 1. */
  lemma PosteriorIsDistribution(mu: Vector, pdf: Vector)
    requires |mu| == |pdf|
    requires forall i :: 0 <= i < |mu| ==> 0.0 <= mu[i] && 0.0 <= pdf[i]
    requires Sum(seq(|mu|, i requires 0 <= i < |mu| => mu[i] * pdf[i])) > 0.0
    ensures forall i :: 0 <= i < |mu| ==> 0.0 <= Posterior(mu, pdf)[i]
    ensures forall i :: 0 <= i < |mu| ==>
      Posterior(mu, pdf)[i] * Sum(seq(|mu|, i requires 0 <= i < |mu| => mu[i] * pdf[i])) == mu[i] * pdf[i]
    ensures Sum(Posterior(mu, pdf)) == 1.0
  {
    var w := seq(|mu|, i requires 0 <= i < |mu| => mu[i] * pdf[i]);
    var t := Sum(w);
    SumScale(1.0 / t, w);
    var p := Posterior(mu, pdf);
    var q := seq(|w|, k requires 0 <= k < |w| => 1.0 / t * w[k]);
    forall k | 0 <= k < |w|
      ensures p[k] == q[k] && 0.0 <= p[k] && p[k] * t == w[k]
    {
      QuotientIsScale(w[k], t);
      NonNegativeProduct(mu[k], pdf[k]);
      NonNegativeQuotient(w[k], t);
    }
    assert p == q;
  }

  // ---------------------------------------------------------------------
  // Mixtures

  /** `P + (x - mean)(x - mean)'`. */
  function Deviation(x: Vector, mean: Vector, P: Matrix): Matrix
  {
    MAdd(P, Outer(VSub(x, mean), VSub(x, mean)))
  }

  /** The Gaussian mixture with weights `ws`: mean `sum ws[i] xs[i]` and the
      symmetrised covariance `sum ws[i] (Ps[i] + (xs[i] - mean)(xs[i] - mean)')`. */
  function Mixture(ws: seq<real>, xs: seq<Vector>, Ps: seq<Matrix>): (g: Gaussian)
    requires |ws| == |xs| == |Ps|
    ensures IsSymmetric(g.P)
  {
    var mean := WSum(ws, xs);
    var devs := seq(|xs|, i requires 0 <= i < |xs| => Deviation(xs[i], mean, Ps[i]));
    SymmetrizeIsSymmetric(WSumM(ws, devs));
    Gaussian(mean, Symmetrize(WSumM(ws, devs)))
  }

  /** The two accumulator loops of a mixture: the mean first, then the
      covariance around it. */
  method Mix(ws: seq<real>, xs: seq<Vector>, Ps: seq<Matrix>) returns (g: Gaussian)
    requires |ws| == |xs| == |Ps|
    ensures g == Mixture(ws, xs, Ps)
  {
    var mean: Vector := [];
    for i := 0 to |xs|
      invariant mean == WSum(ws[..i], xs[..i])
    {
      WSumStep(ws, xs, i);
      mean := VAdd(mean, VScale(ws[i], xs[i]));
    }
    assert ws[..|xs|] == ws && xs[..|xs|] == xs;
    var devs := seq(|xs|, i requires 0 <= i < |xs| => Deviation(xs[i], mean, Ps[i]));
    var acc: Matrix := [];
    for i := 0 to |xs|
      invariant acc == WSumM(ws[..i], devs[..i])
    {
      WSumMStep(ws, devs, i);
      var err := VSub(xs[i], mean);
      acc := MAdd(acc, MScale(ws[i], MAdd(Ps[i], Outer(err, err))));
    }
    assert devs[..|xs|] == devs;
    g := Gaussian(mean, Symmetrize(acc));
  }

  lemma OuterZero(d: nat)
    ensures Outer(Zeros(d), Zeros(d)) == seq(d, _ => Zeros(d))
  {
    forall i | 0 <= i < d
      ensures Outer(Zeros(d), Zeros(d))[i] == Zeros(d)
    {
    }
  }

  /** A mixture of one estimate with weight 1 is that estimate. */
  lemma MixtureOfOne(x: Vector, P: Matrix)
    requires IsMatrix(P, |x|, |x|) && IsSymmetric(P)
    ensures Mixture([1.0], [x], [P]) == Gaussian(x, P)
  {
    WSumSingle(1.0, x);
    VScaleOne(x);
    assert VSub(x, x) == Zeros(|x|);
    OuterZero(|x|);
    var dev := Deviation(x, x, P);
    assert dev == P by {
      forall i | 0 <= i < |P| ensures dev[i] == P[i] {
        assert VAdd(P[i], Zeros(|x|)) == P[i];
      }
    }
    assert seq(1, i requires 0 <= i < 1 => Deviation([x][i], x, [P][i])) == [P];
    WSumMSingle(1.0, P);
    MScaleOne(P);
    SymmetrizeKeepsSymmetric(P);
  }

  // ---------------------------------------------------------------------
  // The combiner's view of its components

  /** `[m.state, m.cov for m in models[:n]]`. */
  function Estimates(models: seq<Component>, n: nat): (es: seq<Gaussian>)
    requires n <= |models| && forall i :: 0 <= i < n ==> models[i].est.Some?
    ensures |es| == n && forall i :: 0 <= i < n ==> es[i] == models[i].est.value
  {
    seq(n, i requires 0 <= i < n => models[i].est.value)
  }

  /** The estimates' means switched from their own types to `types[i]`. */
  function SwitchedStates(s: Switch, ests: seq<Gaussian>, types: seq<string>, i: nat): (xs: seq<Vector>)
    requires |ests| <= |types| && i < |types|
    ensures |xs| == |ests|
  {
    seq(|ests|, j requires 0 <= j < |ests| => s.state(ests[j].x, types[j], types[i]))
  }

  /** The estimates' covariances switched from their own types to `types[i]`. */
  function SwitchedCovs(s: Switch, ests: seq<Gaussian>, types: seq<string>, i: nat): (Ps: seq<Matrix>)
    requires |ests| <= |types| && i < |types|
    ensures |Ps| == |ests|
  {
    seq(|ests|, j requires 0 <= j < |ests| => s.cov(ests[j].P, types[j], types[i]))
  }

  /** The mixture with weights `w` of the estimates switched to the type of
      model `i`. */
  function MixedEstimate(s: Switch, ests: seq<Gaussian>, types: seq<string>, w: Vector, i: nat): (g: Gaussian)
    requires |w| == |ests| <= |types| && i < |types|
    ensures IsSymmetric(g.P)
  {
    Mixture(w, SwitchedStates(s, ests, types, i), SwitchedCovs(s, ests, types, i))
  }

  /** Each model's likelihood of `z` at its estimate. */
  function Pdfs(ms: seq<Component>, ests: seq<Gaussian>, z: Vector): (ls: seq<real>)
    requires |ests| <= |ms|
    ensures |ls| == |ests|
  {
    seq(|ests|, i requires 0 <= i < |ests| => ms[i].likelihood(ests[i], z))
  }

  /** Each model's distance of `z` at its estimate. */
  function Dists(ms: seq<Component>, ests: seq<Gaussian>, z: Vector): (ds: seq<real>)
    requires |ests| <= |ms|
    ensures |ds| == |ests|
  {
    seq(|ests|, i requires 0 <= i < |ests| => ms[i].distance(ests[i], z))
  }

  /** The fused estimate: the mixture with the model probabilities, in the
      type of the first model. */
  function Fusion(s: Switch, ests: seq<Gaussian>, types: seq<string>, probs: Vector): (g: Gaussian)
    requires 0 < |probs| == |ests| <= |types|
    ensures IsSymmetric(g.P)
  {
    MixedEstimate(s, ests, types, probs, 0)
  }

  /** With one model of probability 1 and a switch that keeps an estimate of
      the same type, the fused estimate is the model's own. */
  lemma SingleModelFusion(s: Switch, e: Gaussian, t: string)
    requires s.state(e.x, t, t) == e.x && s.cov(e.P, t, t) == e.P
    requires IsMatrix(e.P, |e.x|, |e.x|) && IsSymmetric(e.P)
    ensures Fusion(s, [e], [t], [1.0]) == e
  {
    assert SwitchedStates(s, [e], [t], 0) == [e.x];
    assert SwitchedCovs(s, [e], [t], 0) == [e.P];
    MixtureOfOne(e.x, e.P);
  }

  /** With one model whose prior probability is not zero, mixing gives the
      model back its own estimate. */
  lemma SingleModelMixing(s: Switch, e: Gaussian, t: string, T: Matrix, mu: Vector)
    requires s.state(e.x, t, t) == e.x && s.cov(e.P, t, t) == e.P
    requires IsMatrix(e.P, |e.x|, |e.x|) && IsSymmetric(e.P)
    requires IsMatrix(T, 1, 1) && |mu| == 1 && T[0][0] * mu[0] != 0.0
    ensures MixedEstimate(s, [e], [t], MixingWeights(T, mu)[0], 0) == e
  {
    DotSingle(T[0], mu);
    assert PriorProbs(T, mu)[0] == T[0][0] * mu[0];
    assert At(PriorProbs(T, mu), 0) == Entry(T, 0, 0) * At(mu, 0) == T[0][0] * mu[0];
    var a := T[0][0] * mu[0];
    assert MixingWeight(T, mu, 0, 0) == Quotient(a, a);
    assert a / a == 1.0;
    assert MixingWeights(T, mu)[0][0] == MixingWeight(T, mu, 0, 0) == 1.0;
    assert MixingWeights(T, mu)[0] == [1.0];
    SingleModelFusion(s, e, t);
  }

  /** A weighted sum of positive values with a probability vector as weights
      is positive. */
  lemma WeightedPositive(ws: seq<real>, vs: seq<real>)
    requires |ws| == |vs| && Sum(ws) == 1.0
    requires forall k :: 0 <= k < |ws| ==> 0.0 <= ws[k] && 0.0 < vs[k]
    ensures Dot(ws, vs) > 0.0
  {
    var k :| 0 <= k < |ws| && ws[k] > 0.0 by {
      if forall k :: 0 <= k < |ws| ==> ws[k] <= 0.0 {
        SumZeros(ws);
      }
    }
    SumPositive(seq(|ws|, j requires 0 <= j < |ws| => ws[j] * At(vs, j)), k);
  }

  lemma {:induction false} SumPositive(s: seq<real>, k: nat)
    requires k < |s| && 0.0 < s[k]
    requires forall j :: 0 <= j < |s| ==> 0.0 <= s[j]
    ensures 0.0 < Sum(s)
    decreases |s|
  {
    if k == |s| - 1 {
      SumNonNegative(s[..k]);
    } else {
      SumPositive(s[..|s| - 1], k);
    }
  }

  /** The accumulator loop `total += ws[i] * vs[i]`. */
  method WeightedTotal(ws: seq<real>, vs: seq<real>) returns (total: real)
    requires |ws| == |vs|
    ensures total == Dot(ws, vs)
  {
    var terms := seq(|ws|, k requires 0 <= k < |ws| => ws[k] * At(vs, k));
    total := 0.0;
    for i := 0 to |ws|
      invariant total == Sum(terms[..i])
    {
      SumPrefixStep(terms, i);
      total := total + ws[i] * vs[i];
    }
    assert terms[..|ws|] == terms;
  }

  /** The mixing loop: every model `k < |ests|` is reset to its mixed
      estimate. */
  method MixAll(s: Switch, ests: seq<Gaussian>, types: seq<string>, w: Matrix, ms: seq<Component>)
    returns (r: seq<Component>)
    requires |ests| <= |ms| && |ests| <= |types| && |w| == |ests|
    requires forall k :: 0 <= k < |w| ==> |w[k]| == |ests|
    ensures |r| == |ms|
    ensures forall k :: 0 <= k < |ests| ==> r[k] == ms[k].(est := Some(MixedEstimate(s, ests, types, w[k], k)))
    ensures forall k :: |ests| <= k < |ms| ==> r[k] == ms[k]
  {
    r := ms;
    for i := 0 to |ests|
      invariant |r| == |ms|
      invariant forall k :: 0 <= k < i ==> r[k] == ms[k].(est := Some(MixedEstimate(s, ests, types, w[k], k)))
      invariant forall k :: i <= k < |ms| ==> r[k] == ms[k]
    {
      var g := Mix(w[i], SwitchedStates(s, ests, types, i), SwitchedCovs(s, ests, types, i));
      r := r[i := r[i].(est := Some(g))];
    }
  }

  /** Mixing followed by prediction: every model `k < count` predicts from
      its mixed estimate with weights `w[k]`. */
  method MixAndPredict(s: Switch, ms: seq<Component>, types: seq<string>, w: Matrix, count: nat, u: Vector)
    returns (r: seq<Component>)
    requires count <= |ms| && count <= |types| && |w| == count
    requires forall k :: 0 <= k < count ==> |w[k]| == count
    requires forall k :: 0 <= k < count ==> ms[k].est.Some?
    ensures |r| == |ms|
    ensures forall k :: 0 <= k < count ==>
      r[k] == ms[k].(est := Some(ms[k].predict(MixedEstimate(s, Estimates(ms, count), types, w[k], k), u)))
    ensures forall k :: count <= k < |ms| ==> r[k] == ms[k]
  {
    var ests := Estimates(ms, count);
    var mixed := MixAll(s, ests, types, w, ms);
    r := PredictAll(mixed, count, u);
  }

  /** The prediction loop: every model `k < count` predicts from its own
      estimate. */
  method PredictAll(ms: seq<Component>, count: nat, u: Vector) returns (r: seq<Component>)
    requires count <= |ms| && forall k :: 0 <= k < count ==> ms[k].est.Some?
    ensures |r| == |ms|
    ensures forall k :: 0 <= k < count ==> r[k] == ms[k].(est := Some(ms[k].predict(ms[k].est.value, u)))
    ensures forall k :: count <= k < |ms| ==> r[k] == ms[k]
  {
    r := ms;
    for i := 0 to count
      invariant |r| == |ms|
      invariant forall k :: 0 <= k < i ==> r[k] == ms[k].(est := Some(ms[k].predict(ms[k].est.value, u)))
      invariant forall k :: i <= k < |ms| ==> r[k] == ms[k]
    {
      r := r[i := r[i].(est := Some(r[i].predict(r[i].est.value, u)))];
    }
  }

  /** The correction loop: the likelihood of every model `k < count` is
      taken before that model corrects its estimate. */
  method CorrectAll(ms: seq<Component>, count: nat, z: Vector) returns (r: seq<Component>, pdf: seq<real>)
    requires count <= |ms| && forall k :: 0 <= k < count ==> ms[k].est.Some?
    ensures |r| == |ms|
    ensures pdf == Pdfs(ms, Estimates(ms, count), z)
    ensures forall k :: 0 <= k < count ==> r[k] == ms[k].(est := Some(ms[k].correct(ms[k].est.value, z)))
    ensures forall k :: count <= k < |ms| ==> r[k] == ms[k]
  {
    var ests := Estimates(ms, count);
    r := ms;
    pdf := [];
    for i := 0 to count
      invariant |r| == |ms|
      invariant pdf == Pdfs(ms, ests, z)[..i]
      invariant forall k :: 0 <= k < i ==> r[k] == ms[k].(est := Some(ms[k].correct(ms[k].est.value, z)))
      invariant forall k :: i <= k < |ms| ==> r[k] == ms[k]
    {
      pdf := pdf + [r[i].likelihood(r[i].est.value, z)];
      r := r[i := r[i].(est := Some(r[i].correct(r[i].est.value, z)))];
    }
    assert pdf == Pdfs(ms, ests, z);
  }

  // ---------------------------------------------------------------------
  // The combiner

  class IMMFilter {
    const switch: Switch
    var models: seq<Component>
    var types: seq<string>
    var probs: Option<Vector>
    var trans: Option<Matrix>
    var n: nat
    var state: Option<Vector>
    var cov: Option<Matrix>
    var len: nat
    var initialized: bool

    /** `n` counts the latest batch of models; probabilities and transition
        matrix fit it; an initialised combiner has a fused estimate and
        initialised components. */
    predicate Valid()
      reads this
    {
      n <= |models| && |types| == |models| &&
      (n > 0 ==> probs.Some? && |probs.value| == n && trans.Some? && IsMatrix(trans.value, n, n)) &&
      (initialized ==> n > 0 && state.Some? && cov.Some? && forall i :: 0 <= i < n ==> models[i].est.Some?)
    }

    constructor(switch: Switch)
      ensures Valid() && this.switch == switch
      ensures models == [] && types == [] && probs == None && trans == None && n == 0
      ensures state == None && cov == None && len == 0 && !initialized
    {
      this.switch := switch;
      models, types, probs, trans, n := [], [], None, None, 0;
      state, cov, len, initialized := None, None, 0, false;
    }

    function Length(): (k: nat)
      reads this
      ensures k == len
    {
      len
    }

    function State(): (r: Result<Vector>)
      reads this
      ensures r.Success? <==> state.Some?
      ensures r.Success? ==> r.value == state.value
    {
      Stored(state, "prior_state")
    }

    function Cov(): (r: Result<Matrix>)
      reads this
      ensures r.Success? <==> cov.Some?
      ensures r.Success? ==> r.value == cov.value
    {
      Stored(cov, "prior_cov")
    }

    /** `filter[k]`: the model and its probability. */
    function Item(k: int): (r: Result<(Component, real)>)
      reads this
      requires Valid()
      ensures r.Success? <==> 0 <= k < n
      ensures r.Failure? ==> r.error == IndexError
      ensures r.Success? ==> r.value == (models[k], probs.value[k])
    {
      if k < 0 || k >= n then Failure(IndexError) else Success((models[k], probs.value[k]))
    }

    /** Appends a batch of models; `n` becomes the size of this batch, whose
        probabilities and transition matrix are given or the defaults. */
    method AddModels(ms: seq<Component>, ts: seq<string>, newProbs: Option<Vector>, newTrans: Option<Matrix>)
      returns (o: Outcome)
      requires Valid() && !initialized
      requires |ms| == |ts|
      requires newProbs.Some? ==> |newProbs.value| == |ms|
      requires newTrans.Some? ==> IsMatrix(newTrans.value, |ms|, |ms|)
      modifies this
      ensures Valid() && !initialized && state == old(state) && cov == old(cov) && len == old(len)
      ensures n == |ms| && models == old(models) + ms && types == old(types) + ts
      ensures o.Fail? <==> |ms| == 0 && newProbs.None?
      ensures o.Fail? ==> o.error == ZeroDivisionError && probs == old(probs) && trans == old(trans)
      ensures o.Pass? ==> probs == Some(if newProbs.Some? then newProbs.value else DefaultProbs(|ms|))
      ensures o.Pass? ==> trans == Some(if newTrans.Some? then newTrans.value else DefaultTransition(|ms|))
    {
      n := |ms|;
      models := models + ms;
      types := types + ts;
      if newProbs.None? {
        if n == 0 {
          return Fail(ZeroDivisionError);
        }
        probs := Some(DefaultProbs(n));
      } else {
        probs := newProbs;
      }
      if newTrans.None? {
        trans := Some(DefaultTransition(n));
      } else {
        trans := newTrans;
      }
      o := Pass;
    }

    /** Initialises every model with the estimate switched from the first
        model's type to its own, and stores the estimate itself. */
    method Init(x: Vector, P: Matrix) returns (o: Outcome)
      requires Valid()
      modifies this
      ensures Valid()
      ensures o.Fail? <==> n == 0
      ensures o.Fail? ==> o.error == RuntimeError && unchanged(this)
      ensures o.Pass? ==>
        initialized && state == Some(x) && cov == Some(P) && |models| == |old(models)| &&
        n == old(n) && types == old(types) && probs == old(probs) && trans == old(trans) && len == old(len) &&
        (forall i :: 0 <= i < n ==>
          models[i] == old(models)[i].(est := Some(Gaussian(switch.state(x, types[0], types[i]), switch.cov(P, types[0], types[i]))))) &&
        (forall i :: n <= i < |models| ==> models[i] == old(models)[i])
    {
      if n == 0 {
        return Fail(RuntimeError);
      }
      SetAll(x, P);
      state, cov, initialized := Some(x), Some(P), true;
      o := Pass;
    }

    /** Resets every model like `Init`, without touching the combiner's own
        estimate or its initialisation. */
    method Reset(x: Vector, P: Matrix) returns (o: Outcome)
      requires Valid()
      modifies this
      ensures Valid()
      ensures o.Fail? <==> n == 0
      ensures o.Fail? ==> o.error == CannotSet && unchanged(this)
      ensures o.Pass? ==>
        initialized == old(initialized) && state == old(state) && cov == old(cov) && |models| == |old(models)| &&
        n == old(n) && types == old(types) && probs == old(probs) && trans == old(trans) && len == old(len) &&
        (forall i :: 0 <= i < n ==>
          models[i] == old(models)[i].(est := Some(Gaussian(switch.state(x, types[0], types[i]), switch.cov(P, types[0], types[i]))))) &&
        (forall i :: n <= i < |models| ==> models[i] == old(models)[i])
    {
      if n == 0 {
        return Fail(CannotSet);
      }
      SetAll(x, P);
      o := Pass;
    }

    /** The loop shared by `init` and `reset`. */
    method SetAll(x: Vector, P: Matrix)
      requires Valid() && n > 0
      modifies this
      ensures state == old(state) && cov == old(cov) && initialized == old(initialized) && len == old(len)
      ensures n == old(n) && types == old(types) && probs == old(probs) && trans == old(trans)
      ensures |models| == |old(models)|
      ensures forall i :: 0 <= i < n ==>
        models[i] == old(models)[i].(est := Some(Gaussian(switch.state(x, types[0], types[i]), switch.cov(P, types[0], types[i]))))
      ensures forall i :: n <= i < |models| ==> models[i] == old(models)[i]
      ensures Valid()
    {
      var ms := models;
      for i := 0 to n
        invariant |ms| == |models|
        invariant forall k :: 0 <= k < i ==>
          ms[k] == models[k].(est := Some(Gaussian(switch.state(x, types[0], types[k]), switch.cov(P, types[0], types[k]))))
        invariant forall k :: i <= k < |ms| ==> ms[k] == models[k]
      {
        var xi := switch.state(x, types[0], types[i]);
        var Pi := switch.cov(P, types[0], types[i]);
        ms := ms[i := ms[i].(est := Some(Gaussian(xi, Pi)))];
      }
      models := ms;
    }

    /** `__update`: the fused estimate of the models. */
    method Fuse()
      requires Valid() && n > 0 && forall i :: 0 <= i < n ==> models[i].est.Some?
      modifies this`state, this`cov
      ensures Valid()
      ensures var g := Fusion(switch, Estimates(models, n), types, probs.value);
        state == Some(g.x) && cov == Some(g.P)
    {
      var ests := Estimates(models, n);
      var g := Mix(probs.value, SwitchedStates(switch, ests, types, 0), SwitchedCovs(switch, ests, types, 0));
      state, cov := Some(g.x), Some(g.P);
    }

    /** Mixes the models, predicts each of them and fuses the result.  The
        prior model probabilities replace the stored ones. */
    method Predict(u: Vector) returns (o: Outcome)
      requires Valid()
      modifies this`models, this`probs, this`state, this`cov
      ensures Valid()
      ensures o.Fail? <==> !old(initialized)
      ensures o.Fail? ==> o.error == RuntimeError && unchanged(this)
      ensures o.Pass? ==>
        n == old(n) && types == old(types) && trans == old(trans) && len == old(len) && initialized &&
        probs == Some(PriorProbs(old(trans).value, old(probs).value)) && |models| == |old(models)|
      ensures o.Pass? ==>
        var ests := Estimates(old(models), n);
        var w := MixingWeights(old(trans).value, old(probs).value);
        (forall i :: 0 <= i < n ==>
          models[i] == old(models)[i].(est := Some(old(models)[i].predict(MixedEstimate(switch, ests, types, w[i], i), u)))) &&
        (forall i :: n <= i < |models| ==> models[i] == old(models)[i])
      ensures o.Pass? ==>
        var g := Fusion(switch, Estimates(models, n), types, probs.value);
        state == Some(g.x) && cov == Some(g.P)
    {
      if !initialized {
        return Fail(RuntimeError);
      }
      var mu, T := probs.value, trans.value;
      var w := MixingWeights(T, mu);
      assert forall k :: 0 <= k < n ==> |w[k]| == n;
      models := MixAndPredict(switch, models, types, w, n, u);
      probs := Some(PriorProbs(T, mu));
      Fuse();
      o := Pass;
    }

    /** Takes each model's likelihood of `z` before correcting it, reweights
        the model probabilities by those likelihoods and fuses the result. */
    method Correct(z: Vector) returns (o: Outcome)
      requires Valid()
      modifies this
      ensures Valid()
      ensures o.Fail? <==> !old(initialized)
      ensures o.Fail? ==> o.error == RuntimeError && unchanged(this)
      ensures o.Pass? ==>
        n == old(n) && types == old(types) && trans == old(trans) && len == old(len) && initialized &&
        |models| == |old(models)|
      ensures o.Pass? ==>
        var ests := Estimates(old(models), n);
        probs == Some(Posterior(old(probs).value, Pdfs(old(models), ests, z))) &&
        (forall i :: 0 <= i < n ==> models[i] == old(models)[i].(est := Some(old(models)[i].correct(ests[i], z)))) &&
        (forall i :: n <= i < |models| ==> models[i] == old(models)[i])
      ensures o.Pass? ==>
        var g := Fusion(switch, Estimates(models, n), types, probs.value);
        state == Some(g.x) && cov == Some(g.P)
    {
      if !initialized {
        return Fail(RuntimeError);
      }
      var corrected, pdf := CorrectAll(models, n, z);
      models := corrected;
      probs := Some(Posterior(probs.value, pdf));
      Fuse();
      o := Pass;
    }

    /** The models' distances of `z`. */
    function Distances(z: Vector): (ds: seq<real>)
      reads this
      requires Valid() && initialized
      ensures |ds| == n
    {
      Dists(models, Estimates(models, n), z)
    }

    /** The models' likelihoods of `z`. */
    function Likelihoods(z: Vector): (ls: seq<real>)
      reads this
      requires Valid() && initialized
      ensures |ls| == n
    {
      Pdfs(models, Estimates(models, n), z)
    }

    /** The probability-weighted sum of the models' distances. */
    method Distance(z: Vector) returns (r: Result<real>)
      requires Valid()
      ensures !initialized ==> r == Failure(RuntimeError)
      ensures initialized ==> r == Success(Dot(probs.value, Distances(z)))
    {
      if !initialized {
        return Failure(RuntimeError);
      }
      var d := WeightedTotal(probs.value, Distances(z));
      r := Success(d);
    }

    /** The probability-weighted sum of the models' likelihoods; positive
        when the probabilities form a distribution and every model's
        likelihood is positive. */
    method Likelihood(z: Vector) returns (r: Result<real>)
      requires Valid()
      ensures !initialized ==> r == Failure(RuntimeError)
      ensures initialized ==> r == Success(Dot(probs.value, Likelihoods(z)))
      ensures initialized && Sum(probs.value) == 1.0 &&
              (forall i :: 0 <= i < n ==> 0.0 <= probs.value[i] && 0.0 < Likelihoods(z)[i])
              ==> r.value > 0.0
    {
      if !initialized {
        return Failure(RuntimeError);
      }
      var pdf := WeightedTotal(probs.value, Likelihoods(z));
      if Sum(probs.value) == 1.0 && (forall i :: 0 <= i < n ==> 0.0 <= probs.value[i] && 0.0 < Likelihoods(z)[i]) {
        WeightedPositive(probs.value, Likelihoods(z));
      }
      r := Success(pdf);
    }
  }
}
