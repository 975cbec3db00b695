# tracklib filtering core in Dafny

This project models the estimation core of *tracklib*, a Python library for target tracking, and proves properties of that model. It covers:

- **Motion models** (`tracklib/model/model.py`):
  - the polynomial (Newtonian) transition matrix `F_poly`;
  - the process-noise covariances `Q_poly_dc` (discretised continuous-time) and `Q_poly_dd` (direct discrete-time);
  - the position measurement matrix `H_only_pos`;
  - the constant-velocity and constant-acceleration wrappers;
  - the coordinated-turn measurement function `h_ct2D` and its Jacobian;
  - `state_switch`, `cov_switch` and `model_switch`. These convert a state or a covariance between the model types `cv`, `ca` and `ct2D`. Components that a conversion adds get variance 100.
- **`newton_sys`** (`tracklib/filter/model.py`): builds `F`, `L` and `H` of a Newtonian model with a derivative-major state. It is modelled as a loop that appends one block per pass.
- **The filter bases** (`tracklib/filter/base.py`): `KFBase` (state, covariance, length, initialised flag; read-only `state`/`cov` properties) and `PFBase` (samples, weights, and the `MMSE`/`MAP` estimates).
- **The extended Kalman filters** (`tracklib/filter/ekf.py`): `EKFilterAN` (additive noise) and `EKFilterNAN` (non-additive noise). This covers first- and second-order prediction and correction, iterated correction (`it` extra passes, each relinearised at the last estimate), JPDA correction, the noise-matrix overrides passed as keyword arguments, `distance` and `likelihood`.
- **The interacting multiple model filter** `IMMFilter` (`tracklib/filter/dmmf.py`):
  - `add_models` with its default probabilities and transition matrix;
  - mixing before prediction, which gives the prior model probabilities and the mixing weights;
  - the likelihood reweighting after correction;
  - fusion of the components into one estimate in the first model's representation;
  - `init`, `reset`, indexing, `distance` and `likelihood`.
- **The hybrid multiple model filter** `MMFilter` (`tracklib/filter/mmf.py`): a bank of filters that moves through the stages predict and update. Each update reweights the model probabilities by the innovation densities and keeps the probability-weighted state and the state of the most probable model.

Modelling choices:

- **Exact arithmetic.**
  - Numbers are exact reals: `Vector = seq<real>`, `Matrix = seq<Vector>`.
  - The linear algebra in `Linalg` is total: a missing entry reads as 0. It agrees with numpy wherever the shapes conform.
  - A shape mismatch is modelled as an error (`NotAligned`) only where the source's result depends on it: in the model switches, the shapes decide whether the call goes through.
- **Abstract numerics.** The matrix inverse, the log-determinant and the normal density are left abstract, as the `Numerics` parameter of the filters.
- **User functions as values.** The user functions (`f`, `h`, their Jacobians and Hessians) are function-valued fields.
- **Component filters as values.** The IMM and MMF component filters are values. Each holds its current estimate and the functions its `predict`, `correct` and `likelihood` apply.
- **Python exceptions.** Exceptions become `Failure(error)` or `Fail(error)` results that name the Python exception. A failing `assert` is `AssertionError`.
- **Classes.** The objects that the source updates in place are Dafny classes: `KFBase`, `PFBase`, `EKFilterAN`, `EKFilterNAN`, `IMMFilter` and `MMFilter`. Their methods state the whole new state.
- **Loops.** The source's loops are methods with loop invariants, proved against functions that state the result: filling `F_base`, the `newton_sys` blocks, the correction passes, the JPDA accumulation, the IMM mixing, prediction, correction and weighted totals, and the MMF per-model loops.

Three behaviours of the code worth knowing:

- `EKFilterAN`, `EKFilterNAN` and `IMMFilter` never increment `_len`, so `__len__` stays 0 however many corrections they make.
- The IMM prior model probabilities are `sum(trans_mat * probs, axis=1)`, that is `Π μ`. They form a distribution when `Π` is column-stochastic (`Imm.PriorProbsSumToOne`). With a row-stochastic `Π` the sum can be 2 (`Imm.RowStochasticPriorCounterexample`).
- The default IMM transition matrix puts 0.999 on the diagonal and 0.0005 elsewhere. Its rows sum to 1 only for three models (`Imm.DefaultTransitionRowSum`).

## Model

| member | source | states |
|---|---|---|
| MotionModel.FillPolyBlock | tracklib/model/model.py:48-52 | the in-place fill of `F_base` (first row `T^k/k!`, each later row the first row shifted right) yields `PolyBlock`: an `(order+1)²` upper-triangular Taylor block |
| MotionModel.PolyBlock | tracklib/model/model.py:48-52 | `F_base` is an `(order+1)`-square matrix; its entries are given by `PolyBlockEntry` and the loop that fills it by `FillPolyBlock` |
| MotionModel.PolyBlockEntry | tracklib/model/model.py:48-52 | entry `(r, c)` of `F_base` is `T^(c-r)/(c-r)!`, zero below the diagonal |
| MotionModel.FPoly | tracklib/model/model.py:45-55 | succeeds iff `order >= 0` and `axis >= 0` (otherwise `AssertionError`), and then returns `kron(I_(axis+1), F_base)` |
| MotionModel.PolyTransitionEntry | tracklib/model/model.py:48-53 | `F_poly` is square of size `(axis+1)(order+1)`; entry `(i, j)` is `T^k/k!` with `k = j%b - i%b` (0 when `k < 0`) when `i` and `j` lie in the same axis block of size `b = order+1`, and 0 otherwise |
| MotionModel.PolyTransitionDiagonal | tracklib/model/model.py:48-53 | every diagonal entry of `F_poly` is 1 |
| MotionModel.PolyTransitionZeroStep | tracklib/model/model.py:48-53 | with `T = 0` the transition is the identity |
| MotionModel.FCv | tracklib/model/model.py:172-173 | `F_cv` is `F_poly` of order 1: one `[[1, T], [0, 1]]` block per axis, and it fails exactly when `axis < 0` |
| MotionModel.FCa | tracklib/model/model.py:188-189 | `F_ca` is `F_poly` of order 2: one `[[1, T, T²/2], [0, 1, T], [0, 0, 1]]` block per axis, and it fails exactly when `axis < 0` |
| MotionModel.StdVector | tracklib/model/model.py:84-85 | a scalar standard deviation is broadcast to `axis+1` equal entries; a list is used as given |
| MotionModel.QPolyDc | tracklib/model/model.py:81-91 | succeeds iff `order >= 0` and `axis >= 0`, and then yields a symmetric covariance of size `len(std)·(order+1)` |
| MotionModel.DcBlockSymmetric | tracklib/model/model.py:86-88 | the base block `T^(c+r+1)/(c! r! (c+r+1))` is symmetric |
| MotionModel.QPolyDd | tracklib/model/model.py:130-140 | succeeds iff `order >= 0` and `axis >= 0`, and then yields a symmetric covariance of size `len(std)·(order+1)` |
| MotionModel.QPolyDdEntry | tracklib/model/model.py:133-138 | entry `(i, j)` of `Q_poly_dd` is `std[a]² · L[i%b] · L[j%b]` when `i` and `j` lie in the same axis block `a`, and 0 otherwise: a block-diagonal rank-one covariance per axis |
| MotionModel.QCvDc | tracklib/model/model.py:176-177 | `Q_cv_dc` is `kron(diag(std)², [[T³/3, T²/2], [T²/2, T]])`, and it fails exactly when `axis < 0` |
| MotionModel.QCvDd | tracklib/model/model.py:180-181 | `Q_cv_dd` (acceleration noise, `ht = 1`) is `kron(diag(std)², [[T⁴/4, T³/2], [T³/2, T²]])`, and it fails exactly when `axis < 0` |
| MotionModel.QCaDc | tracklib/model/model.py:192-193 | `Q_ca_dc` is `kron(diag(std)², B)` with `B` the 3×3 continuous Wiener-process acceleration block, and it fails exactly when `axis < 0` |
| MotionModel.QCaDd | tracklib/model/model.py:196-197 | `Q_ca_dd` is `kron(diag(std)², L Lᵀ)` with `L = [T²/2, T, 1]`, and it fails exactly when `axis < 0` |
| MotionModel.HOnlyPos | tracklib/model/model.py:162-169 | succeeds iff `order >= 0` and `axis >= 0`; row `i` of the `(axis+1) × (order+1)(axis+1)` result has its only 1 at column `i(order+1)`, so `H x` reads the positions |
| MotionModel.HOnlyPosCvRows | tracklib/model/model.py:165-166 | for `order = 1`, row `i` of `H` is the unit vector at position `2i` |
| MotionModel.HCv | tracklib/model/model.py:184-185 | `H_cv` selects components `0, 2, 4, …` of a constant-velocity state |
| MotionModel.HCa | tracklib/model/model.py:200-201 | `H_ca` selects components `0, 3, 6, …` of a constant-acceleration state |
| MotionModel.CtMeasurementSelects | tracklib/model/model.py:306-313 | the Jacobian of `h_ct2D` selects components `[0, 2]` of a 5-state, or `[0, 2, 5]` of a 7-state when `axis = 2` |
| MotionModel.HCt2D | tracklib/model/model.py:295-303 | `h_ct2D(x)` has two entries, three when `axis = 2` |
| MotionModel.HCt2DJac | tracklib/model/model.py:306-313 | `h_ct2D_jac(x)` selects state entries 0 and 2 (and 5 when `axis = 2`) of a 5-entry (7-entry) state, and `h_ct2D(x)` is this Jacobian times `x` at every state |
| MotionModel.HCt2DReadsPositions | tracklib/model/model.py:295-303 | `h_ct2D(x)` returns the positions `[x0, x2]` (and `x5` when `axis = 2`), skipping the turn rate inserted at index 4 |
| MotionModel.StateSwitch | tracklib/model/model.py:317-387 | an unknown input or output type raises `ValueError`; a switch between equal known types returns `x` unchanged; no other error is raised except a size the selection matrix cannot take |
| MotionModel.CovSwitch | tracklib/model/model.py:390-465 | an unknown input or output type raises `ValueError`; a switch between equal known types returns `P` unchanged; no other error is raised except a shape the selection matrix cannot take |
| MotionModel.StateSwitchSpec | tracklib/model/model.py:317-387 | `state_switch` raises `ValueError` for an unknown type. For known types it succeeds iff the length fits the input type, and then returns `x` with each output component copied from one input component or set to 0 |
| MotionModel.CvToCaInsertsZeros | tracklib/model/model.py:324-329 | `cv → ca` keeps each (position, velocity) pair and puts a 0 acceleration after it |
| MotionModel.CaToCvDropsAccelerations | tracklib/model/model.py:340-345 | `ca → cv` drops every third component |
| MotionModel.CvToCt2DInsertsTurnRate | tracklib/model/model.py:330-335 | `cv → ct2D` inserts a 0 turn rate at index 4, before any z components |
| MotionModel.Ct2DToCvDropsTurnRate | tracklib/model/model.py:364-369 | `ct2D → cv` removes the turn rate at index 4 |
| MotionModel.StateRoundTripCa | tracklib/model/model.py:324-345 | `state_switch(state_switch(x, cv, ca), ca, cv) == x` for every even-length `x` |
| MotionModel.StateRoundTripCt2D | tracklib/model/model.py:330-335 | `state_switch(state_switch(x, cv, ct2D), ct2D, cv) == x` for lengths 4 and 6 (the reverse step is at lines 364-369) |
| MotionModel.CovSwitchSpec | tracklib/model/model.py:390-465 | `cov_switch` raises `ValueError` for an unknown type. For known types it succeeds on exactly the sizes `state_switch` accepts, and then returns `P` with carried rows and columns copied and each added component given variance 100 and no correlation |
| MotionModel.CovCvToCa | tracklib/model/model.py:398-404 | `cv → ca` succeeds iff the size is even; the added accelerations get variance 100 |
| MotionModel.CovCvToCt | tracklib/model/model.py:405-411 | `cv → ct2D` succeeds for sizes 4 and 6; the added turn rate gets variance 100 |
| MotionModel.CovCaToCv | tracklib/model/model.py:416-421 | `ca → cv` succeeds iff the size is a multiple of 3 and keeps the position-velocity sub-covariance |
| MotionModel.CovCaToCt | tracklib/model/model.py:424-436 | `ca → ct2D` succeeds for sizes 6 and 9: the composition of `ca → cv` and `cv → ct2D` |
| MotionModel.CovCtToCv | tracklib/model/model.py:441-446 | `ct2D → cv` succeeds for sizes 5 and 7 and drops the turn-rate row and column |
| MotionModel.CovCtToCa | tracklib/model/model.py:447-459 | `ct2D → ca` succeeds for sizes 5 and 7: the composition of `ct2D → cv` and `cv → ca`, with variance 100 on the added accelerations |
| MotionModel.CovSwitchCarries | tracklib/model/model.py:390-465 | entry by entry: a carried pair `(i, j)` equals `P[src i][src j]`; an added component has 100 on the diagonal and 0 elsewhere in its row and column |
| MotionModel.CovSwitchKeepsSymmetry | tracklib/model/model.py:390-465 | a switch maps a symmetric covariance to a symmetric one |
| MotionModel.SwitchesAgree | tracklib/model/model.py:317-465 | for a state and a covariance of the same size, `state_switch` and `cov_switch` succeed or fail together (with the same error), and the switched covariance matches the switched state's size |
| MotionModel.CovRoundTripCa | tracklib/model/model.py:398-421 | switching a covariance `cv → ca → cv` gives it back unchanged |
| MotionModel.CovRoundTripCt2D | tracklib/model/model.py:405-446 | switching a covariance `cv → ct2D → cv` gives it back unchanged |
| MotionModel.ModelSwitchPair | tracklib/model/model.py:468-484 | `model_switch` on a (state, cov) pair is the pair of `state_switch` and `cov_switch`; on a 1-D array it is `state_switch`, on a 2-D array `cov_switch`; all three succeed together |
| MotionModel.ModelSwitch | tracklib/model/model.py:468-484 | an object without a length (a 0-d array included) raises `TypeError`; an array of three or more dimensions or another sized object raises `ValueError`; a list or tuple with no entry raises `IndexError`, and one with a single entry raises `IndexError` unless switching its state fails first; a success is a pair for a list or tuple, a state for a 1-D array and a covariance for a 2-D array |
| NewtonSystem.NewtonSys | tracklib/filter/model.py:7-34 | fails with `AssertionError` unless `0 < dim <= 3` and `0 < axis <= 3`. Otherwise the block-appending loop returns exactly `F` (block `(p, q)` is `T^k/k!·I` with `k = q - p`), `L` (block `i` is `T^(2-i)/(2-i)!·I`) and `H = eye(axis, dim·axis)` |
| NewtonSystem.NewtonIsReorderedPoly | tracklib/filter/model.py:22-24 | the `newton_sys` transition is `F_poly(dim-1, axis-1, T)` with the state reordered from axis-major to derivative-major |
| NewtonSystem.NewtonGainIsDdGains | tracklib/filter/model.py:25-26 | block `i` of `L` holds entry `i` of the discrete white-noise gains of `Q_poly_dd` with `ht = 3 - dim` |
| NewtonSystem.NewtonMeasuresPositions | tracklib/filter/model.py:27-28 | `H x` is the first `axis` components of `x`, the positions |
| FilterBase.KFBase.constructor | tracklib/filter/base.py:14-19 | a new filter has no state and no covariance, length 0, and is not initialised |
| FilterBase.KFBase.Length | tracklib/filter/base.py:21-22 | `len(filter)` is the stored length |
| FilterBase.KFBase.State | tracklib/filter/base.py:44-52 | reading `state` gives the stored state, or `AttributeError` naming `prior_state` when none is stored |
| FilterBase.KFBase.Cov | tracklib/filter/base.py:61-69 | reading `cov` gives the stored covariance, or `AttributeError` naming `prior_cov` when none is stored |
| FilterBase.KFBase.SetState | tracklib/filter/base.py:54-59 | assigning `state` fails with `AttributeError` ("can't set attribute") and changes nothing; no class in tracklib defines the `_set_state` hook |
| FilterBase.KFBase.SetCov | tracklib/filter/base.py:71-76 | assigning `cov` fails with `AttributeError` ("can't set attribute") and changes nothing; no class in tracklib defines the `_set_cov` hook |
| FilterBase.FreshFilterIsEmpty | tracklib/filter/base.py:14-69 | on a new filter, length is 0 and both getters raise `AttributeError` |
| FilterBase.PFBase.constructor | tracklib/filter/base.py:80-85 | a new particle filter has no samples, no weights, length 0 |
| FilterBase.PFBase.Length | tracklib/filter/base.py:87-88 | `len(filter)` is the stored length |
| FilterBase.PFBase.Samples | tracklib/filter/base.py:94-99 | the samples, or `AttributeError` naming `samples` |
| FilterBase.PFBase.Weights | tracklib/filter/base.py:101-106 | the weights, or `AttributeError` naming `weights` |
| FilterBase.PFBase.MMSE | tracklib/filter/base.py:108-113 | missing samples raise `AttributeError(samples)` and missing weights `AttributeError(MMSE)`. Otherwise the result is `weights @ samples`, defined iff there is one weight per sample |
| FilterBase.MMSEIsWeightedSum | tracklib/filter/base.py:113 | `weights @ samples` is the weighted sum of the sample vectors |
| FilterBase.PFBase.MAP | tracklib/filter/base.py:116-121 | missing data raise `AttributeError`; an empty weight vector raises `ValueError`. Otherwise the result is the sample at the first index of maximum weight, and it succeeds whenever every weight has a sample |
| EkfSteps.PredictCov | tracklib/filter/ekf.py:106-111 | the predicted covariance `sym(F P Fᵀ + L Q Lᵀ)` is symmetric |
| EkfSteps.Predicted | tracklib/filter/ekf.py:104-116 | the predicted covariance is symmetric, and for first order the predicted state is `f(x, u)` |
| EkfSteps.SecondOrderPredictEntry | tracklib/filter/ekf.py:113-116 | for second order, component `i` of the predicted state is `f(x, u)_i + trace(FH_i P)/2` |
| EkfSteps.Quad | tracklib/filter/ekf.py:115 | the Hessian correction has one entry per state (or measurement) component |
| EkfSteps.InnovationCov | tracklib/filter/ekf.py:137-139 | the innovation covariance `sym(H P Hᵀ + M R Mᵀ)` is symmetric |
| EkfSteps.Gain | tracklib/filter/ekf.py:140 | the gain `P Hᵀ S⁻¹` has one row per state component and the columns of `S⁻¹` |
| EkfSteps.Increment | tracklib/filter/ekf.py:142 | the state increment `K innov` has one entry per state component and is zero when the measurement equals the predicted measurement |
| EkfSteps.Reduced | tracklib/filter/ekf.py:143 | `P - K S Kᵀ` has the rows of `P` |
| EkfSteps.Update | tracklib/filter/ekf.py:136-144 | the corrected covariance `sym(P - K S Kᵀ)` is symmetric |
| EkfSteps.CorrectPass | tracklib/filter/ekf.py:128-161 | one correction pass, linearised at the previous estimate, keeps the covariance symmetric |
| EkfSteps.PredictedMeasurement | tracklib/filter/ekf.py:130-135 | first order: the first pass predicts `h` at the linearisation point, and so does a later pass (`h(x) + H (prior - x)`, ekf.py:148) linearised at the prior itself; second order: component `i` of the first pass's prediction gains `trace(HH_i P) / 2` |
| EkfSteps.Corrected | tracklib/filter/ekf.py:146-161 | after any number of passes the covariance is symmetric |
| EkfSteps.FirstPassIsPassAtPrior | tracklib/filter/ekf.py:130-135 | the first pass (predicted measurement `h(x̂⁻)`) equals an iterated pass taken at the prior itself, since the relinearisation term `H(x̂⁻ - x̂⁻)` vanishes |
| EkfSteps.CorrectedStep | tracklib/filter/ekf.py:146-161 | pass `k+1` restarts from the prior, relinearised at the estimate of pass `k` |
| EkfSteps.CorrectPasses | tracklib/filter/ekf.py:130-161 | the correction loop returns the estimate after `it` extra passes |
| EkfSteps.Accumulate | tracklib/filter/ekf.py:182-193 | the JPDA loop accumulates `Σ pᵢ incᵢ`, `Σ pᵢ (P - Kᵢ Sᵢ Kᵢᵀ)` and `Σ pᵢ incᵢ incᵢᵀ` |
| EkfSteps.JpdaCov | tracklib/filter/ekf.py:196-197 | the combined JPDA covariance is symmetric |
| EkfSteps.JpdaPass | tracklib/filter/ekf.py:175-197 | one JPDA pass keeps the covariance symmetric |
| EkfSteps.JpdaCorrected | tracklib/filter/ekf.py:199-222 | after any number of JPDA passes the covariance is symmetric |
| EkfSteps.JpdaStep | tracklib/filter/ekf.py:182-197 | one JPDA pass computed by the accumulating loop equals `JpdaPass` |
| EkfSteps.JpdaPasses | tracklib/filter/ekf.py:182-222 | the JPDA loop returns the estimate after `it` extra passes |
| EkfSteps.JpdaNoCandidates | tracklib/filter/ekf.py:195-197 | with no measurements the state is kept and the covariance is scaled by `1 - Σ probs` |
| EkfSteps.JpdaNothingKeepsPrior | tracklib/filter/ekf.py:182-197 | with no measurements and no probabilities the estimate is the prior |
| EkfSteps.JpdaSingleCertain | tracklib/filter/ekf.py:182-197 | one measurement with probability 1 gives exactly the ordinary correction of lines 136-144 |
| EkfSteps.CertainCombination | tracklib/filter/ekf.py:196 | with total probability 1 the spread terms cancel and the covariance is the reduced one |
| EkfSteps.Distance | tracklib/filter/ekf.py:232-243 | `innovᵀ S⁻¹ innov + log det S`; a measurement equal to the predicted measurement is at distance `log det S` |
| EkfSteps.Likelihood | tracklib/filter/ekf.py:253-267 | the likelihood is never below `np.finfo(float).tiny`, so it is positive; a measurement equal to the predicted measurement has the (floored) density at 0 |
| Ekf.Repeat | tracklib/filter/ekf.py:170-171 | `[M] * len(zs)`: `len(zs)` copies of the same matrix |
| Ekf.Override | tracklib/filter/ekf.py:230-231 | a matrix given as a keyword argument replaces the stored one; without it the stored matrix is used |
| Ekf.AdditiveMeasurement | tracklib/filter/ekf.py:130-138 | the additive filter linearises with `H = hjac(x)`, predicts `h(x)` and uses the stored noise gain `M` at every state; the Hessians are `hhes(x)` |
| Ekf.NonAdditiveMeasurement | tracklib/filter/ekf.py:376-379 | the non-additive filter takes `H, M = hjac(x, 0)`, predicts `h(x, 0)` and takes the Hessians `hhes(x, 0)`, all at zero measurement noise of dimension `vdim` |
| Ekf.EKFilterAN.constructor | tracklib/filter/ekf.py:32-81 | stores the models and noise matrices; the filter starts uninitialised with no estimate |
| Ekf.EKFilterAN.Create | tracklib/filter/ekf.py:77-80 | construction succeeds iff `order` is 1 or 2, otherwise `ValueError` |
| Ekf.EKFilterAN.Length | tracklib/filter/base.py:21-22 | `len(filter)` is the stored length |
| Ekf.EKFilterAN.State | tracklib/filter/base.py:44-52 | the stored state when there is one |
| Ekf.EKFilterAN.Cov | tracklib/filter/base.py:61-69 | the stored covariance when there is one |
| Ekf.EKFilterAN.Init | tracklib/filter/ekf.py:87-90 | stores the estimate and marks the filter initialised; the noise matrices are unchanged |
| Ekf.EKFilterAN.Reset | tracklib/filter/ekf.py:92-94 | replaces the estimate without touching the initialised flag |
| Ekf.EKFilterAN.Predict | tracklib/filter/ekf.py:96-118 | `RuntimeError` and no change before `init`. Otherwise the `L` and `Q` overrides are stored, and the estimate becomes the first- or second-order prediction from the posterior |
| Ekf.EKFilterAN.Correct | tracklib/filter/ekf.py:120-163 | `RuntimeError` and no change before `init`. Otherwise the `M` and `R` overrides are stored, and the estimate becomes the correction after `it` extra passes, each restarting from the prior |
| Ekf.EKFilterAN.CorrectJpda | tracklib/filter/ekf.py:165-224 | `RuntimeError` before `init`. `IndexError` (no change) when fewer gains, noises or probabilities than measurements are given; missing `M`/`R` default to the stored matrix per measurement. Otherwise the JPDA estimate after `it` extra passes |
| Ekf.EKFilterAN.Distance | tracklib/filter/ekf.py:226-245 | fails iff the filter is uninitialised; otherwise `innovᵀ S⁻¹ innov + log det S` with the overrides applied |
| Ekf.EKFilterAN.Likelihood | tracklib/filter/ekf.py:247-267 | fails iff the filter is uninitialised; otherwise the floored normal density, always positive |
| Ekf.EKFilterNAN.constructor | tracklib/filter/ekf.py:282-331 | stores the models and noise matrices; the noise dimensions are the sizes of `Q` and `R`; uninitialised |
| Ekf.EKFilterNAN.Create | tracklib/filter/ekf.py:327-330 | construction succeeds iff `order` is 1 or 2, otherwise `ValueError` |
| Ekf.EKFilterNAN.Length | tracklib/filter/base.py:21-22 | `len(filter)` is the stored length |
| Ekf.EKFilterNAN.State | tracklib/filter/base.py:44-52 | the stored state when there is one |
| Ekf.EKFilterNAN.Cov | tracklib/filter/base.py:61-69 | the stored covariance when there is one |
| Ekf.EKFilterNAN.Init | tracklib/filter/ekf.py:337-340 | stores the estimate and marks the filter initialised |
| Ekf.EKFilterNAN.Reset | tracklib/filter/ekf.py:342-344 | replaces the estimate without touching the initialised flag |
| Ekf.EKFilterNAN.Predict | tracklib/filter/ekf.py:346-366 | `RuntimeError` before `init`. Otherwise the `Q` override is stored, and the prediction uses `F` and `L` from the Jacobian at zero process noise |
| Ekf.EKFilterNAN.Correct | tracklib/filter/ekf.py:368-409 | `RuntimeError` before `init`. Otherwise the `R` override is stored, and the estimate becomes the iterated correction with `H` and `M` from the Jacobian at zero measurement noise |
| Ekf.EKFilterNAN.CorrectJpda | tracklib/filter/ekf.py:411-469 | as for the additive filter, with the noise gain taken from the Jacobian and only `R` overridable |
| Ekf.EKFilterNAN.Distance | tracklib/filter/ekf.py:471-489 | fails iff uninitialised; otherwise the distance with the `R` override applied |
| Ekf.EKFilterNAN.Likelihood | tracklib/filter/ekf.py:491-510 | fails iff uninitialised; otherwise the floored density, always positive |
| Imm.DefaultProbs | tracklib/filter/dmmf.py:135-136 | `n` default model probabilities |
| Imm.DefaultProbsUniform | tracklib/filter/dmmf.py:135-136 | each default probability is `1/n`, and they sum to 1 |
| Imm.DefaultTransition | tracklib/filter/dmmf.py:139-144 | the default transition matrix is `n × n` |
| Imm.DefaultTransitionRowSum | tracklib/filter/dmmf.py:139-144 | each row sums to `0.999 + (n-1)·0.0005`, which is 1 iff `n = 3` |
| Imm.PriorProbs | tracklib/filter/dmmf.py:154-156 | one prior probability per destination model |
| Imm.PriorProbsTotal | tracklib/filter/dmmf.py:154-156 | the prior probabilities sum to the column sums of the transition matrix weighted by the old probabilities |
| Imm.PriorProbsSumToOne | tracklib/filter/dmmf.py:154-156 | with a column-stochastic transition matrix and probabilities summing to 1, the prior probabilities sum to 1 |
| Imm.RowStochasticPriorCounterexample | tracklib/filter/dmmf.py:154-156 | a row-stochastic transition matrix can give prior probabilities summing to 2 |
| Imm.MixingWeights | tracklib/filter/dmmf.py:154-158 | one row of mixing weights per destination model, as wide as the transition row |
| Imm.MixingRowSumsToOne | tracklib/filter/dmmf.py:158 | each row of mixing weights with a non-zero prior probability sums to 1 |
| Imm.MixingWeightsNonNegative | tracklib/filter/dmmf.py:154-158 | non-negative transitions and probabilities give non-negative mixing weights |
| Imm.Posterior | tracklib/filter/dmmf.py:196-197 | one posterior probability per model |
| Imm.PosteriorIsDistribution | tracklib/filter/dmmf.py:196-197 | the posterior is non-negative, proportional to `μᵢ·pdfᵢ`, and sums to 1 |
| Imm.Mixture | tracklib/filter/dmmf.py:63-76 | the weighted mean and spread of a set of estimates has a symmetric covariance |
| Imm.Mix | tracklib/filter/dmmf.py:63-76 | the accumulating loops compute `Mixture` |
| Imm.MixtureOfOne | tracklib/filter/dmmf.py:63-76 | a mixture of one estimate with weight 1 is that estimate |
| Imm.Estimates | tracklib/filter/dmmf.py:59-60 | the list of the components' current estimates |
| Imm.MixedEstimate | tracklib/filter/dmmf.py:164-179 | the mixed estimate of a destination model has a symmetric covariance |
| Imm.Fusion | tracklib/filter/dmmf.py:58-76 | the fused estimate has a symmetric covariance |
| Imm.SingleModelFusion | tracklib/filter/dmmf.py:58-76 | fusing one model with probability 1 gives that model's estimate |
| Imm.SingleModelMixing | tracklib/filter/dmmf.py:154-179 | with one model, mixing leaves its estimate unchanged |
| Imm.WeightedTotal | tracklib/filter/dmmf.py:205-217 | the accumulating loop of `distance`/`likelihood` returns `Σ μᵢ vᵢ` |
| Imm.MixAll | tracklib/filter/dmmf.py:164-180 | every component is reset to its mixed estimate; the rest are untouched |
| Imm.MixAndPredict | tracklib/filter/dmmf.py:164-183 | every component predicts from its mixed estimate |
| Imm.PredictAll | tracklib/filter/dmmf.py:182-183 | every component predicts from its own estimate |
| Imm.CorrectAll | tracklib/filter/dmmf.py:191-194 | every component's likelihood is taken before its correction, and every component is corrected |
| Imm.IMMFilter.constructor | tracklib/filter/dmmf.py:23-31 | no models, no probabilities, no transition matrix, uninitialised |
| Imm.IMMFilter.Length | tracklib/filter/base.py:21-22 | `len(filter)` is the stored length |
| Imm.IMMFilter.State | tracklib/filter/base.py:44-52 | the fused state when there is one |
| Imm.IMMFilter.Cov | tracklib/filter/base.py:61-69 | the fused covariance when there is one |
| Imm.IMMFilter.Item | tracklib/filter/dmmf.py:53-56 | `filter[k]` is the pair (model, probability) for `0 <= k < n`, otherwise `IndexError` |
| Imm.IMMFilter.AddModels | tracklib/filter/dmmf.py:132-146 | appends models and types and sets `n` to the number added. Missing probabilities default to uniform and a missing transition matrix to the default one. Adding no models without probabilities fails with `ZeroDivisionError` |
| Imm.IMMFilter.Init | tracklib/filter/dmmf.py:93-102 | `RuntimeError` with no models. Otherwise every model is initialised with the estimate switched from the first model's type to its own, and the fused estimate is the given one |
| Imm.IMMFilter.Reset | tracklib/filter/dmmf.py:104-111 | `AttributeError` with no models. Otherwise every model is reset to the switched estimate and the fused estimate is unchanged |
| Imm.IMMFilter.SetAll | tracklib/filter/dmmf.py:108-111 | the shared loop of `init` and `reset` gives model `i` the estimate switched into its own type |
| Imm.IMMFilter.Fuse | tracklib/filter/dmmf.py:58-76 | the stored estimate becomes the fusion of the components in the first model's type |
| Imm.IMMFilter.Predict | tracklib/filter/dmmf.py:148-185 | `RuntimeError` before `init`. Otherwise the probabilities become the prior probabilities, each model predicts from its mixed estimate, and the fused estimate is recomputed |
| Imm.IMMFilter.Correct | tracklib/filter/dmmf.py:187-199 | `RuntimeError` before `init`. Otherwise the probabilities become the likelihood posterior, each model is corrected, and the fused estimate is recomputed |
| Imm.IMMFilter.Distances | tracklib/filter/dmmf.py:205-207 | one distance per model |
| Imm.IMMFilter.Likelihoods | tracklib/filter/dmmf.py:215-217 | one likelihood per model |
| Imm.IMMFilter.Distance | tracklib/filter/dmmf.py:201-209 | `RuntimeError` before `init`, otherwise the probability-weighted distance |
| Imm.IMMFilter.Likelihood | tracklib/filter/dmmf.py:211-219 | `RuntimeError` before `init`, otherwise the probability-weighted likelihood, positive when the probabilities form a distribution and every likelihood is positive |
| Mmf.InitialisedAll | tracklib/filter/mmf.py:68-70 | every member gets the same estimate and is otherwise unchanged |
| Mmf.FirstFailure | tracklib/filter/mmf.py:71-75 | the index of the first member whose list entry cannot be read, or `n` when there is none |
| Mmf.ListEntry | tracklib/filter/mmf.py:73-75 | a member with both list entries present is initialised with them; one with a `None` entry is skipped |
| Mmf.ListInitialised | tracklib/filter/mmf.py:71-75 | initialising from lists keeps the number of members |
| Mmf.ListInitCovering | tracklib/filter/mmf.py:71-75 | lists at least as long as the bank initialise each member from its entries, skipping `None` entries |
| Mmf.ListInitShortStates | tracklib/filter/mmf.py:71-75 | with a state list shorter than the bank, initialisation stops (with `IndexError`) at or before the end of the list |
| Mmf.Advanced | tracklib/filter/mmf.py:106-107 | every member predicts from its own estimate and is otherwise unchanged |
| Mmf.Updated | tracklib/filter/mmf.py:116-117 | every member updates its own estimate and is otherwise unchanged |
| Mmf.Densities | tracklib/filter/mmf.py:115-121 | one innovation density per member |
| Mmf.States | tracklib/filter/mmf.py:133 | one state per member |
| Mmf.UpdateOutcome | tracklib/filter/mmf.py:124-137 | an update succeeds iff the bank is non-empty and the total probability is non-zero. A zero total raises `ZeroDivisionError`; an empty bank raises `ValueError` at `argmax` |
| Mmf.InitialiseEach | tracklib/filter/mmf.py:69-70 | the loop initialises every member with the same estimate |
| Mmf.InitialiseListed | tracklib/filter/mmf.py:72-75 | the loop initialises members from the lists up to the first unreadable entry, where it raises `IndexError` |
| Mmf.PredictEach | tracklib/filter/mmf.py:106-107 | the loop predicts every member |
| Mmf.CorrectEach | tracklib/filter/mmf.py:116-121 | the loop updates every member and collects the densities |
| Mmf.Reweigh | tracklib/filter/mmf.py:128-129 | the loop divides each `pdfᵢ·μᵢ` by the total, giving the posterior |
| Mmf.TotalIsNormaliser | tracklib/filter/mmf.py:124-126 | the accumulated total is the normaliser `Σ μᵢ·pdfᵢ` |
| Mmf.PosteriorAsWritten | tracklib/filter/mmf.py:129 | each new probability is `pdfᵢ·μᵢ / total` |
| Mmf.UpdatedProbabilities | tracklib/filter/mmf.py:124-129 | the new probabilities are non-negative, proportional to `pdfᵢ·μᵢ`, and sum to 1 |
| Mmf.WeightedStateOfAgreeingModels | tracklib/filter/mmf.py:131-134 | when every model has the same state and the probabilities sum to 1, the weighted state is that state |
| Mmf.WeightedStateOfCertainModel | tracklib/filter/mmf.py:131-134 | when one model has probability 1, the weighted state is its state |
| Mmf.MMFilter.constructor | tracklib/filter/mmf.py:17-22 | an empty bank with no weighted or most-probable state, no stage, uninitialised |
| Mmf.MMFilter.Item | tracklib/filter/mmf.py:45-46 | `bank[k]` is the pair (model, probability), or `KeyError` |
| Mmf.MMFilter.AddModel | tracklib/filter/mmf.py:82-99 | a Kalman or extended Kalman filter is appended with its probability; any other object is ignored |
| Mmf.MMFilter.Init | tracklib/filter/mmf.py:48-80 | no arguments keep the members. One array pair initialises every member. Lists initialise member by member (or raise `IndexError`). Any other combination raises `ValueError` and changes nothing. On success the length is 0 and the stage 0 |
| Mmf.MMFilter.Predict | tracklib/filter/mmf.py:101-108 | before `init` there is no stage (`AttributeError`); outside stage 0 an `AssertionError`. Otherwise every member predicts and the stage becomes 1 |
| Mmf.MMFilter.Update | tracklib/filter/mmf.py:110-140 | outside stage 1 nothing changes. Otherwise every member updates. On success the probabilities become the posterior, the weighted state is `Σ μᵢ xᵢ`, the most-probable state is that of the first most probable model, the length grows by 1 and the stage returns to 0. On an empty bank the weighted state becomes the 1-by-1 column `[[0]]`, `argmax` raises `ValueError` and the stage stays 1 |
| Mmf.MMFilter.Step | tracklib/filter/mmf.py:142-146 | from stage 0, `predict` then `update`: the same new state as the two calls in a row, including a stage left at 1 when the update divides by zero, and the `[[0]]` weighted state and `ValueError` of an empty bank |

## Left out

- Floating point: the model computes with exact reals. Rounding, overflow, `nan` and `inf` are not modelled.
- Matrix inverse, determinant, log-determinant, `exp` and `sqrt`: they are the abstract `Numerics` parameter. `lg.inv` of a singular matrix (`LinAlgError`) is not modelled.
- numpy shape errors outside the model switches: the linear algebra is total and zero-padded. It agrees with numpy on conforming shapes but does not raise where numpy would.
- Numerical differentiation (`num_diff`, `num_diff_hessian`), the defaults for missing Jacobians and Hessians: the filters take Jacobians and Hessians as given functions. `tracklib/math.py` is not part of this model.
- `F_ct2D`, `f_ct2D` and `f_ct2D_jac`: they rely on trigonometry (`sin`, `cos`, `deg2rad`).
- `Q_ct2D`: it only serves the coordinated-turn transition above and is left out with it.
- `Trajectory2D`: random noise generation and matplotlib plotting.
- Errors raised inside component filters and user functions: the filters model them as total functions.
- Errors raised by the IMM switching function: the filter treats it as total. Aliasing between component objects is not modelled either; each component is a value.
- `__str__`, `__repr__`, `__iter__` of the filters, the MMF properties `prior_state`, `post_state`, `prior_cov`, `post_cov`, `innov`, `innov_cov` and `gain`, and the IMM accessors `models`, `probs` and `trans_mat`: they only present stored data. The MMF list properties iterate over dictionary keys, which are integers without those attributes.
- `predict(u=None)`: the control input is always a vector.
- Imm.Quotient: numpy gives `nan` or `inf` for a zero prior probability; the model gives 0.
- Imm.IMMFilter.AddModels: requires that the filter is not yet initialised, and that the given probabilities and transition matrix have one entry per model. Adding models to a running filter, and probabilities of another length, are not modelled.
- The `RuntimeError` of the MMF `predict` and `update` for a filter that is not initialised: the stage only exists after `init`, which also sets the flag, so the earlier `assert` on the stage always fails first. The check is not modelled.
- The `innov` and `innov_cov` attributes of the MMF component filters: each member carries the innovation density as a function instead.
- The class checks of `add_model` (`KFilter`, `EKFilter_1st`, `EKFilter_2ed`) and the base class `FilterBase`: these names are not defined in `tracklib/filter/base.py`. The model uses the kind tag of a member and the record of `KFBase`.
- The integer `_len` counters never overflow (Python integers are unbounded).
- FilterBase.KFBase.State: the `_get_state` hook of a subclass (base.py:46-47) is not modelled; no class in tracklib defines it, so the stored state is always read.
- FilterBase.KFBase.Cov: the `_get_cov` hook of a subclass (base.py:63-64) is not modelled; no class in tracklib defines it, so the stored covariance is always read.
- FilterBase.KFBase.SetState: assignment through a `_set_state` hook (base.py:56-57) is not modelled; no class in tracklib defines it, so assignment always raises.
- FilterBase.KFBase.SetCov: assignment through a `_set_cov` hook (base.py:73-74) is not modelled; no class in tracklib defines it, so assignment always raises.
- Imm.IMMFilter.Predict: the `**kwargs` passed on to every component's `predict` (dmmf.py:183) are not modelled. A component's functions are fixed in its value, so an override such as `L=` or `Q=`, which an EKF component keeps for good (ekf.py:100-102), cannot be expressed.
- Imm.IMMFilter.Correct: the `**kwargs` passed on to every component's `likelihood` and `correct` (dmmf.py:193-194) are not modelled. An `M=` or `R=` override, which an EKF component's `correct` keeps for good (ekf.py:124-126), cannot be expressed.
- Imm.IMMFilter.Distance: the `**kwargs` passed on to the component distances (dmmf.py:207) are not modelled; each component's distance uses its own stored matrices.
- Imm.IMMFilter.Likelihood: the `**kwargs` passed on to the component likelihoods (dmmf.py:217) are not modelled; each component's likelihood uses its own stored matrices.
- Imm.IMMFilter.Distances: the `**kwargs` of `distance` (dmmf.py:207) are not modelled, as for `Imm.IMMFilter.Distance`.
- Imm.IMMFilter.Likelihoods: the `**kwargs` of `likelihood` (dmmf.py:217) are not modelled, as for `Imm.IMMFilter.Likelihood`.
