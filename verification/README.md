# latqcdtools statistics core in Dafny

This project models two parts of the latqcdtools statistics package over
exact `real` arithmetic.

- **Time-series estimators and their helpers.** These are
  `latqcdtools/statistics/statistics.py` and its older copy
  `latqcdtools/statistics.py`:
  - the leave-one-out jackknife (`jackknifeFrom`)
  - the integrated autocorrelation time and its jackknife bins (`tauint`, `tauintj`)
  - the "stop at the first decrease" pick rule of `getTauInt`
  - the helpers `reduce_tuple`, `jack_mean_and_err`, the weighted means and variances, `norm_cov`, `rem_norm_corr`, `calc_cov`, and the quantile indices of `dev_by_dist`
- **The orchestration of `Fitter`** in `latqcdtools/statistics/fitting.py`. The numerics are not modelled. The model covers:
  - keyword validation
  - `max_fev` budgets
  - the data covariance built from `edata`
  - parameter-count inference and the choice of derivative wrappers
  - start parameters and priors
  - degrees of freedom and the all-NaN parameter covariance
  - one attempt per algorithm, and the choice of the first attempt with the smallest chi-square

Modules:

- `Outcomes` (outcomes.dfy): `Result`, `Option`, the error kinds, and `Ext` (a real, infinity or NaN).
- `Sums` (sums.dfy): sums, means, dot products, deviations, floor and ceiling, and the square-root predicate, with their algebra.
- `Autocorrelation` (autocorrelation.dfy): `jackknifeFrom`, `jack_mean_and_err`, `tauint`, `tauintj`, `getTauInt`. The older file's `jackknifeFrom`, `tauint` and `tauintj` have the same code as the newer ones (only docstrings and whitespace differ), so they are defined once here. `jack_mean_and_err` exists only in the newer file. The older `getTauInt` differs and is modelled in `LegacyStatistics`.
- `Estimators` (estimators.dfy): `reduce_tuple`, the weighted estimators, `norm_cov`, `dev_by_dist`.
- `LegacyStatistics` (legacy_statistics.dfy): what only the older file has. That is `calc_cov`, `rem_norm_corr` (with both round trips against `norm_cov`), its `dev_by_dist` indices, and its `getTauInt`, whose error formula is written out inline.
- `Fitting` (fitting.dfy): the `Fitter` record and its operations.

Conventions of the model:

- **Fatal errors.** `logger.TBError` ends the program, so it is an `Err(Fatal(message))` of the whole call.
- **NaN and infinity.** A Python computation that would silently yield NaN or infinity (`0/0`, a zero weight sum, a zero diagonal) is `Err(NonFinite)`. Indexing past the end is `Err(IndexOutOfRange)`.
- **Square roots.** These are never computed. Errors are reported squared (`errSq`, `value.1` of `JackMeanAndErr`). Where a root is unavoidable (`norm_cov`), the model takes a function `root` constrained by `IsRootFunction`.

## Model

| member | source | states |
|---|---|---|
| Autocorrelation.JackknifeFrom | latqcdtools/statistics/statistics.py:227-240 | fatal exactly when n<2; otherwise n values, the i-th being the mean of the data with x[i] removed |
| Autocorrelation.JackknifeConstant | latqcdtools/statistics/statistics.py:235-240 | a constant series jackknifes to the same constant everywhere |
| Autocorrelation.JackknifePreservesMean | latqcdtools/statistics.py:220-233 | the mean of the jackknife values equals the mean of the data |
| Autocorrelation.JackMeanAndErr | latqcdtools/statistics/statistics.py:75-80 | the mean, and a squared error err^2 with err^2*n = (n-1)*sum of squared deviations; err^2 is non-negative |
| Autocorrelation.JackknifeErrorIsStandardError | latqcdtools/statistics/statistics.py:75-80 | the jackknife error of jackknifed data is the standard error of the original data, sample variance / n |
| Autocorrelation.Acint | latqcdtools/statistics/statistics.py:278-280 | the running sum starts at 1 and each step adds 2*acov[t]/acov[0] |
| Autocorrelation.AcintClosedForm | latqcdtools/statistics/statistics.py:278-280 | acint[t] = 1 + 2*(acov[1]+...+acov[t])/acov[0] |
| Autocorrelation.Tauint | latqcdtools/statistics/statistics.py:254-281 | fatal for n<2, then for nt>=n; otherwise nt+1 values with acint[0]=1 and the recurrence on the bias-corrected autocovariances; a zero lag-0 autocovariance with nt>0 is the NaN case |
| Autocorrelation.TauintBiasCancels | latqcdtools/statistics/statistics.py:259-280 | the bias factor n/(n-1), applied only without xhat, cancels: tauint without xhat equals tauint with xhat = the sample mean |
| Autocorrelation.AcintScaleInvariant | latqcdtools/statistics.py:266-275 | scaling every autocovariance by the same nonzero factor leaves acint unchanged |
| Autocorrelation.BinGeometry | latqcdtools/statistics/statistics.py:310-317 | when the spill check passes, the bin size is at least 1 and nbins*binsize + lag <= n |
| Autocorrelation.BinIndexInRange | latqcdtools/statistics/statistics.py:318-322 | every index i and i+it read for bin ibin lies in [0, n) |
| Autocorrelation.BinsDisjoint | latqcdtools/statistics.py:313-316 | bins [ibin*binsize, (ibin+1)*binsize-1] are disjoint, ordered, and lie within [0, nbins*binsize) |
| Autocorrelation.JackBins | latqcdtools/statistics/statistics.py:309-327 | entry b of acorj[it] is the mean of the nbins bin autocovariances at separation it with bin b left out |
| Autocorrelation.Tauintj | latqcdtools/statistics/statistics.py:296-335 | fatal for n<2, then nbins<2, then a lag at or beyond itmax; otherwise nt+1 rows of nbins entries, row 0 all ones, each bin's column the acint recurrence of that bin's jackknifed autocovariances |
| Autocorrelation.AcintTable | latqcdtools/statistics/statistics.py:328-335 | the acintj table: row 0 is all ones and, for every bin, the column over separations is the acint recurrence of that bin's column of acorj |
| Autocorrelation.ScanStep | latqcdtools/statistics/statistics.py:371-378 | once lmonoton is false nothing changes; while it is true, a value not below the current pick becomes the pick with its error, bias and separation, and the first drop clears the flag and keeps the pick |
| Autocorrelation.ScanStopsForGood | latqcdtools/statistics/statistics.py:367-378 | after the first drop the loop state stays the same for every later separation |
| Autocorrelation.RunEndUnique | latqcdtools/statistics/statistics.py:362-378 | the end of the initial non-decreasing run within 0..tpickMax is unique |
| Autocorrelation.ScanFindsRunEnd | latqcdtools/statistics/statistics.py:367-378 | the scan loop keeps a pick inside the run, stays "monotone" exactly until the first strict decrease, and records that lag's values |
| Autocorrelation.ScanPicksRunEnd | latqcdtools/statistics/statistics.py:362-378 | since acint[0] >= 0 the pick is always set, and it is the end of the initial non-decreasing run |
| Autocorrelation.JackBias | latqcdtools/statistics/statistics.py:369 | the bias (nbins-1)*abs(acint-mean) is non-negative, and zero exactly when acint equals the jackknife mean |
| Autocorrelation.PickTauInt | latqcdtools/statistics/statistics.py:362-378 | the picked lag ends the initial non-decreasing run; tau_int is acint there, with that row's jackknife error and bias |
| Autocorrelation.GetTauInt | latqcdtools/statistics/statistics.py:338-386 | errors of tauint, then of tauintj, propagate; otherwise the run-end pick with its value, error and bias; tpickMax<0 leaves the initial values |
| Estimators.ReduceTuple | latqcdtools/statistics/statistics.py:20-32 | on tuples, a tuple whose i-th entry is func of the i-th components; on scalars, func itself; an empty sample or a short tuple is an index error |
| Estimators.ReduceTupleByComponent | latqcdtools/statistics/statistics.py:22-29 | component i of the reduced tuple equals func applied to column i alone |
| Estimators.WeightedMean | latqcdtools/statistics/statistics.py:83-87 | mean * sum(w) = data . w; a length mismatch is a shape error; a zero weight sum is the NaN case |
| Estimators.WeightedMeanEqualWeights | latqcdtools/statistics/statistics.py:83-87 | equal nonzero weights give the arithmetic mean |
| Estimators.WeightedMeanScaleInvariant | latqcdtools/statistics/statistics.py:83-87 | scaling all weights by a nonzero factor does not change the weighted mean |
| Estimators.WeightedMeanVariance | latqcdtools/statistics/statistics.py:95-111 | default weights 1/e^2 fail on a zero error or no errors; given weights and errors must have equal lengths or one of them length 1 (numpy broadcasting), and the weights must not sum to zero; the result is non-negative |
| Estimators.WeightedMeanVarianceSingleWeight | latqcdtools/statistics/statistics.py:108-111 | one nonzero weight broadcasts over all errors and cancels: the result is sum(e^2) |
| Estimators.WeightedMeanVarianceInverse | latqcdtools/statistics/statistics.py:108-111 | with the default weights the variance of the mean is 1/sum(1/e^2) |
| Estimators.WeightedMeanVarianceEqualWeights | latqcdtools/statistics/statistics.py:95-111 | equal weights give sum(e^2)/n^2 |
| Estimators.BiasedSampleVariance | latqcdtools/statistics/statistics.py:114-119 | the weighted mean of squared deviations from the weighted mean, failing exactly when the weighted mean fails |
| Estimators.BiasedSampleVarianceNonNegative | latqcdtools/statistics/statistics.py:114-119 | non-negative for non-negative weights |
| Estimators.BiasedEqualWeights | latqcdtools/statistics/statistics.py:114-119 | equal weights give sum of squared deviations / n |
| Estimators.UnbiasedSampleVariance | latqcdtools/statistics/statistics.py:122-127 | equals the biased variance divided by (1 - V2/V1^2); NaN case exactly when V2/V1^2 = 1 |
| Estimators.UnbiasedEqualWeights | latqcdtools/statistics/statistics.py:122-127 | equal weights give the ordinary sample variance with n-1 |
| Estimators.UnbiasedSingleMeasurement | latqcdtools/statistics/statistics.py:122-127 | one measurement is the NaN case |
| Estimators.UnbiasedMeanVariance | latqcdtools/statistics/statistics.py:130-138 | result * (V1^2 - V2) = biased variance * V2; NaN case exactly when V1^2 = V2 |
| Estimators.UnbiasedMeanVarianceEqualWeights | latqcdtools/statistics/statistics.py:130-138 | equal weights give sample variance / n |
| Estimators.NormCov | latqcdtools/statistics/statistics.py:141-147 | an empty or ragged matrix is an index error; a zero diagonal product is the NaN case; otherwise the shape of the input with diagonal entries +1 or -1 |
| Estimators.Correlations | latqcdtools/statistics/statistics.py:144-146 | entry (i,j) is cov[i][j]/sqrt(cov[j][j]*cov[i][i]) |
| Estimators.NormCovSymmetric | latqcdtools/statistics/statistics.py:141-147 | a symmetric covariance gives a symmetric correlation matrix |
| Estimators.DevByDistIndices | latqcdtools/statistics/statistics.py:156-158 | for n >= 1 and percentile >= 0, 0 <= idx_dn <= (n-1)/2 <= idx_up <= n-1 |
| Estimators.DevByDistFullRange | latqcdtools/statistics/statistics.py:156-158 | percentile 100 spans the whole sorted range |
| Estimators.DevByDistMedian | latqcdtools/statistics/statistics.py:156-158 | percentile 0 gives the one or two middle indices |
| LegacyStatistics.CalcCov | latqcdtools/statistics.py:84-97 | empty data is a TypeError, because the shape passed to np.zeros is the float array [0.]; ragged data is a shape error; one row divides by zero; otherwise a square symmetric matrix whose entry (j,k) is 1/(N-1) times the dot product of the deviations of components j and k from their means, so its diagonal is each column's sample variance |
| LegacyStatistics.CovEntrySymmetric | latqcdtools/statistics.py:91-97 | entry (j,k) equals entry (k,j) |
| LegacyStatistics.NonSingularNormalises | latqcdtools/statistics.py:100-106 | a square matrix with positive diagonal products normalises entry-wise to cov[i][j]/sqrt(cov[j][j]*cov[i][i]) |
| LegacyStatistics.RemNormCorr | latqcdtools/statistics.py:109-115 | defined exactly when every index it reads exists; then the shape of corr, with entry (i,j) equal to corr[i][j]*e[i]*e[j] |
| LegacyStatistics.RemNormCorrUndoesNormCov | latqcdtools/statistics.py:100-115 | with e[i]=sqrt(cov[i][i]) > 0, rem_norm_corr(norm_cov(cov), e) returns cov |
| LegacyStatistics.NormCovUndoesRemNormCorr | latqcdtools/statistics.py:100-115 | for a unit-diagonal corr and positive e, norm_cov(rem_norm_corr(corr, e)) returns corr |
| LegacyStatistics.LegacyDevByDistIndices | latqcdtools/statistics.py:47-49 | int(n/2 -+ 0.34 n) satisfy 0 <= idx_dn <= idx_up <= n-1 for n >= 1 and bracket n/2 |
| LegacyStatistics.LegacyDevByDistWithinOne | latqcdtools/statistics.py:47-49 | against the newer dev_by_dist at percentile 68, the newer index pair encloses the older one and each end is at most one position further out |
| LegacyStatistics.LegacyErrSq | latqcdtools/statistics.py:347-349 | the squared error is non-negative and n*err^2 = (n-1)*sum of squared deviations |
| LegacyStatistics.LegacyErrSqAgrees | latqcdtools/statistics.py:347-349 | the inline error formula equals that of jack_mean_and_err |
| LegacyStatistics.LegacyGetTauInt | latqcdtools/statistics.py:333-362 | errors of tauint and tauintj propagate; tpickMax<0 leaves itpick unbound (an error); otherwise the run-end pick with its value, error and bias |
| LegacyStatistics.LegacyPickTauInt | latqcdtools/statistics.py:344-359 | the pick ends the initial non-decreasing run of acint, with acint there, the inline squared error and the bias of that row |
| LegacyStatistics.LegacyGetTauIntAgrees | latqcdtools/statistics.py:344-359 | for tpickMax >= 0 the older getTauInt returns what the newer one returns |
| Fitting.NewFitter | latqcdtools/statistics/fitting.py:109-205 | a keyword outside the allowed list is fatal; a failing parameter count, a negative count or a function rejecting the all-ones start is an error; otherwise expand, use_diff, norm_err_chi2, error_strat and args kept from the options, saved params, priorval and priorsigma all ones, saved pcov all infinity, no prior check, budgets, wrappers and covariance as derived from the options, and both derivative argument lists equal to args, as the set_func call leaves them |
| Fitting.NewFitterCorrected | latqcdtools/statistics/fitting.py:138-147 | succeeds and fails exactly as NewFitter; grad_args and hess_args are kept when given and default to args; every other field is NewFitter's |
| Fitting.NewFitterAgreement | latqcdtools/statistics/fitting.py:138-147 | the written and the documented constructor build the same Fitter exactly when construction fails or neither grad_args nor hess_args differs from args |
| Fitting.NormalizeMaxFev | latqcdtools/statistics/fitting.py:149-166 | an int gives that budget to exactly the ten algorithms; None gives the default table; a dict is kept |
| Fitting.DefaultMaxFevCoversAllAlgs | latqcdtools/statistics/fitting.py:155-166 | the default table covers exactly the ten algorithms, with 50000 for curve_fit, 30000 for Powell and 15000 otherwise |
| Fitting.FirstAccepted | latqcdtools/statistics/fitting.py:235-243 | the smallest accepted size in the range, or none when no size is accepted |
| Fitting.NumbParams | latqcdtools/statistics/fitting.py:222-245 | expand mode gives arity - 1 - len(args); packed mode gives the smallest k in 1..1000 the function accepts, fatal when there is none |
| Fitting.ChooseWrappers | latqcdtools/statistics/fitting.py:281-297 | a supplied derivative gets the user wrapper; otherwise the numeric wrapper when use_diff and not derive_chisq, else none; derive_chisq becomes true exactly when it was already or a derivative is missing without use_diff |
| Fitting.ConstructorArgsAsWritten | latqcdtools/statistics/fitting.py:138-147 | after the constructor's set_func call both derivative argument lists equal args |
| Fitting.ConstructorDropsGradArgs | latqcdtools/statistics/fitting.py:302-305 | passing grad_args=(3,) with args=(2,) leaves the gradient arguments (2,) |
| Fitting.ConstructorArgsAgreement | latqcdtools/statistics/fitting.py:299-310 | the documented arguments (DerivativeArgs) agree with the written ones exactly when no derivative argument differs from args |
| Fitting.BuildCovariance | latqcdtools/statistics/fitting.py:189-200 | no edata gives the identity; 1-D errors give diag(e^2) without a covariance flag; 2-D input is kept and flagged |
| Fitting.ErrorsAreUncorrelated | latqcdtools/statistics/fitting.py:195-197 | the diag(e^2) covariance is rem_norm_corr of the identity correlation with errors e |
| Fitting.CheckStartParams | latqcdtools/statistics/fitting.py:315-329 | a start vector the function rejects is an error; finite accepted parameters are kept; one with NaN or infinity is replaced by ones of the re-derived count |
| Fitting.StartParamsLeft | latqcdtools/statistics/fitting.py:315-329 | the parameter count and saved parameters check_start_params leaves, also when it re-raises: kept when accepted and finite, otherwise the re-derived count and ones; nothing when the reset itself raises |
| Fitting.RejectedStartParamsAreReset | latqcdtools/statistics/fitting.py:318-324 | a start vector the function rejects raises, and leaves ones of the re-derived count behind |
| Fitting.CheckStartParamsIdempotent | latqcdtools/statistics/fitting.py:315-329 | checking the checked parameters again returns them exactly when the function accepts their number, which it always does without expand |
| Fitting.GetDof | latqcdtools/statistics/fitting.py:485-496 | dof = n with priors, n - p without; negative dof is fatal |
| Fitting.ComputeErr | latqcdtools/statistics/fitting.py:499-543 | dof <= 0 gives an all-NaN pcov of side len(params); an unknown strategy with dof > 0 is fatal; otherwise the strategy's covariance, scaled by chi2/dof under norm_err_chi2 |
| Fitting.MinimizeChi2 | latqcdtools/statistics/fitting.py:428-482 | curve_fit with priors is fatal; a missing budget, a minimiser exception or a NaN/infinite result fails the attempt; otherwise the parameters and their chi-square |
| Fitting.TryAlgorithm | latqcdtools/statistics/fitting.py:588-604 | fatal errors propagate; other failures become a failed attempt; a success carries the minimiser's result and the computed pcov |
| Fitting.TryAlgorithmSucceedsIff | latqcdtools/statistics/fitting.py:428-604 | an attempt succeeds exactly when curve_fit is not paired with priors, the algorithm has a budget, the minimiser returns a finite point, dof >= 0, and with dof > 0 a known strategy's covariance does not raise; it then reports that point and its chi-square |
| Fitting.SuccessPcovMatchesDof | latqcdtools/statistics/fitting.py:485-543 | a successful attempt's pcov is all NaN exactly when dof = 0 and computed exactly when dof > 0 |
| Fitting.MinimizeChi2WithDefaultBudgets | latqcdtools/statistics/fitting.py:149-166 | with max_fev None or an int, any of the ten algorithms gets a budget, so an attempt fails exactly when the minimiser raises or returns NaN or infinity |
| Fitting.RunAttempts | latqcdtools/statistics/fitting.py:689-694 | one attempt per algorithm, in order, each the result of that algorithm |
| Fitting.ArgMin | latqcdtools/statistics/fitting.py:703 | an index no chi-square undercuts, strictly below every earlier one: the first minimum |
| Fitting.ArgMinPicksBestSuccess | latqcdtools/statistics/fitting.py:697-703 | when some attempt succeeded, the first minimum is a success with the smallest chi-square |
| Fitting.ResolveAlgs | latqcdtools/statistics/fitting.py:642-645 | None gives the five standard algorithms, 'all' the ten, and a list is used as given |
| Fitting.ResolvedAlgsHaveBudgets | latqcdtools/statistics/fitting.py:642-645 | None and 'all' resolve to algorithms that all have a budget when max_fev is None or an int |
| Fitting.SetPriors | latqcdtools/statistics/fitting.py:668-687 | priorsigma without priorval or the reverse is fatal; with priors both lengths must equal the parameter count; without priors zero means, unit sigmas and no prior term |
| Fitting.StartCandidate | latqcdtools/statistics/fitting.py:652-657 | the given start parameters, else the prior means, else the saved parameters, the latter two as finite values |
| Fitting.Prepare | latqcdtools/statistics/fitting.py:652-687 | start params, else priorval, else the saved params are checked; the parameter count becomes their length; priors are then set |
| Fitting.ChiPerDof | latqcdtools/statistics/fitting.py:714-719 | infinite exactly when dof <= 0; otherwise chidof * dof = chi2 |
| Fitting.Select | latqcdtools/statistics/fitting.py:697-719 | all attempts failed (or none ran) is fatal; otherwise the first minimum is a success, only it updates the saved params and pcov, and chidof comes from its dof |
| Fitting.SelectAfterRunNeedsNoDofCheck | latqcdtools/statistics/fitting.py:697-719 | after a run with no fatal attempt, selection fails exactly when every attempt failed: the degrees-of-freedom error cannot recur, because every success already passed getDOF |
| Fitting.TryFit | latqcdtools/statistics/fitting.py:607-732 | preparation errors and fatal attempts propagate; otherwise the selection among the attempts |
| Fitting.TryFitOutcome | latqcdtools/statistics/fitting.py:689-719 | once preparation and the attempts succeed, the fit fails exactly when every algorithm failed, and otherwise reports a successful attempt |
| Fitting.DoFit | latqcdtools/statistics/fitting.py:735-737 | preparation errors propagate; a result always reports choice 0 with the parameters and pcov of the one algorithm's successful attempt |
| Fitting.DoFitIsTheSingleAttempt | latqcdtools/statistics/fitting.py:735-737 | do_fit succeeds exactly when its one algorithm's attempt succeeds, and reports it |
| Fitting.PriorSigmaWithoutMeanIsFatal | latqcdtools/statistics/fitting.py:668-671 | priorsigma without priorval is fatal whatever the other arguments |
| Fitting.PriorLengthMismatchIsFatal | latqcdtools/statistics/fitting.py:681-687 | priors of different lengths are always fatal |
| Fitting.DofFacts | latqcdtools/statistics/fitting.py:485-496 | with priors the dof is never negative; any dof is n minus p without priors and n with them |
| Fitting.NoAlgorithmsIsFatal | latqcdtools/statistics/fitting.py:697-700 | an empty algorithm list is fatal, because np.all of nothing is true |

## Left out

- Floating point. All arithmetic is exact `real`. Rounding, overflow and NaN propagation are not modelled; results that would be NaN or infinite are error values instead.
- Square roots are not computed. Errors are stated squared, and `norm_cov` takes the root function as a parameter.
- Autocorrelation.JackMeanAndErr: states the squared error instead of the error, because no square root is computed.
- LegacyStatistics.LegacyErrSq: states the squared error instead of the error, for the same reason.
- LegacyStatistics.LegacyDevByDistIndices: the float `0.68` is taken as the exact rational 68/100.
- Estimators.DevByDistIndices: `percentile/100` is exact.
- LegacyStatistics.CalcCov: only two-dimensional data (N measurements of d components) is modelled; the source's shape arithmetic and `'...j,...k->...jk'` contraction also accept arrays of higher rank.
- The sorting, medians and `np.take` of `dev_by_dist` are left out; only its index arithmetic is modelled.
- `getTauInt` writes `acor.d` and optionally plots; both are I/O and are left out.
- The fitter's numerics are parameters of `Numerics`: `minimize`/`curve_fit`, the chi-square, its gradient and Hessian, numerical derivatives, and `pcov_error_prop`/`pcov_hessian`.
- The constructor's `norm_cov`, `cut_eig` and `inv` of the correlation matrix are left out.
- `logGBF` is not modelled; `detailedInfo` only changes what is returned.
- The user function's signature introspection and its calls are replaced by `FitFunction`: a declared arity and a predicate saying which parameter counts it accepts.
- `parallel_function_eval` is modelled as a sequential map over the algorithm list. Its process-level concurrency is left out.
- Fitting.MinimizeChi2: a chi-square that is itself NaN or infinite after a successful minimisation is not modelled. The chi-square oracle returns a real.
- Fitting.ComputeErr: under `norm_err_chi2` with dof = 0 the source multiplies the NaN matrix by `chi2/0`. That stays all-NaN, which the model returns directly.
- Fitting.CheckStartParams: the reset of `_numb_params` and `_saved_params` before the exception is re-raised is not part of its `Err`. `Fitting.StartParamsLeft` gives that state, and `Fitting.RejectedStartParamsAreReset` ties it to the error.
- Fitting.Prepare: an exception from `check_start_params` is an `Err` that carries no `Fitter`. The state it leaves behind is given separately by `Fitting.StartParamsLeft`.
- Fitting.TryFit: for the same reason its `Err` results carry no `Fitter` state.
- Fitting.Options: `args=None` passed explicitly is not modelled, because `args` is a sequence.
- The module-level `do_fit`/`try_fit` convenience functions are left out. They only construct a `Fitter` and call its methods.
- Plotting, `save_func`, `get_func` are left out.

## Findings

| source | as written | input that shows it | evidently intended | confidence | as-written member | corrected member |
|---|---|---|---|---|---|---|
| latqcdtools/statistics/fitting.py:181 | the constructor reads `grad_args`/`hess_args`, then calls `set_func(func, grad, hess)`, whose `grad_args=None` branch overwrites them with `self._args` | `Fitter(f, x, y, args=(2,), grad_args=(3,))` leaves `_grad_args == (2,)` | `grad_args`/`hess_args` passed to the constructor are used, defaulting to `args` | not executed | Fitting.ConstructorArgsAsWritten | Fitting.NewFitterCorrected |
