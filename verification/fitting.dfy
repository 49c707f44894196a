/** The orchestration of `Fitter` in `latqcdtools/statistics/fitting.py`:
    option validation, the `max_fev` budgets, the data covariance, the
    parameter count, the choice of derivative wrappers, priors, degrees of
    freedom and the choice among algorithm attempts.

    The numerics are not modelled: the minimiser (scipy `minimize` or
    `curve_fit`), the chi-square and the parameter covariance come in as the
    opaque functions of a `Numerics` value.  The user's fit function is
    known only by its declared arity and by which parameter counts it
    accepts without raising.

    `logger.TBError` ends the program (it is not caught by the
    `except Exception` around each attempt), so it is an `Err` of the whole
    call here; an exception inside an attempt only fails that attempt. */
module Fitting {
  import opened Outcomes
  import opened Sums
  import LegacyStatistics

  // ---------------------------------------------------------------------
  // Class constants
  // ---------------------------------------------------------------------

  /** `_allowed_keys`: the keyword arguments the constructor accepts. */
  const AllowedKeys: set<string> :=
    {"grad", "hess", "args", "expand", "grad_args", "hess_args", "tol", "use_diff", "error_strat",
     "norm_err_chi2", "derive_chisq", "eig_threshold", "test_tol", "max_fev", "nproc"}

  /** `_all_algs`. */
  const AllAlgs: seq<string> :=
    ["curve_fit", "L-BFGS-B", "TNC", "Powell", "Nelder-Mead", "COBYLA", "SLSQP", "CG", "dogleg", "trust-ncg"]

  /** `_std_algs`. */
  const StdAlgs: seq<string> := ["curve_fit", "TNC", "Powell", "Nelder-Mead", "COBYLA"]

  /** How many packed parameter-vector sizes `_get_numb_params` tries. */
  const NTries: nat := 1000

  /** The budgets used when `max_fev` is `None`. */
  const DefaultMaxFev: map<string, int> :=
    map["curve_fit" := 50000, "L-BFGS-B" := 15000, "TNC" := 15000, "Powell" := 30000,
        "Nelder-Mead" := 15000, "COBYLA" := 15000, "SLSQP" := 15000, "CG" := 15000,
        "dogleg" := 15000, "trust-ncg" := 15000]

  const NoConvergence := "No algorithm converged.See above list of exceptions."

  // ---------------------------------------------------------------------
  // Data
  // ---------------------------------------------------------------------

  /** The user's fit function: the number of parameters in its signature,
      and whether a call with `k` fit parameters (in the configured calling
      convention, followed by `args`) returns without raising. */
  datatype FitFunction = FitFunction(arity: int, accepts: nat -> bool)

  /** The `max_fev` keyword: absent, an `int`, a dict, or anything else. */
  datatype MaxFevOption = FevNone | FevInt(n: int) | FevTable(table: map<string, int>) | FevOther

  /** What `self._max_fev` holds after the constructor: a table of budgets
      per algorithm, or a value that cannot be subscripted. */
  datatype Budget = Table(table: map<string, int>) | Unsubscriptable

  /** The `edata` argument: absent, one error per point, or a covariance. */
  datatype EData = NoErrors | Errors(e: seq<real>) | Covariance(m: seq<seq<real>>)

  /** What `self.grad` / `self.hess` are set to. */
  datatype Wrapper = NoWrapper | NumericWrapper | UserWrapper

  /** A covariance of the fit parameters: all infinity (the initial value),
      all NaN (no degrees of freedom), or a computed matrix. */
  datatype PCov = Infinite(size: nat) | NotANumber(size: nat) | Estimated(m: seq<seq<real>>)

  /** The keyword arguments of the constructor: the names passed, and the
      value of each option after its default is filled in. */
  datatype Options = Options(
    keys: set<string>,
    gradGiven: bool,
    hessGiven: bool,
    args: seq<real>,
    gradArgs: Option<seq<real>>,
    hessArgs: Option<seq<real>>,
    expand: bool,
    useDiff: bool,
    deriveChisq: bool,
    normErrChi2: bool,
    errorStrat: string,
    maxFev: MaxFevOption)

  /** The options when no keyword is passed. */
  const DefaultOptions := Options({}, false, false, [], None, None, true, true, false, false, "propagation", FevNone)

  /** The state of a `Fitter` that the orchestration reads and writes. */
  datatype Fitter = Fitter(
    numbData: nat,
    numbParams: nat,
    expand: bool,
    useDiff: bool,
    deriveChisq: bool,
    normErrChi2: bool,
    errorStrat: string,
    args: seq<real>,
    gradArgs: seq<real>,
    hessArgs: seq<real>,
    maxFev: Budget,
    grad: Wrapper,
    hess: Wrapper,
    cov: seq<seq<real>>,
    covAvail: bool,
    savedParams: seq<real>,
    savedPcov: PCov,
    priorval: seq<real>,
    priorsigma: seq<real>,
    checkPrior: bool)

  /** The numerical routines the orchestration calls:
      - `minimize(algorithm, start, budget)`: the minimiser's parameters, or
        `Err` when it raises;
      - `chi2(params)`: the chi-square at `params`;
      - `pcov(errorStrat, algorithm, params)`: the parameter covariance by
        error propagation or from the Hessian, or `Err` when that raises. */
  datatype Numerics = Numerics(
    minimize: (string, seq<real>, int) -> Result<seq<Ext>>,
    chi2: seq<real> -> real,
    pcov: (string, string, seq<real>) -> Result<seq<seq<real>>>)

  /** A value or a caught exception with its message: the outcome of code
      inside the `try` of `_tryAlgorithm`. */
  datatype Caught<T> = Done(value: T) | Raised(reason: string)

  /** The outcome of one algorithm: its parameters, chi-square and parameter
      covariance, or the reason it failed. */
  datatype Attempt = Success(params: seq<real>, chi2: real, pcov: PCov) | Failure(reason: string)

  /** What `try_fit` returns: the parameters, their covariance (whose
      diagonal holds the squared errors), chi^2/dof, and the index of the
      algorithm chosen. */
  datatype FitReport = FitReport(params: seq<real>, pcov: PCov, chidof: Ext, choice: nat)

  /** The `algorithms` argument of `try_fit`. */
  datatype AlgChoice = Standard | All | Given(algs: seq<string>)

  // ---------------------------------------------------------------------
  // Constructor pieces
  // ---------------------------------------------------------------------

  /** The `max_fev` handling of the constructor. */
  function NormalizeMaxFev(opt: MaxFevOption): (r: Budget)
    ensures opt.FevInt? ==> r.Table? && (forall a :: a in r.table <==> a in AllAlgs)
    ensures opt.FevInt? ==> forall a :: a in AllAlgs ==> r.table[a] == opt.n
    ensures opt.FevNone? ==> r == Table(DefaultMaxFev)
    ensures opt.FevTable? ==> r == Table(opt.table)
    ensures opt.FevOther? ==> r == Unsubscriptable
  {
    match opt
    case FevNone => Table(DefaultMaxFev)
    case FevInt(n) => Table(map a | a in AllAlgs :: n)
    case FevTable(t) => Table(t)
    case FevOther => Unsubscriptable
  }

  /** The default table gives every algorithm a budget: 50000 evaluations
      for `curve_fit`, 30000 for Powell and 15000 for the others. */
  lemma DefaultMaxFevCoversAllAlgs()
    ensures forall a :: a in DefaultMaxFev <==> a in AllAlgs
    ensures forall a :: a in AllAlgs ==>
      DefaultMaxFev[a] == (if a == "curve_fit" then 50000 else if a == "Powell" then 30000 else 15000)
  {
  }

  /** The standard algorithms are among all algorithms. */
  lemma StdAlgsAreAlgs()
    ensures forall a :: a in StdAlgs ==> a in AllAlgs
  {
  }

  /** The smallest `k` in `lo..hi` that `accepts`, if there is one. */
  function FirstAccepted(accepts: nat -> bool, lo: nat, hi: nat): (r: Option<nat>)
    ensures r.Some? ==> lo <= r.value <= hi && accepts(r.value)
    ensures r.Some? ==> forall j :: lo <= j < r.value ==> !accepts(j)
    ensures r.None? ==> forall j :: lo <= j <= hi ==> !accepts(j)
    decreases hi - lo
  {
    if lo > hi then None
    else if accepts(lo) then Some(lo)
    else FirstAccepted(accepts, lo + 1, hi)
  }

  /** `_get_numb_params`: in expand mode the signature's parameter count
      minus `x` and `args`; otherwise the first packed vector size in
      `1..1000` the function accepts. */
  function NumbParams(expand: bool, f: FitFunction, args: seq<real>): (r: Result<int>)
    ensures expand ==> r == Ok(f.arity - 1 - |args|)
    ensures !expand && r.Ok? ==> 1 <= r.value <= NTries && f.accepts(r.value)
    ensures !expand && r.Ok? ==> forall k :: 1 <= k < r.value ==> !f.accepts(k)
    ensures !expand ==> (r.Err? <==> forall k :: 1 <= k <= NTries ==> !f.accepts(k))
    ensures r.Err? ==> r.error == Fatal("Fit function does not work with up to 1000 parameters.")
  {
    if expand then Ok(f.arity - 1 - |args|)
    else
      match FirstAccepted(f.accepts, 1, NTries)
      case Some(k) => Ok(k)
      case None => Err(Fatal("Fit function does not work with up to 1000 parameters."))
  }

  /** How `set_func` picks one derivative wrapper, and the new value of
      `derive_chisq`. */
  function ChooseWrapper(given: bool, useDiff: bool, derive: bool): (Wrapper, bool)
  {
    if given then (UserWrapper, derive)
    else if useDiff && !derive then (NumericWrapper, derive)
    else (NoWrapper, true)
  }

  /** `set_func`'s choice of the gradient and Hessian wrappers (the Hessian
      first) and the resulting `derive_chisq`.  The order does not matter:
      each wrapper depends only on the options. */
  function ChooseWrappers(gradGiven: bool, hessGiven: bool, useDiff: bool, derive: bool): (r: (Wrapper, Wrapper, bool))
    ensures r.0 == if gradGiven then UserWrapper else if useDiff && !derive then NumericWrapper else NoWrapper
    ensures r.1 == if hessGiven then UserWrapper else if useDiff && !derive then NumericWrapper else NoWrapper
    ensures r.2 <==> derive || (!useDiff && (!gradGiven || !hessGiven))
    ensures r.0 == NoWrapper || r.1 == NoWrapper ==> r.2
  {
    var (h, d1) := ChooseWrapper(hessGiven, useDiff, derive);
    var (g, d2) := ChooseWrapper(gradGiven, useDiff, d1);
    (g, h, d2)
  }

  /** The gradient and Hessian arguments the constructor reads from its
      keywords: each defaults to `args`. */
  function DerivativeArgs(opts: Options): (r: (seq<real>, seq<real>))
    ensures opts.gradArgs.Some? ==> r.0 == opts.gradArgs.value
    ensures opts.gradArgs.None? ==> r.0 == opts.args
    ensures opts.hessArgs.Some? ==> r.1 == opts.hessArgs.value
    ensures opts.hessArgs.None? ==> r.1 == opts.args
  {
    (if opts.gradArgs.Some? then opts.gradArgs.value else opts.args,
     if opts.hessArgs.Some? then opts.hessArgs.value else opts.args)
  }

  /** The argument handling at the end of `set_func(func, grad, hess, args,
      grad_args, hess_args)` as written: a `None` `grad_args` (or
      `hess_args`) is replaced by the function's arguments whenever those are
      not `None`, which in this model they never are. */
  function SetFuncArgsAsWritten(current: (seq<real>, seq<real>, seq<real>), args: Option<seq<real>>,
                                gradArgs: Option<seq<real>>, hessArgs: Option<seq<real>>): (r: (seq<real>, seq<real>, seq<real>))
    ensures r.0 == if args.Some? then args.value else current.0
    ensures gradArgs.None? ==> r.1 == r.0
    ensures hessArgs.None? ==> r.2 == r.0
  {
    var a := if args.Some? then args.value else current.0;
    (a, if gradArgs.Some? then gradArgs.value else a, if hessArgs.Some? then hessArgs.value else a)
  }

  /** The constructor as written calls `set_func(func, grad, hess)` after
      reading `grad_args` and `hess_args`, so those keywords are always
      overwritten by `args`. */
  function ConstructorArgsAsWritten(opts: Options): (r: (seq<real>, seq<real>))
    ensures r == (opts.args, opts.args)
  {
    var (g, h) := DerivativeArgs(opts);
    var s := SetFuncArgsAsWritten((opts.args, g, h), None, None, None);
    (s.1, s.2)
  }

  /** The keywords `grad_args` and `hess_args` are lost: passing
      `args=(2,)` and `grad_args=(3,)` leaves `_grad_args == (2,)`. */
  lemma ConstructorDropsGradArgs()
    ensures var opts := DefaultOptions.(keys := {"args", "grad_args"}, args := [2.0], gradArgs := Some([3.0]));
      DerivativeArgs(opts).0 == [3.0] && ConstructorArgsAsWritten(opts).0 == [2.0]
  {
  }

  /** The documented and the written derivative arguments agree exactly
      when no derivative argument differs from `args`. */
  lemma ConstructorArgsAgreement(opts: Options)
    ensures DerivativeArgs(opts) == ConstructorArgsAsWritten(opts) <==>
      (opts.gradArgs.None? || opts.gradArgs.value == opts.args) &&
      (opts.hessArgs.None? || opts.hessArgs.value == opts.args)
  {
  }

  /** `np.diag(np.ones(n))`. */
  function Identity(n: nat): (r: seq<seq<real>>)
    ensures |r| == n && forall i :: 0 <= i < n ==> |r[i]| == n
    ensures forall i, j :: 0 <= i < n && 0 <= j < n ==> r[i][j] == if i == j then 1.0 else 0.0
  {
    seq(n, i requires 0 <= i < n => seq(n, j requires 0 <= j < n => if i == j then 1.0 else 0.0))
  }

  /** `np.diag(e**2)`. */
  function DiagonalOfSquares(e: seq<real>): (r: seq<seq<real>>)
    ensures |r| == |e| && forall i :: 0 <= i < |e| ==> |r[i]| == |e|
    ensures forall i, j :: 0 <= i < |e| && 0 <= j < |e| ==> r[i][j] == if i == j then e[i] * e[i] else 0.0
  {
    seq(|e|, i requires 0 <= i < |e| => seq(|e|, j requires 0 <= j < |e| => if i == j then e[i] * e[i] else 0.0))
  }

  /** The data covariance and the flag `_cov_avail` the constructor derives
      from `edata`. */
  function BuildCovariance(edata: EData, numbData: nat): (r: (seq<seq<real>>, bool))
    ensures edata.NoErrors? ==> r == (Identity(numbData), false)
    ensures edata.Errors? ==> !r.1 && |r.0| == |edata.e| && forall i :: 0 <= i < |edata.e| ==> |r.0[i]| == |edata.e|
    ensures edata.Errors? ==> forall i :: 0 <= i < |edata.e| ==> r.0[i][i] == edata.e[i] * edata.e[i]
    ensures edata.Covariance? ==> r == (edata.m, true)
  {
    match edata
    case NoErrors => (Identity(numbData), false)
    case Errors(e) => (DiagonalOfSquares(e), false)
    case Covariance(m) => (m, true)
  }

  /** One-dimensional errors give the covariance whose correlation matrix
      is the identity and whose error bars are those errors: the same matrix
      `rem_norm_corr` builds from the identity and the errors. */
  lemma ErrorsAreUncorrelated(e: seq<real>)
    requires |e| > 0
    ensures LegacyStatistics.RemNormCorr(Identity(|e|), e) == Ok(BuildCovariance(Errors(e), |e|).0)
  {
    var n := |e|;
    var id := Identity(n);
    assert LegacyStatistics.RemNormReadable(id, e);
    var c := LegacyStatistics.RemNormCorr(id, e).value;
    var d := DiagonalOfSquares(e);
    forall i, j | 0 <= i < n && 0 <= j < n
      ensures c[i][j] == d[i][j]
    {
      assert c[i][j] == id[i][j] * e[i] * e[j];
      ScaledEntry(id[i][j], e[i], e[j]);
    }
    forall i | 0 <= i < n
      ensures c[i] == d[i]
    {
      assert |c[i]| == |id[0]| == n == |d[i]|;
    }
    assert |c| == |d|;
    assert c == d;
    assert BuildCovariance(Errors(e), n).0 == d;
  }

  /** Scaling by 1 keeps a product, scaling 0 keeps 0. */
  lemma ScaledEntry(c: real, a: real, b: real)
    requires c == 0.0 || c == 1.0
    ensures c * a * b == if c == 1.0 then a * b else 0.0
  {
  }

  /** `check_start_params` on candidate start parameters: the function must
      accept that many parameters (the exception is re-raised); parameters
      with a NaN or an infinity are replaced by ones, as many as
      `_get_numb_params` finds. */
  function CheckStartParams(expand: bool, f: FitFunction, args: seq<real>, candidate: seq<Ext>): (r: Result<seq<real>>)
    ensures !f.accepts(|candidate|) ==> r.Err?
    ensures f.accepts(|candidate|) && AllFinite(candidate) ==> r == Ok(Values(candidate))
    ensures r.Ok? && !AllFinite(candidate) ==>
      NumbParams(expand, f, args) == Ok(|r.value|) && r.value == Constant(|r.value|, 1.0)
  {
    if !f.accepts(|candidate|) then
      var n :- NumbParams(expand, f, args);
      if n < 0 then Err(Fatal("negative dimensions are not allowed"))
      else Err(Fatal("Function cannot handle start_parameters"))
    else if AllFinite(candidate) then Ok(Values(candidate))
    else
      var n :- NumbParams(expand, f, args);
      if n < 0 then Err(Fatal("negative dimensions are not allowed"))
      else Ok(Constant(n, 1.0))
  }

  /** The `(_numb_params, _saved_params)` that `check_start_params` leaves
      behind, on success and also when it re-raises the function's
      exception: in both reset branches the count is derived again and the
      parameters become ones.  `None` when the reset itself raises
      (`_get_numb_params` fails, or `np.ones` gets a negative count).  On the
      untouched path the count is the one held before the call. */
  function StartParamsLeft(expand: bool, f: FitFunction, args: seq<real>, numbParams: nat, candidate: seq<Ext>): (r: Option<(nat, seq<real>)>)
    ensures f.accepts(|candidate|) && AllFinite(candidate) ==> r == Some((numbParams, Values(candidate)))
    ensures !(f.accepts(|candidate|) && AllFinite(candidate)) ==>
      (r.Some? <==> NumbParams(expand, f, args).Ok? && NumbParams(expand, f, args).value >= 0)
    ensures !(f.accepts(|candidate|) && AllFinite(candidate)) && r.Some? ==>
      r.value.0 == NumbParams(expand, f, args).value && r.value.1 == Constant(r.value.0, 1.0)
    ensures CheckStartParams(expand, f, args, candidate).Ok? ==>
      r.Some? && r.value.1 == CheckStartParams(expand, f, args, candidate).value
  {
    if f.accepts(|candidate|) && AllFinite(candidate) then Some((numbParams, Values(candidate)))
    else
      match NumbParams(expand, f, args)
      case Err(_) => None
      case Ok(n) => if n < 0 then None else Some((n, Constant(n, 1.0)))
  }

  /** When the function rejects the candidate, the exception reaches the
      caller, but the `Fitter` is left with fresh ones of the derived
      length. */
  lemma RejectedStartParamsAreReset(expand: bool, f: FitFunction, args: seq<real>, numbParams: nat, candidate: seq<Ext>)
    requires !f.accepts(|candidate|)
    requires NumbParams(expand, f, args).Ok? && NumbParams(expand, f, args).value >= 0
    ensures CheckStartParams(expand, f, args, candidate) == Err(Fatal("Function cannot handle start_parameters"))
    ensures var n := NumbParams(expand, f, args).value;
      StartParamsLeft(expand, f, args, numbParams, candidate) == Some((n, Constant(n, 1.0)))
  {
  }

  /** Checking the checked parameters again changes nothing, exactly when
      the function accepts their number; without `expand` it always does,
      since the reset length is the first accepted one. */
  lemma CheckStartParamsIdempotent(expand: bool, f: FitFunction, args: seq<real>, candidate: seq<Ext>)
    requires CheckStartParams(expand, f, args, candidate).Ok?
    ensures var p := CheckStartParams(expand, f, args, candidate).value;
      CheckStartParams(expand, f, args, Fins(p)) == Ok(p) <==> f.accepts(|p|)
    ensures !expand ==> f.accepts(|CheckStartParams(expand, f, args, candidate).value|)
  {
    var p := CheckStartParams(expand, f, args, candidate).value;
    if f.accepts(|p|) {
      assert |Fins(p)| == |p| && AllFinite(Fins(p));
      assert CheckStartParams(expand, f, args, Fins(p)) == Ok(Values(Fins(p)));
    }
  }

  predicate AllFinite(s: seq<Ext>)
  {
    forall i :: 0 <= i < |s| ==> s[i].Fin?
  }

  function Values(s: seq<Ext>): (r: seq<real>)
    requires AllFinite(s)
    ensures |r| == |s| && forall i :: 0 <= i < |s| ==> Fin(r[i]) == s[i]
  {
    seq(|s|, i requires 0 <= i < |s| => s[i].v)
  }

  function Fins(s: seq<real>): (r: seq<Ext>)
    ensures |r| == |s| && AllFinite(r) && Values(r) == s
  {
    var r := seq(|s|, i requires 0 <= i < |s| => Fin(s[i]));
    assert Values(r) == s;
    r
  }

  /** `Fitter(func, xdata, ydata, edata, **kwargs)` for `numbData` data
      points: reject unknown keywords, normalise `max_fev`, count the
      parameters, choose the derivative wrappers, test the start parameters
      (all ones) and build the covariance. */
  function NewFitter(f: FitFunction, numbData: nat, edata: EData, opts: Options): (r: Result<Fitter>)
    ensures !(opts.keys <= AllowedKeys) ==> r == Err(Fatal("Illegal argument(s) to fitter"))
    ensures opts.keys <= AllowedKeys && NumbParams(opts.expand, f, opts.args).Err? ==>
      r == Err(NumbParams(opts.expand, f, opts.args).error)
    ensures r.Ok? <==>
      && opts.keys <= AllowedKeys
      && NumbParams(opts.expand, f, opts.args).Ok?
      && NumbParams(opts.expand, f, opts.args).value >= 0
      && f.accepts(NumbParams(opts.expand, f, opts.args).value)
    ensures r.Ok? ==>
      var fit := r.value;
      && fit.numbData == numbData
      && fit.numbParams == NumbParams(opts.expand, f, opts.args).value
      && fit.savedParams == Constant(fit.numbParams, 1.0)
      && fit.savedPcov == Infinite(fit.numbParams)
      && fit.maxFev == NormalizeMaxFev(opts.maxFev)
      && (fit.grad, fit.hess, fit.deriveChisq) == ChooseWrappers(opts.gradGiven, opts.hessGiven, opts.useDiff, opts.deriveChisq)
      && fit.expand == opts.expand && fit.useDiff == opts.useDiff
      && fit.normErrChi2 == opts.normErrChi2 && fit.errorStrat == opts.errorStrat
      && fit.args == opts.args
      && fit.gradArgs == opts.args && fit.hessArgs == opts.args
      && (fit.cov, fit.covAvail) == BuildCovariance(edata, numbData)
      && fit.priorval == Constant(fit.numbParams, 1.0) && fit.priorsigma == Constant(fit.numbParams, 1.0)
      && !fit.checkPrior
  {
    if !(opts.keys <= AllowedKeys) then Err(Fatal("Illegal argument(s) to fitter"))
    else
      var n :- NumbParams(opts.expand, f, opts.args);
      if n < 0 then Err(Fatal("negative dimensions are not allowed"))
      else
        var (g, h, derive) := ChooseWrappers(opts.gradGiven, opts.hessGiven, opts.useDiff, opts.deriveChisq);
        var (ga, ha) := ConstructorArgsAsWritten(opts);
        if !f.accepts(n) then Err(Fatal("Function cannot handle start_parameters"))
        else
          var (cov, avail) := BuildCovariance(edata, numbData);
          Ok(Fitter(numbData, n, opts.expand, opts.useDiff, derive, opts.normErrChi2, opts.errorStrat,
                    opts.args, ga, ha, NormalizeMaxFev(opts.maxFev), g, h, cov, avail,
                    Constant(n, 1.0), Infinite(n), Constant(n, 1.0), Constant(n, 1.0), false))
  }

  /** The constructor as documented: everything as in `NewFitter`, except
      that `grad_args` and `hess_args` are kept when given. */
  function NewFitterCorrected(f: FitFunction, numbData: nat, edata: EData, opts: Options): (r: Result<Fitter>)
    ensures r.Ok? <==> NewFitter(f, numbData, edata, opts).Ok?
    ensures r.Err? ==> r == NewFitter(f, numbData, edata, opts)
    ensures r.Ok? ==> r.value.gradArgs == (if opts.gradArgs.Some? then opts.gradArgs.value else opts.args)
    ensures r.Ok? ==> r.value.hessArgs == (if opts.hessArgs.Some? then opts.hessArgs.value else opts.args)
    ensures r.Ok? ==> r.value.(gradArgs := opts.args, hessArgs := opts.args) == NewFitter(f, numbData, edata, opts).value
  {
    var fit :- NewFitter(f, numbData, edata, opts);
    var (ga, ha) := DerivativeArgs(opts);
    Ok(fit.(gradArgs := ga, hessArgs := ha))
  }

  /** The constructor as written and as documented build the same `Fitter`
      exactly when construction fails or no derivative argument differs
      from `args`. */
  lemma NewFitterAgreement(f: FitFunction, numbData: nat, edata: EData, opts: Options)
    ensures NewFitterCorrected(f, numbData, edata, opts) == NewFitter(f, numbData, edata, opts) <==>
      || NewFitter(f, numbData, edata, opts).Err?
      || ((opts.gradArgs.None? || opts.gradArgs.value == opts.args) &&
          (opts.hessArgs.None? || opts.hessArgs.value == opts.args))
  {
    var r := NewFitter(f, numbData, edata, opts);
    var c := NewFitterCorrected(f, numbData, edata, opts);
    if r.Ok? && c == r {
      assert c.value.gradArgs == r.value.gradArgs && c.value.hessArgs == r.value.hessArgs;
    }
  }

  // ---------------------------------------------------------------------
  // Degrees of freedom and the parameter covariance
  // ---------------------------------------------------------------------

  /** `getDOF`: with priors every datum counts, otherwise each parameter
      uses one up; fewer data than parameters is fatal. */
  function GetDof(checkPrior: bool, numbData: nat, numbParams: nat): (r: Result<int>)
    ensures checkPrior ==> r == Ok(numbData)
    ensures !checkPrior && numbParams <= numbData ==> r == Ok(numbData - numbParams)
    ensures !checkPrior && numbParams > numbData ==> r == Err(Fatal("Fewer data than fit parameters!"))
    ensures r.Ok? ==> r.value >= 0
  {
    var dof := if checkPrior then numbData else numbData - numbParams;
    if dof < 0 then Err(Fatal("Fewer data than fit parameters!")) else Ok(dof)
  }

  /** Every entry of `m` times `k`. */
  function Scale(m: seq<seq<real>>, k: real): (r: seq<seq<real>>)
    ensures |r| == |m| && forall i :: 0 <= i < |m| ==> |r[i]| == |m[i]|
    ensures forall i, j :: 0 <= i < |m| && 0 <= j < |m[i]| ==> r[i][j] == m[i][j] * k
  {
    seq(|m|, i requires 0 <= i < |m| => seq(|m[i]|, j requires 0 <= j < |m[i]| => m[i][j] * k))
  }

  /** `compute_err(params, chi2, algorithm)`: the parameter covariance.  With
      no degrees of freedom it is all NaN (and the error strategy is not even
      looked at); otherwise it comes from the chosen strategy, optionally
      scaled by chi^2/dof. */
  function ComputeErr(fit: Fitter, params: seq<real>, chi2: real, algorithm: string, num: Numerics): (r: Result<Caught<PCov>>)
    ensures GetDof(fit.checkPrior, fit.numbData, |params|).Err? ==> r == Err(GetDof(fit.checkPrior, fit.numbData, |params|).error)
    ensures GetDof(fit.checkPrior, fit.numbData, |params|) == Ok(0) ==> r == Ok(Done(NotANumber(|params|)))
    ensures r.Err? <==>
      || GetDof(fit.checkPrior, fit.numbData, |params|).Err?
      || (GetDof(fit.checkPrior, fit.numbData, |params|).value > 0 && fit.errorStrat != "propagation" && fit.errorStrat != "hessian")
    ensures r.Ok? && r.value.Done? && r.value.value.Estimated? ==>
      var dof := GetDof(fit.checkPrior, fit.numbData, |params|).value;
      && dof > 0
      && num.pcov(fit.errorStrat, algorithm, params).Ok?
      && r.value.value.m == (if fit.normErrChi2 then Scale(num.pcov(fit.errorStrat, algorithm, params).value, chi2 / dof as real)
                             else num.pcov(fit.errorStrat, algorithm, params).value)
    ensures r.Ok? && r.value.Raised? ==> num.pcov(fit.errorStrat, algorithm, params).Err?
  {
    var dof :- GetDof(fit.checkPrior, fit.numbData, |params|);
    if dof <= 0 then Ok(Done(NotANumber(|params|)))
    else if fit.errorStrat != "propagation" && fit.errorStrat != "hessian" then
      Err(Fatal("Unknown fitting algorithm"))
    else
      match num.pcov(fit.errorStrat, algorithm, params)
      case Err(_) => Ok(Raised(algorithm + ": error computation failed"))
      case Ok(m) => Ok(Done(Estimated(if fit.normErrChi2 then Scale(m, chi2 / dof as real) else m)))
  }

  // ---------------------------------------------------------------------
  // One algorithm
  // ---------------------------------------------------------------------

  /** `minimize_chi2(self._saved_params, algorithm)`: `curve_fit` refuses
      priors (fatally); the budget lookup raises for an algorithm without a
      budget; a minimiser result with NaN or infinity raises. */
  function MinimizeChi2(fit: Fitter, algorithm: string, num: Numerics): (r: Result<Caught<(seq<real>, real)>>)
    ensures r.Err? <==> algorithm == "curve_fit" && fit.checkPrior
    ensures r.Err? ==> r.error == Fatal("The curve_fit algorithm is not yet able to handle priors.")
    ensures r.Ok? && r.value.Done? ==>
      && fit.maxFev.Table? && algorithm in fit.maxFev.table
      && var out := num.minimize(algorithm, fit.savedParams, fit.maxFev.table[algorithm]);
      && out.Ok? && AllFinite(out.value)
      && r.value.value == (Values(out.value), num.chi2(Values(out.value)))
    ensures r.Ok? && (fit.maxFev.Unsubscriptable? || algorithm !in fit.maxFev.table) ==> r.value.Raised?
  {
    if algorithm == "curve_fit" && fit.checkPrior then
      Err(Fatal("The curve_fit algorithm is not yet able to handle priors."))
    else
      match fit.maxFev
      case Unsubscriptable => Ok(Raised("TypeError"))
      case Table(t) =>
        if algorithm !in t then Ok(Raised("KeyError: " + algorithm))
        else
          match num.minimize(algorithm, fit.savedParams, t[algorithm])
          case Err(_) => Ok(Raised(algorithm + ": minimiser raised"))
          case Ok(ps) =>
            if AllFinite(ps) then Ok(Done((Values(ps), num.chi2(Values(ps)))))
            else Ok(Raised(algorithm + ": Fit result is inf or nan!"))
  }

  /** `_tryAlgorithm`: fatal errors end the call, other exceptions fail
      only this attempt. */
  function TryAlgorithm(fit: Fitter, algorithm: string, num: Numerics): (r: Result<Attempt>)
    ensures MinimizeChi2(fit, algorithm, num).Err? ==> r.Err?
    ensures MinimizeChi2(fit, algorithm, num).Ok? && MinimizeChi2(fit, algorithm, num).value.Raised? ==> r.Ok? && r.value.Failure?
    ensures r.Ok? && r.value.Success? ==>
      && MinimizeChi2(fit, algorithm, num) == Ok(Done((r.value.params, r.value.chi2)))
      && ComputeErr(fit, r.value.params, r.value.chi2, algorithm, num) == Ok(Done(r.value.pcov))
      && GetDof(fit.checkPrior, fit.numbData, |r.value.params|).Ok?
  {
    var m :- MinimizeChi2(fit, algorithm, num);
    match m
    case Raised(e) => Ok(Failure(e))
    case Done((params, chi2)) =>
      var e :- ComputeErr(fit, params, chi2, algorithm, num);
      match e
      case Raised(x) => Ok(Failure(x))
      case Done(pcov) => Ok(Success(params, chi2, pcov))
  }

  /** What an attempt needs to succeed, read off the numerics directly: no
      `curve_fit` with priors, a budget for the algorithm, a finite
      minimiser result, enough data, and, with degrees of freedom left, a
      known error strategy whose covariance computation does not raise. */
  predicate AttemptSucceeds(fit: Fitter, algorithm: string, num: Numerics)
  {
    && !(algorithm == "curve_fit" && fit.checkPrior)
    && fit.maxFev.Table? && algorithm in fit.maxFev.table
    && var out := num.minimize(algorithm, fit.savedParams, fit.maxFev.table[algorithm]);
    && out.Ok? && AllFinite(out.value)
    && var dof := GetDof(fit.checkPrior, fit.numbData, |out.value|);
    && dof.Ok?
    && (dof.value == 0 ||
        ((fit.errorStrat == "propagation" || fit.errorStrat == "hessian") &&
         num.pcov(fit.errorStrat, algorithm, Values(out.value)).Ok?))
  }

  /** An attempt succeeds exactly when `AttemptSucceeds` holds, and then
      reports the minimiser's parameters and their chi-square. */
  lemma TryAlgorithmSucceedsIff(fit: Fitter, algorithm: string, num: Numerics)
    ensures (TryAlgorithm(fit, algorithm, num).Ok? && TryAlgorithm(fit, algorithm, num).value.Success?) <==>
      AttemptSucceeds(fit, algorithm, num)
    ensures AttemptSucceeds(fit, algorithm, num) ==>
      var ps := Values(num.minimize(algorithm, fit.savedParams, fit.maxFev.table[algorithm]).value);
      && TryAlgorithm(fit, algorithm, num).value.params == ps
      && TryAlgorithm(fit, algorithm, num).value.chi2 == num.chi2(ps)
  {
    if AttemptSucceeds(fit, algorithm, num) {
      var out := num.minimize(algorithm, fit.savedParams, fit.maxFev.table[algorithm]).value;
      var ps := Values(out);
      assert MinimizeChi2(fit, algorithm, num) == Ok(Done((ps, num.chi2(ps))));
      assert |ps| == |out|;
      assert ComputeErr(fit, ps, num.chi2(ps), algorithm, num).Ok?;
    }
  }

  /** The covariance of a successful attempt is all NaN exactly when no
      degree of freedom is left, and computed exactly when some are. */
  lemma SuccessPcovMatchesDof(fit: Fitter, algorithm: string, num: Numerics)
    requires TryAlgorithm(fit, algorithm, num).Ok? && TryAlgorithm(fit, algorithm, num).value.Success?
    ensures var a := TryAlgorithm(fit, algorithm, num).value;
      var dof := GetDof(fit.checkPrior, fit.numbData, |a.params|);
      && dof.Ok?
      && (a.pcov.NotANumber? <==> dof.value == 0)
      && (a.pcov.Estimated? <==> dof.value > 0)
      && (a.pcov.NotANumber? ==> a.pcov.size == |a.params|)
  {
  }

  /** With the budgets of an int or absent `max_fev` and an algorithm from
      `'all'`, the budget lookup never raises: an attempt fails only when
      the minimiser raises or returns a non-finite point. */
  lemma MinimizeChi2WithDefaultBudgets(fit: Fitter, opt: MaxFevOption, algorithm: string, num: Numerics)
    requires opt.FevNone? || opt.FevInt?
    requires fit.maxFev == NormalizeMaxFev(opt) && algorithm in AllAlgs
    requires !(algorithm == "curve_fit" && fit.checkPrior)
    ensures NormalizeMaxFev(opt).Table? && algorithm in NormalizeMaxFev(opt).table
    ensures var out := num.minimize(algorithm, fit.savedParams, fit.maxFev.table[algorithm]);
      && MinimizeChi2(fit, algorithm, num).Ok?
      && (MinimizeChi2(fit, algorithm, num).value.Raised? <==> out.Err? || !AllFinite(out.value))
  {
    ResolvedAlgsHaveBudgets(opt, All);
  }

  /** The attempts for each algorithm in turn; the first fatal error ends
      the run. */
  function RunAttempts(fit: Fitter, algs: seq<string>, num: Numerics): (r: Result<seq<Attempt>>)
    ensures r.Ok? <==> forall i :: 0 <= i < |algs| ==> TryAlgorithm(fit, algs[i], num).Ok?
    ensures r.Ok? ==> |r.value| == |algs|
    ensures r.Ok? ==> forall i :: 0 <= i < |algs| ==> TryAlgorithm(fit, algs[i], num) == Ok(r.value[i])
  {
    if |algs| == 0 then Ok([])
    else
      var a :- TryAlgorithm(fit, algs[0], num);
      var rest :- RunAttempts(fit, algs[1..], num);
      assert forall i :: 1 <= i < |algs| ==> algs[i] == algs[1..][i - 1];
      Ok([a] + rest)
  }

  // ---------------------------------------------------------------------
  // Choosing the best attempt
  // ---------------------------------------------------------------------

  /** The chi-square `_tryAlgorithm` reports: infinity for a failure. */
  function Chi2Of(a: Attempt): Ext
  {
    if a.Success? then Fin(a.chi2) else Inf
  }

  /** `a < b` among finite values and infinity. */
  predicate Below(a: Ext, b: Ext)
  {
    a.Fin? && (b.Inf? || (b.Fin? && a.v < b.v))
  }

  /** `np.argmin` of the chi-squares of the first `n` attempts: the first
      index whose chi-square nothing undercuts. */
  function ArgMin(attempts: seq<Attempt>, n: nat): (r: nat)
    requires 1 <= n <= |attempts|
    ensures r < n
    ensures forall j :: 0 <= j < n ==> !Below(Chi2Of(attempts[j]), Chi2Of(attempts[r]))
    ensures forall j :: 0 <= j < r ==> Below(Chi2Of(attempts[r]), Chi2Of(attempts[j]))
  {
    if n == 1 then 0
    else
      var k := ArgMin(attempts, n - 1);
      if Below(Chi2Of(attempts[n - 1]), Chi2Of(attempts[k])) then n - 1 else k
  }

  predicate AllFailed(attempts: seq<Attempt>)
  {
    forall i :: 0 <= i < |attempts| ==> attempts[i].Failure?
  }

  /** When some attempt succeeded, the first minimum is a success with the
      smallest chi-square, strictly smaller than that of every earlier
      success. */
  lemma ArgMinPicksBestSuccess(attempts: seq<Attempt>)
    requires |attempts| > 0 && !AllFailed(attempts)
    ensures var k := ArgMin(attempts, |attempts|);
      && attempts[k].Success?
      && (forall j :: 0 <= j < |attempts| && attempts[j].Success? ==> attempts[k].chi2 <= attempts[j].chi2)
      && (forall j :: 0 <= j < k && attempts[j].Success? ==> attempts[k].chi2 < attempts[j].chi2)
  {
    var k := ArgMin(attempts, |attempts|);
    var s :| 0 <= s < |attempts| && attempts[s].Success?;
    assert !Below(Chi2Of(attempts[s]), Chi2Of(attempts[k]));
  }

  // ---------------------------------------------------------------------
  // try_fit and do_fit
  // ---------------------------------------------------------------------

  /** The algorithm list `try_fit` runs. */
  function ResolveAlgs(choice: AlgChoice): (r: seq<string>)
    ensures choice.Standard? ==> r == StdAlgs
    ensures choice.All? ==> r == AllAlgs
    ensures choice.Given? ==> r == choice.algs
  {
    match choice
    case Standard => StdAlgs
    case All => AllAlgs
    case Given(algs) => algs
  }

  /** With `max_fev` left out or given as an int, every algorithm that
      `None` or `'all'` resolves to has a budget, so no attempt of those
      fails on the budget lookup. */
  lemma ResolvedAlgsHaveBudgets(opt: MaxFevOption, choice: AlgChoice)
    requires opt.FevNone? || opt.FevInt?
    requires choice.Standard? || choice.All?
    ensures NormalizeMaxFev(opt).Table?
    ensures forall a :: a in ResolveAlgs(choice) ==> a in NormalizeMaxFev(opt).table
  {
    DefaultMaxFevCoversAllAlgs();
    StdAlgsAreAlgs();
  }

  /** The prior handling of `try_fit`: sigma without mean, mean without
      sigma, or either of the wrong length is fatal. */
  function SetPriors(fit: Fitter, priorval: Option<seq<real>>, priorsigma: Option<seq<real>>): (r: Result<Fitter>)
    ensures priorsigma.Some? && priorval.None? ==> r == Err(Fatal("priorsigma passed but priorval is None"))
    ensures priorsigma.None? && priorval.Some? ==> r == Err(Fatal("priorval passed but priorsigma is None"))
    ensures r.Ok? <==>
      && (priorsigma.Some? <==> priorval.Some?)
      && (priorsigma.Some? ==> |priorsigma.value| == fit.numbParams && |priorval.value| == fit.numbParams)
    ensures r.Ok? && priorsigma.Some? ==>
      r.value == fit.(priorval := priorval.value, priorsigma := priorsigma.value, checkPrior := true)
    ensures r.Ok? && priorsigma.None? ==>
      r.value == fit.(priorval := Constant(fit.numbParams, 0.0), priorsigma := Constant(fit.numbParams, 1.0), checkPrior := false)
  {
    if priorsigma.Some? then
      if priorval.None? then Err(Fatal("priorsigma passed but priorval is None"))
      else if |priorsigma.value| != fit.numbParams then Err(Fatal("Number priorsigma != number of fit parameters"))
      else if |priorval.value| != fit.numbParams then Err(Fatal("Number priorval != number of fit parameters"))
      else Ok(fit.(priorval := priorval.value, priorsigma := priorsigma.value, checkPrior := true))
    else if priorval.Some? then Err(Fatal("priorval passed but priorsigma is None"))
    else Ok(fit.(priorval := Constant(fit.numbParams, 0.0), priorsigma := Constant(fit.numbParams, 1.0), checkPrior := false))
  }

  /** The start parameters `try_fit` uses: the given ones, else the prior
      means, else the saved ones. */
  function StartCandidate(fit: Fitter, start: Option<seq<Ext>>, priorval: Option<seq<real>>): (r: seq<Ext>)
    ensures start.Some? ==> r == start.value
    ensures start.None? && priorval.Some? ==> AllFinite(r) && Values(r) == priorval.value
    ensures start.None? && priorval.None? ==> AllFinite(r) && Values(r) == fit.savedParams
  {
    if start.Some? then start.value
    else if priorval.Some? then Fins(priorval.value)
    else Fins(fit.savedParams)
  }

  /** Everything `try_fit` does before running the algorithms. */
  function Prepare(fit: Fitter, f: FitFunction, start: Option<seq<Ext>>,
                   priorval: Option<seq<real>>, priorsigma: Option<seq<real>>): (r: Result<Fitter>)
    ensures start.None? && priorval.Some? && f.accepts(|priorval.value|) ==>
      CheckStartParams(fit.expand, f, fit.args, StartCandidate(fit, start, priorval)) == Ok(priorval.value)
    ensures r.Ok? ==>
      var params := CheckStartParams(fit.expand, f, fit.args, StartCandidate(fit, start, priorval));
      && params.Ok?
      && r.value.savedParams == params.value
      && r.value.numbParams == |params.value|
      && r.value.checkPrior == priorsigma.Some?
    ensures CheckStartParams(fit.expand, f, fit.args, StartCandidate(fit, start, priorval)).Ok? ==>
      var params := CheckStartParams(fit.expand, f, fit.args, StartCandidate(fit, start, priorval)).value;
      r == SetPriors(fit.(savedParams := params, numbParams := |params|), priorval, priorsigma)
  {
    var params :- CheckStartParams(fit.expand, f, fit.args, StartCandidate(fit, start, priorval));
    SetPriors(fit.(savedParams := params, numbParams := |params|), priorval, priorsigma)
  }

  /** chi^2/dof, infinite without degrees of freedom. */
  function ChiPerDof(chi2: real, dof: int): (r: Ext)
    ensures dof <= 0 <==> r == Inf
    ensures dof > 0 ==> r.Fin? && r.v * dof as real == chi2
  {
    if dof <= 0 then Inf else Fin(chi2 / dof as real)
  }

  /** The end of `try_fit`: fail if every attempt failed, otherwise keep the
      first attempt with the smallest chi-square, save its parameters and
      covariance, and report chi^2/dof. */
  function Select(p: Fitter, attempts: seq<Attempt>): (r: Result<(Fitter, FitReport)>)
    ensures AllFailed(attempts) ==> r == Err(Fatal(NoConvergence))
    ensures r.Err? && !AllFailed(attempts) ==> r.error == Fatal("Fewer data than fit parameters!")
    ensures r.Ok? ==>
      var k := r.value.1.choice;
      && k < |attempts|
      && var best := attempts[k];
      && best.Success?
      && (forall j :: 0 <= j < |attempts| && attempts[j].Success? ==> best.chi2 <= attempts[j].chi2)
      && (forall j :: 0 <= j < k && attempts[j].Success? ==> best.chi2 < attempts[j].chi2)
      && r.value.0 == p.(savedParams := best.params, savedPcov := best.pcov)
      && r.value.1.params == best.params
      && r.value.1.pcov == best.pcov
      && GetDof(p.checkPrior, p.numbData, |best.params|).Ok?
      && r.value.1.chidof == ChiPerDof(best.chi2, GetDof(p.checkPrior, p.numbData, |best.params|).value)
  {
    if AllFailed(attempts) then Err(Fatal(NoConvergence))
    else
      var k := ArgMin(attempts, |attempts|);
      ArgMinPicksBestSuccess(attempts);
      var best := attempts[k];
      var dof :- GetDof(p.checkPrior, p.numbData, |best.params|);
      Ok((p.(savedParams := best.params, savedPcov := best.pcov), FitReport(best.params, best.pcov, ChiPerDof(best.chi2, dof), k)))
  }

  /** After a run with no fatal attempt, `Select` never hits the
      degrees-of-freedom error: every success already passed `getDOF`, so
      selection fails only when every attempt failed. */
  lemma SelectAfterRunNeedsNoDofCheck(p: Fitter, algs: seq<string>, num: Numerics)
    requires RunAttempts(p, algs, num).Ok?
    ensures var runs := RunAttempts(p, algs, num).value;
      Select(p, runs).Err? <==> AllFailed(runs)
  {
    var runs := RunAttempts(p, algs, num).value;
    if !AllFailed(runs) {
      var k := ArgMin(runs, |runs|);
      ArgMinPicksBestSuccess(runs);
      assert TryAlgorithm(p, algs[k], num) == Ok(runs[k]);
    }
  }

  /** `try_fit(algorithms, start_params, priorval, priorsigma)`: prepare,
      run every algorithm, and select among the attempts. */
  function TryFit(fit: Fitter, f: FitFunction, choice: AlgChoice, start: Option<seq<Ext>>,
                  priorval: Option<seq<real>>, priorsigma: Option<seq<real>>, num: Numerics): (r: Result<(Fitter, FitReport)>)
    ensures Prepare(fit, f, start, priorval, priorsigma).Err? ==> r == Err(Prepare(fit, f, start, priorval, priorsigma).error)
    ensures Prepare(fit, f, start, priorval, priorsigma).Ok? ==>
      var p := Prepare(fit, f, start, priorval, priorsigma).value;
      var runs := RunAttempts(p, ResolveAlgs(choice), num);
      && (runs.Err? ==> r == Err(runs.error))
      && (runs.Ok? ==> r == Select(p, runs.value))
  {
    var p :- Prepare(fit, f, start, priorval, priorsigma);
    var attempts :- RunAttempts(p, ResolveAlgs(choice), num);
    Select(p, attempts)
  }

  /** Once preparation succeeds and no attempt is fatal, the fit fails
      exactly when every algorithm failed; otherwise it reports the first
      attempt with the smallest chi-square. */
  lemma TryFitOutcome(fit: Fitter, f: FitFunction, choice: AlgChoice, start: Option<seq<Ext>>,
                      priorval: Option<seq<real>>, priorsigma: Option<seq<real>>, num: Numerics)
    requires Prepare(fit, f, start, priorval, priorsigma).Ok?
    requires RunAttempts(Prepare(fit, f, start, priorval, priorsigma).value, ResolveAlgs(choice), num).Ok?
    ensures var runs := RunAttempts(Prepare(fit, f, start, priorval, priorsigma).value, ResolveAlgs(choice), num).value;
      var r := TryFit(fit, f, choice, start, priorval, priorsigma, num);
      && (r.Err? <==> AllFailed(runs))
      && (r.Ok? ==> r.value.1.choice < |runs| && runs[r.value.1.choice].Success?)
  {
    var p := Prepare(fit, f, start, priorval, priorsigma).value;
    var runs := RunAttempts(p, ResolveAlgs(choice), num).value;
    if !AllFailed(runs) {
      var k := ArgMin(runs, |runs|);
      ArgMinPicksBestSuccess(runs);
      assert TryAlgorithm(p, ResolveAlgs(choice)[k], num) == Ok(runs[k]);
    }
  }

  /** `do_fit(algorithm)`: `try_fit` with that one algorithm. */
  function DoFit(fit: Fitter, f: FitFunction, algorithm: string, start: Option<seq<Ext>>,
                 priorval: Option<seq<real>>, priorsigma: Option<seq<real>>, num: Numerics): (r: Result<(Fitter, FitReport)>)
    ensures Prepare(fit, f, start, priorval, priorsigma).Err? ==> r == Err(Prepare(fit, f, start, priorval, priorsigma).error)
    ensures r.Ok? ==> r.value.1.choice == 0
    ensures r.Ok? ==>
      && Prepare(fit, f, start, priorval, priorsigma).Ok?
      && var a := TryAlgorithm(Prepare(fit, f, start, priorval, priorsigma).value, algorithm, num);
      && a.Ok? && a.value.Success?
      && r.value.1.params == a.value.params && r.value.1.pcov == a.value.pcov
  {
    TryFit(fit, f, Given([algorithm]), start, priorval, priorsigma, num)
  }

  /** With one algorithm the fit succeeds exactly when that attempt does,
      and reports it. */
  lemma DoFitIsTheSingleAttempt(fit: Fitter, f: FitFunction, algorithm: string, start: Option<seq<Ext>>,
                                priorval: Option<seq<real>>, priorsigma: Option<seq<real>>, num: Numerics)
    requires Prepare(fit, f, start, priorval, priorsigma).Ok?
    ensures var p := Prepare(fit, f, start, priorval, priorsigma).value;
      var r := DoFit(fit, f, algorithm, start, priorval, priorsigma, num);
      && (r.Ok? <==> TryAlgorithm(p, algorithm, num).Ok? && TryAlgorithm(p, algorithm, num).value.Success?)
      && (r.Ok? ==> r.value.1.choice == 0 && r.value.1.params == TryAlgorithm(p, algorithm, num).value.params)
  {
    var p := Prepare(fit, f, start, priorval, priorsigma).value;
    var runs := RunAttempts(p, [algorithm], num);
    if runs.Ok? {
      assert runs.value == [TryAlgorithm(p, algorithm, num).value];
    }
  }

  /** A prior sigma without a prior mean is always fatal. */
  lemma PriorSigmaWithoutMeanIsFatal(fit: Fitter, f: FitFunction, choice: AlgChoice, start: Option<seq<Ext>>,
                                     sigma: seq<real>, num: Numerics)
    ensures TryFit(fit, f, choice, start, None, Some(sigma), num).Err?
  {
  }

  /** Priors whose length differs from the number of start parameters are
      always fatal. */
  lemma PriorLengthMismatchIsFatal(fit: Fitter, f: FitFunction, choice: AlgChoice, start: Option<seq<Ext>>,
                                   mean: seq<real>, sigma: seq<real>, num: Numerics)
    requires |mean| != |sigma|
    ensures TryFit(fit, f, choice, start, Some(mean), Some(sigma), num).Err?
  {
  }

  /** With priors the parameter count never makes the degrees of freedom
      negative; whenever they are defined they are the data count less the
      parameters, or the data count alone with priors. */
  lemma DofFacts(checkPrior: bool, numbData: nat, numbParams: nat)
    ensures checkPrior ==> GetDof(checkPrior, numbData, numbParams).Ok?
    ensures GetDof(checkPrior, numbData, numbParams).Ok? ==>
      GetDof(checkPrior, numbData, numbParams).value == numbData - (if checkPrior then 0 else numbParams)
  {
  }

  /** An empty list of algorithms is fatal: `np.all` of nothing is true. */
  lemma NoAlgorithmsIsFatal(fit: Fitter, f: FitFunction, start: Option<seq<Ext>>,
                            priorval: Option<seq<real>>, priorsigma: Option<seq<real>>, num: Numerics)
    ensures TryFit(fit, f, Given([]), start, priorval, priorsigma, num).Err?
  {
  }
}
