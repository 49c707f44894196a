/** The older statistics module `latqcdtools/statistics.py`.  Its
    `jackknifeFrom`, `tauint`, `tauintj` and `norm_cov` are the same code as
    in the newer module and are modelled once, in `Autocorrelation` and
    `Estimators`; this module adds what differs: `calc_cov`,
    `rem_norm_corr`, the fixed-percentile `dev_by_dist` indices and the
    error formula and missing defaults of the older `getTauInt`. */
module LegacyStatistics {
  import opened Outcomes
  import opened Sums
  import opened Autocorrelation
  import opened Estimators

  // ---------------------------------------------------------------------
  // calc_cov
  // ---------------------------------------------------------------------

  /** Every measurement has the same number of components, so that
      `np.asarray` builds a two-dimensional array. */
  predicate Rectangular(data: seq<seq<real>>)
  {
    forall l :: 0 <= l < |data| ==> |data[l]| == |data[0]|
  }

  /** Entry `(j, k)` of `calc_cov`: the summed products of the deviations of
      components `j` and `k` from their means, times `1/(N-1)`. */
  function CovEntry(data: seq<seq<real>>, j: nat, k: nat): real
    requires |data| >= 2 && Rectangular(data) && j < |data[0]| && k < |data[0]|
  {
    var cj := Column(data, j);
    var ck := Column(data, k);
    (1.0 / (|data| as real - 1.0)) * Dot(Devs(cj, Mean(cj)), Devs(ck, Mean(ck)))
  }

  /** The diagonal of the covariance is the sample variance of the column. */
  lemma CovEntryDiagonal(data: seq<seq<real>>, j: nat)
    requires |data| >= 2 && Rectangular(data) && j < |data[0]|
    ensures CovEntry(data, j, j) == SampleVariance(Column(data, j))
  {
    var c := Column(data, j);
    var d := Devs(c, Mean(c));
    var q := SqDevs(c, Mean(c));
    DotSelf(d, q);
    var s := Dot(d, d);
    var n1 := |data| as real - 1.0;
    assert (1.0 / n1) * s == s / n1;
  }

  /** The covariance is symmetric entry by entry. */
  lemma CovEntrySymmetric(data: seq<seq<real>>, j: nat, k: nat)
    requires |data| >= 2 && Rectangular(data) && j < |data[0]| && k < |data[0]|
    ensures CovEntry(data, j, k) == CovEntry(data, k, j)
  {
    var cj := Column(data, j);
    var ck := Column(data, k);
    DotCommutes(Devs(cj, Mean(cj)), Devs(ck, Mean(ck)));
  }

  /** `calc_cov(data)` for `N` measurements of `d` components.  Ragged input
      is rejected by `np.asarray`.  An empty list has shape `(0,)`, so the
      shape handed to `np.zeros` is `np.hstack(((), 0))`, the float array
      `[0.]`, which `np.zeros` rejects with a `TypeError`.  A single
      measurement divides the integer 1 by 0. */
  function CalcCov(data: seq<seq<real>>): (r: Result<seq<seq<real>>>)
    ensures |data| == 0 ==> r == Err(Fatal("TypeError: a float array is not a shape"))
    ensures |data| > 0 && !Rectangular(data) ==> r == Err(ShapeMismatch)
    ensures |data| == 1 ==> r == Err(Fatal("division by zero"))
    ensures r.Ok? <==> |data| >= 2 && Rectangular(data)
    ensures r.Ok? ==>
      && |r.value| == |data[0]|
      && (forall j :: 0 <= j < |data[0]| ==> |r.value[j]| == |data[0]|)
      && Symmetric(r.value)
      && (forall j, k :: 0 <= j < |data[0]| && 0 <= k < |data[0]| ==> r.value[j][k] == CovEntry(data, j, k))
      && (forall j :: 0 <= j < |data[0]| ==> r.value[j][j] == SampleVariance(Column(data, j)))
  {
    if |data| == 0 then Err(Fatal("TypeError: a float array is not a shape"))
    else if !Rectangular(data) then Err(ShapeMismatch)
    else if |data| == 1 then Err(Fatal("division by zero"))
    else Ok(CovMatrix(data))
  }

  /** The matrix of all `CovEntry` values. */
  function CovMatrix(data: seq<seq<real>>): (r: seq<seq<real>>)
    requires |data| >= 2 && Rectangular(data)
    ensures |r| == |data[0]| && forall j :: 0 <= j < |r| ==> |r[j]| == |data[0]|
    ensures Symmetric(r)
    ensures forall j, k :: 0 <= j < |data[0]| && 0 <= k < |data[0]| ==> r[j][k] == CovEntry(data, j, k)
    ensures forall j :: 0 <= j < |data[0]| ==> r[j][j] == SampleVariance(Column(data, j))
  {
    var d := |data[0]|;
    var r := seq(d, j requires 0 <= j < d => seq(d, k requires 0 <= k < d => CovEntry(data, j, k)));
    assert Symmetric(r) by {
      forall j, k | 0 <= j < d && 0 <= k < d
        ensures r[j][k] == r[k][j]
      {
        CovEntrySymmetric(data, j, k);
      }
    }
    assert forall j :: 0 <= j < d ==> r[j][j] == SampleVariance(Column(data, j)) by {
      forall j | 0 <= j < d
        ensures r[j][j] == SampleVariance(Column(data, j))
      {
        CovEntryDiagonal(data, j);
      }
    }
    r
  }

  // ---------------------------------------------------------------------
  // rem_norm_corr
  // ---------------------------------------------------------------------

  /** Every entry `rem_norm_corr` reads exists: `corr[i][j]` for every row
      `i` and every column `j < len(corr[0])`, and `edata[i]`, `edata[j]`.
      With no columns the inner loop never runs and nothing is read. */
  predicate RemNormReadable(corr: seq<seq<real>>, e: seq<real>)
    requires |corr| > 0
  {
    |corr[0]| == 0 ||
    (|corr| <= |e| && |corr[0]| <= |e| && forall i :: 0 <= i < |corr| ==> |corr[0]| <= |corr[i]|)
  }

  /** `rem_norm_corr(corr, edata)`: the covariance `corr[i][j]*e[i]*e[j]`
      belonging to a correlation matrix and a vector of error bars. */
  function RemNormCorr(corr: seq<seq<real>>, e: seq<real>): (r: Result<seq<seq<real>>>)
    ensures |corr| == 0 ==> r == Err(IndexOutOfRange)
    ensures r.Err? ==> r.error == IndexOutOfRange
    ensures r.Ok? <==> |corr| > 0 && RemNormReadable(corr, e)
    ensures r.Ok? ==> |r.value| == |corr| && forall i :: 0 <= i < |corr| ==> |r.value[i]| == |corr[0]|
    ensures r.Ok? ==> forall i, j :: 0 <= i < |corr| && 0 <= j < |corr[0]| ==>
      r.value[i][j] == corr[i][j] * e[i] * e[j]
  {
    if |corr| == 0 || !RemNormReadable(corr, e) then Err(IndexOutOfRange)
    else
      var n := |corr[0]|;
      Ok(seq(|corr|, i requires 0 <= i < |corr| =>
        seq(n, j requires 0 <= j < n => corr[i][j] * e[i] * e[j])))
  }

  /** A square matrix of side `|m|`. */
  predicate Square(m: seq<seq<real>>)
  {
    forall i :: 0 <= i < |m| ==> |m[i]| == |m|
  }

  lemma RootPositive(root: real -> real, x: real)
    requires IsRootFunction(root) && x > 0.0
    ensures root(x) > 0.0
  {
    assert IsSqrt(root(x), x);
  }

  /** Dividing by `a*b` and multiplying back by `b` and `a` is the identity. */
  lemma UndoScale(c: real, a: real, b: real)
    requires a > 0.0 && b > 0.0
    ensures a * b > 0.0
    ensures (c / (a * b)) * b * a == c
  {
    var ab := a * b;
    assert ab > 0.0;
    DivTimes(c, ab);
    assert (c / ab) * b * a == (c / ab) * ab;
  }

  /** Scaling by `a` and `b` and dividing by `b*a` is the identity. */
  lemma ScaleUndone(c: real, a: real, b: real)
    requires a > 0.0 && b > 0.0
    ensures b * a > 0.0
    ensures c * a * b / (b * a) == c
  {
    var ba := b * a;
    assert ba > 0.0;
    assert c * a * b == c * ba;
    DivIs(c * ba, ba, c);
  }

  /** Every product of two diagonal entries is positive. */
  predicate DiagonalProductsPositive(m: seq<seq<real>>)
    requires Square(m)
  {
    forall i, j :: 0 <= i < |m| && 0 <= j < |m| ==> m[j][j] * m[i][i] > 0.0
  }

  lemma PositiveDiagonal(m: seq<seq<real>>)
    requires Square(m) && forall i :: 0 <= i < |m| ==> m[i][i] > 0.0
    ensures DiagonalProductsPositive(m)
  {
    forall i, j | 0 <= i < |m| && 0 <= j < |m|
      ensures m[j][j] * m[i][i] > 0.0
    {
      PositiveProduct(m[j][j], m[i][i]);
    }
  }

  /** A square matrix whose diagonal products are positive is normalised
      entry by entry, without error. */
  lemma NonSingularNormalises(cov: seq<seq<real>>, root: real -> real)
    requires IsRootFunction(root) && |cov| > 0 && Square(cov) && DiagonalProductsPositive(cov)
    ensures NormCovReadable(cov) && !NormCovSingular(cov)
    ensures NormCov(cov, root) == Ok(Correlations(cov, root))
  {
    assert NormCovReadable(cov);
  }

  /** Normalising a covariance with positive diagonal and scaling the result
      back with the square roots of that diagonal returns the covariance. */
  lemma RemNormCorrUndoesNormCov(cov: seq<seq<real>>, e: seq<real>, root: real -> real)
    requires IsRootFunction(root)
    requires |cov| > 0 && Square(cov)
    requires forall i :: 0 <= i < |cov| ==> cov[i][i] > 0.0
    requires |e| == |cov| && forall i :: 0 <= i < |cov| ==> e[i] == root(cov[i][i])
    ensures NormCov(cov, root).Ok?
    ensures RemNormCorr(NormCov(cov, root).value, e) == Ok(cov)
  {
    PositiveDiagonal(cov);
    NonSingularNormalises(cov, root);
    RescaledMatrix(cov, e, root);
  }

  lemma RescaledMatrix(cov: seq<seq<real>>, e: seq<real>, root: real -> real)
    requires IsRootFunction(root)
    requires |cov| > 0 && Square(cov)
    requires forall i :: 0 <= i < |cov| ==> cov[i][i] > 0.0
    requires DiagonalProductsPositive(cov)
    requires |e| == |cov| && forall i :: 0 <= i < |cov| ==> e[i] == root(cov[i][i])
    ensures RemNormCorr(Correlations(cov, root), e) == Ok(cov)
  {
    var n := |cov|;
    var corr := Correlations(cov, root);
    assert RemNormReadable(corr, e);
    var back := RemNormCorr(corr, e).value;
    forall i, j | 0 <= i < n && 0 <= j < n
      ensures back[i][j] == cov[i][j]
    {
      RescaledMatrixEntry(cov, corr, e, root, i, j);
    }
    assert forall i :: 0 <= i < n ==> back[i] == cov[i];
    assert back == cov;
  }

  /** Entry `(i, j)` of the rescaled correlation matrix is `cov[i][j]`. */
  lemma RescaledMatrixEntry(cov: seq<seq<real>>, corr: seq<seq<real>>, e: seq<real>, root: real -> real, i: nat, j: nat)
    requires IsRootFunction(root) && RemNormCorr(corr, e).Ok?
    requires i < |corr| && j < |corr[0]| && i < |cov| && j < |cov| && i < |cov[i]| && j < |cov[j]| && j < |cov[i]|
    requires cov[i][i] > 0.0 && cov[j][j] > 0.0 && cov[j][j] * cov[i][i] > 0.0
    requires e[i] == root(cov[i][i]) && e[j] == root(cov[j][j])
    requires corr[i][j] == Correlation(cov[i][j], cov[j][j], cov[i][i], root)
    ensures RemNormCorr(corr, e).value[i][j] == cov[i][j]
  {
    ScaledMatrixEntry(corr, e, i, j);
    RescaledEntry(root, cov[i][j], cov[j][j], cov[i][i], corr[i][j], e[i], e[j]);
  }

  /** Scaling a correlation matrix with unit diagonal by positive error bars
      and normalising the result returns the correlation matrix. */
  lemma NormCovUndoesRemNormCorr(corr: seq<seq<real>>, e: seq<real>, root: real -> real)
    requires IsRootFunction(root)
    requires |corr| > 0 && Square(corr)
    requires forall i :: 0 <= i < |corr| ==> corr[i][i] == 1.0
    requires |e| == |corr| && forall i :: 0 <= i < |corr| ==> e[i] > 0.0
    ensures RemNormCorr(corr, e).Ok?
    ensures NormCov(RemNormCorr(corr, e).value, root) == Ok(corr)
  {
    ScaledDiagonal(corr, e);
    var cov := RemNormCorr(corr, e).value;
    NonSingularNormalises(cov, root);
    NormalisedMatrix(corr, e, root);
  }

  /** The scaled matrix is square, and `e[i]` is the square root of its
      diagonal entry `i`. */
  lemma ScaledDiagonal(corr: seq<seq<real>>, e: seq<real>)
    requires |corr| > 0 && Square(corr)
    requires forall i :: 0 <= i < |corr| ==> corr[i][i] == 1.0
    requires |e| == |corr| && forall i :: 0 <= i < |corr| ==> e[i] > 0.0
    ensures RemNormCorr(corr, e).Ok?
    ensures Square(RemNormCorr(corr, e).value)
    ensures forall i :: 0 <= i < |corr| ==> IsSqrt(e[i], RemNormCorr(corr, e).value[i][i])
    ensures DiagonalProductsPositive(RemNormCorr(corr, e).value)
  {
    var n := |corr|;
    assert RemNormReadable(corr, e);
    var cov := RemNormCorr(corr, e).value;
    forall i | 0 <= i < n
      ensures IsSqrt(e[i], cov[i][i]) && cov[i][i] > 0.0
    {
      UnitScaledSquare(e[i], cov[i][i]);
    }
    forall i, j | 0 <= i < n && 0 <= j < n
      ensures cov[j][j] * cov[i][i] > 0.0
    {
      PositiveProduct(cov[j][j], cov[i][i]);
    }
  }

  /** `1*x*x` is positive and `x` is its square root. */
  lemma UnitScaledSquare(x: real, d: real)
    requires x > 0.0 && d == 1.0 * x * x
    ensures d > 0.0 && IsSqrt(x, d)
  {
    ProductPositive(x, x, d);
  }

  /** The normalised entries of the scaled matrix are the correlations. */
  lemma NormalisedMatrix(corr: seq<seq<real>>, e: seq<real>, root: real -> real)
    requires IsRootFunction(root)
    requires |corr| > 0 && Square(corr)
    requires |e| == |corr| && forall i :: 0 <= i < |corr| ==> e[i] > 0.0
    requires RemNormCorr(corr, e).Ok?
    requires Square(RemNormCorr(corr, e).value)
    requires forall i :: 0 <= i < |corr| ==> IsSqrt(e[i], RemNormCorr(corr, e).value[i][i])
    requires DiagonalProductsPositive(RemNormCorr(corr, e).value)
    ensures NormCovReadable(RemNormCorr(corr, e).value)
    ensures Correlations(RemNormCorr(corr, e).value, root) == corr
  {
    var n := |corr|;
    var cov := RemNormCorr(corr, e).value;
    assert NormCovReadable(cov);
    var back := Correlations(cov, root);
    forall i, j | 0 <= i < n && 0 <= j < n
      ensures back[i][j] == corr[i][j]
    {
      NormalisedMatrixEntry(corr, e, root, i, j);
    }
    assert forall i :: 0 <= i < n ==> back[i] == corr[i];
  }

  /** Entry `(i, j)` of the normalised scaled matrix is `corr[i][j]`. */
  lemma NormalisedMatrixEntry(corr: seq<seq<real>>, e: seq<real>, root: real -> real, i: nat, j: nat)
    requires IsRootFunction(root) && RemNormCorr(corr, e).Ok?
    requires i < |corr| && j < |corr| && |corr[0]| == |corr| && |e| == |corr|
    requires e[i] > 0.0 && e[j] > 0.0
    requires IsSqrt(e[i], RemNormCorr(corr, e).value[i][i])
    requires IsSqrt(e[j], RemNormCorr(corr, e).value[j][j])
    ensures RemNormCorr(corr, e).value[j][j] * RemNormCorr(corr, e).value[i][i] > 0.0
    ensures var cov := RemNormCorr(corr, e).value;
      Correlation(cov[i][j], cov[j][j], cov[i][i], root) == corr[i][j]
  {
    var cov := RemNormCorr(corr, e).value;
    ScaledMatrixEntry(corr, e, i, j);
    NormalisedEntry(root, corr[i][j], e[i], e[j], cov[i][j], cov[i][i], cov[j][j]);
  }

  /** Entry `(i, j)` of the scaled matrix, read off in a context free of
      other products. */
  lemma ScaledMatrixEntry(corr: seq<seq<real>>, e: seq<real>, i: nat, j: nat)
    requires RemNormCorr(corr, e).Ok? && i < |corr| && j < |corr[0]|
    ensures RemNormCorr(corr, e).value[i][j] == corr[i][j] * e[i] * e[j]
  {
  }

  /** One entry of the first round trip: the correlation of `c`, scaled by
      the square roots of the two diagonal entries, is `c` again. */
  lemma RescaledEntry(root: real -> real, c: real, dj: real, di: real, k: real, x: real, y: real)
    requires IsRootFunction(root) && dj > 0.0 && di > 0.0 && dj * di > 0.0
    requires k == Correlation(c, dj, di, root) && x == root(di) && y == root(dj)
    ensures k * x * y == c
  {
    RootPositive(root, dj);
    RootPositive(root, di);
    SqrtOfProduct(root, dj, di);
    UndoScale(c, root(dj), root(di));
  }

  /** One entry of the second round trip: the covariance entry `c*x*y`
      whose diagonal entries have square roots `x` and `y` normalises back
      to `c`. */
  lemma NormalisedEntry(root: real -> real, c: real, x: real, y: real, cxy: real, dx: real, dy: real)
    requires IsRootFunction(root) && x > 0.0 && y > 0.0
    requires cxy == c * x * y && IsSqrt(x, dx) && IsSqrt(y, dy)
    ensures dy * dx > 0.0
    ensures Correlation(cxy, dy, dx, root) == c
  {
    ProductPositive(x, x, dx);
    ProductPositive(y, y, dy);
    PositiveProduct(dy, dx);
    SqrtUnique(root(dx), x, dx);
    SqrtUnique(root(dy), y, dy);
    SqrtOfProduct(root, dy, dx);
    assert root(dy * dx) == y * x;
    ScaleUndone(c, x, y);
    assert Correlation(cxy, dy, dx, root) == c * x * y / (y * x);
  }

  // ---------------------------------------------------------------------
  // dev_by_dist
  // ---------------------------------------------------------------------

  /** The sorted positions the older `dev_by_dist` reads:
      `int(n/2 - 0.68*n/2)` and `int(n/2 + 0.68*n/2)`. */
  function LegacyDevByDistIndices(numbData: int): (r: (int, int))
    ensures numbData >= 1 ==> 0 <= r.0 <= r.1 <= numbData - 1
    ensures numbData >= 0 ==>
      r.0 as real <= numbData as real / 2.0 <= r.1 as real + 1.0
  {
    var n := numbData as real;
    var half := 68.0 / 100.0 * n / 2.0;
    (Trunc(n / 2.0 - half), Trunc(n / 2.0 + half))
  }

  /** Against the newer `dev_by_dist` at its default percentile 68: the
      newer index pair encloses the older one, and each end moves outward
      by at most one position. */
  lemma LegacyDevByDistWithinOne(numbData: int)
    requires numbData >= 1
    ensures var (oldDn, oldUp) := LegacyDevByDistIndices(numbData);
      var (newDn, newUp) := DevByDistIndices(numbData, 68.0);
      && newDn <= oldDn <= newDn + 1
      && oldUp <= newUp <= oldUp + 1
  {
    var n := numbData as real;
    var (oldDn, oldUp) := LegacyDevByDistIndices(numbData);
    var (newDn, newUp) := DevByDistIndices(numbData, 68.0);
    assert n / 2.0 - 68.0 / 100.0 * n / 2.0 == 16.0 / 100.0 * n;
    assert n / 2.0 + 68.0 / 100.0 * n / 2.0 == 84.0 / 100.0 * n;
    var m := (numbData - 1) as real / 2.0;
    var d := 68.0 / 100.0 * (numbData - 1) as real / 2.0;
    assert m - d == 16.0 / 100.0 * n - 16.0 / 100.0;
    assert m + d == 84.0 / 100.0 * n - 84.0 / 100.0;
    assert oldDn == (16.0 / 100.0 * n).Floor;
    assert oldUp == (84.0 / 100.0 * n).Floor;
  }

  // ---------------------------------------------------------------------
  // getTauInt
  // ---------------------------------------------------------------------

  /** The squared error `sum((x - mean)**2) * (n-1)/n` the older
      `getTauInt` computes for each row of `acintj`. */
  function LegacyErrSq(row: seq<real>): (r: real)
    requires |row| > 0
    ensures r >= 0.0
    ensures r * |row| as real == Sum(SqDevs(row, Mean(row))) * (|row| as real - 1.0)
  {
    SqDevsNonNegative(row, Mean(row));
    ErrScaledBack(Sum(SqDevs(row, Mean(row))), |row| as real)
  }

  /** `s*(n-1)/n`: non-negative, and `n` times it is `s*(n-1)`. */
  function ErrScaledBack(s: real, n: real): (r: real)
    requires n >= 1.0 && s >= 0.0
    ensures r >= 0.0
    ensures r * n == s * (n - 1.0)
  {
    assert s * (n - 1.0) >= 0.0;
    DivSign(s * (n - 1.0), n);
    DivTimes(s * (n - 1.0), n);
    s * (n - 1.0) / n
  }

  /** The older error formula agrees with `jack_mean_and_err`. */
  lemma LegacyErrSqAgrees(row: seq<real>)
    requires |row| > 0
    ensures LegacyErrSq(row) == JackMeanAndErr(row).value.1
  {
    var n := |row| as real;
    var s := Sum(SqDevs(row, Mean(row)));
    var e := JackMeanAndErr(row).value.1;
    assert e * n == (n - 1.0) * s;
    DivIs(s * (n - 1.0), n, e);
  }

  function LegacyRowErrSq(rows: seq<seq<real>>): (r: seq<real>)
    requires forall t :: 0 <= t < |rows| ==> |rows[t]| > 0
    ensures |r| == |rows|
    ensures forall t :: 0 <= t < |rows| ==> r[t] == LegacyErrSq(rows[t])
  {
    seq(|rows|, t requires 0 <= t < |rows| => LegacyErrSq(rows[t]))
  }

  /** The older `getTauInt(ts, nbins, tpickMax)`.  It sets no default for
      the pick, so with `tpickMax < 0` the loop never runs and the return
      statement reads unbound locals. */
  function LegacyGetTauInt(ts: seq<real>, nbins: int, tpickMax: int): (r: Result<TauIntEstimate>)
    ensures Tauint(tpickMax, ts, None).Err? ==> r == Err(Tauint(tpickMax, ts, None).error)
    ensures Tauint(tpickMax, ts, None).Ok? && Tauintj(tpickMax, nbins, ts, None).Err? ==>
      r == Err(Tauintj(tpickMax, nbins, ts, None).error)
    ensures r.Ok? <==> tpickMax >= 0 && Tauint(tpickMax, ts, None).Ok? && Tauintj(tpickMax, nbins, ts, None).Ok?
    ensures tpickMax < 0 && Tauint(tpickMax, ts, None).Ok? && Tauintj(tpickMax, nbins, ts, None).Ok? ==>
      r == Err(Fatal("UnboundLocalError"))
    ensures r.Ok? ==>
      var acint := Tauint(tpickMax, ts, None).value;
      var acintj := Tauintj(tpickMax, nbins, ts, None).value;
      var e := r.value;
      && IsRunEnd(acint, e.itpick, tpickMax)
      && e.tauInt == acint[e.itpick]
      && e.errSq == LegacyErrSq(acintj[e.itpick])
      && e.bias == JackBias(nbins, acint[e.itpick], acintj[e.itpick])
  {
    var acint := Tauint(tpickMax, ts, None);
    var acintj := Tauintj(tpickMax, nbins, ts, None);
    if acint.Err? then Err(acint.error)
    else if acintj.Err? then Err(acintj.error)
    else if tpickMax < 0 then Err(Fatal("UnboundLocalError"))
    else
      var a := acint.value;
      var aj := acintj.value;
      assert |a| == tpickMax + 1 && a[0] == 1.0;
      assert |aj| == tpickMax + 1 && forall t :: 0 <= t < |aj| ==> |aj[t]| == nbins;
      Ok(LegacyPickTauInt(a, aj, nbins, tpickMax))
  }

  /** The loop of the older `getTauInt` over separations `0..tpickMax`. */
  function LegacyPickTauInt(acint: seq<real>, acintj: seq<seq<real>>, nbins: int, tpickMax: nat): (e: TauIntEstimate)
    requires tpickMax < |acint| == |acintj| && nbins >= 2 && acint[0] >= 0.0
    requires forall t :: 0 <= t < |acintj| ==> |acintj[t]| == nbins
    ensures IsRunEnd(acint, e.itpick, tpickMax)
    ensures e.tauInt == acint[e.itpick]
    ensures e.errSq == LegacyErrSq(acintj[e.itpick])
    ensures e.bias == JackBias(nbins, acint[e.itpick], acintj[e.itpick])
  {
    var errs := LegacyRowErrSq(acintj);
    var biases := RowBias(acint, acintj, nbins);
    ScanFindsRunEnd(acint, errs, biases, tpickMax + 1);
    var e := ScanUpTo(acint, errs, biases, tpickMax + 1).best;
    assert e.errSq == errs[e.itpick] && e.bias == biases[e.itpick];
    e
  }

  /** Whenever the older `getTauInt` returns, it returns what the newer one
      does: the two error formulas agree. */
  lemma LegacyGetTauIntAgrees(ts: seq<real>, nbins: int, tpickMax: int)
    requires tpickMax >= 0
    ensures LegacyGetTauInt(ts, nbins, tpickMax) == GetTauInt(ts, nbins, tpickMax)
  {
    var acint := Tauint(tpickMax, ts, None);
    var acintj := Tauintj(tpickMax, nbins, ts, None);
    if acint.Ok? && acintj.Ok? {
      var a := acint.value;
      var aj := acintj.value;
      assert |a| == tpickMax + 1 && a[0] == 1.0;
      assert |aj| == tpickMax + 1 && forall t :: 0 <= t < |aj| ==> |aj[t]| == nbins;
      forall t | 0 <= t < |aj|
        ensures LegacyRowErrSq(aj)[t] == RowErrSq(aj)[t]
      {
        LegacyErrSqAgrees(aj[t]);
      }
      assert LegacyRowErrSq(aj) == RowErrSq(aj);
    }
  }
}
