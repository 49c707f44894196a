/** Berg-style jackknife and integrated-autocorrelation estimators
    (`jackknifeFrom`, `jack_mean_and_err`, `tauint`, `tauintj`, `getTauInt`).

    The repository carries two copies of `jackknifeFrom`, `tauint` and
    `tauintj` (latqcdtools/statistics.py and latqcdtools/statistics/statistics.py)
    whose bodies are the same; they are defined once here.  Arithmetic is
    exact: the model works over `real`. */
module Autocorrelation {
  import opened Outcomes
  import opened Sums

  // ---------------------------------------------------------------------
  // Jackknife
  // ---------------------------------------------------------------------

  /** `jackknifeFrom(x)`: the leave-one-out means `(sum(x) - x[i]) / (n - 1)`. */
  function JackknifeFrom(x: seq<real>): (r: Result<seq<real>>)
    ensures r.Err? <==> |x| < 2
    ensures r.Err? ==> r.error == Fatal("Need n>1.")
    ensures r.Ok? ==> |r.value| == |x|
    ensures r.Ok? ==> forall i :: 0 <= i < |x| ==> r.value[i] == Mean(x[..i] + x[i+1..])
  {
    if |x| < 2 then Err(Fatal("Need n>1."))
    else
      LeaveOneOutMeans(x);
      Ok(LeaveOneOut(x))
  }

  function LeaveOneOut(x: seq<real>): seq<real>
    requires |x| >= 2
  {
    seq(|x|, i requires 0 <= i < |x| => 1.0 / (|x| as real - 1.0) * (Sum(x) - x[i]))
  }

  lemma LeaveOneOutMeans(x: seq<real>)
    requires |x| >= 2
    ensures forall i :: 0 <= i < |x| ==> LeaveOneOut(x)[i] == Mean(x[..i] + x[i+1..])
  {
    var d := |x| as real - 1.0;
    forall i | 0 <= i < |x|
      ensures LeaveOneOut(x)[i] == Mean(x[..i] + x[i+1..])
    {
      var rest := x[..i] + x[i+1..];
      SumSplitAt(x, i);
      assert |rest| as real == d;
      ReciprocalTimes(Sum(rest), d);
    }
  }

  lemma ReciprocalTimes(a: real, d: real)
    requires d != 0.0
    ensures 1.0 / d * a == a / d
  {
  }

  /** A constant series is its own jackknife. */
  lemma JackknifeConstant(x: seq<real>, c: real)
    requires |x| >= 2
    requires forall i :: 0 <= i < |x| ==> x[i] == c
    ensures JackknifeFrom(x) == Ok(Constant(|x|, c))
  {
    SumConstant(x, c);
    var n := |x| as real;
    forall i | 0 <= i < |x|
      ensures LeaveOneOut(x)[i] == c
    {
      assert Sum(x) - x[i] == (n - 1.0) * c;
      assert 1.0 / (n - 1.0) * ((n - 1.0) * c) == c;
    }
    assert LeaveOneOut(x) == Constant(|x|, c);
  }

  /** The jackknife bins have the same mean as the data. */
  lemma JackknifePreservesMean(x: seq<real>)
    requires |x| >= 2
    ensures JackknifeFrom(x).Ok?
    ensures Mean(JackknifeFrom(x).value) == Mean(x)
  {
    var n := |x| as real;
    var xj := LeaveOneOut(x);
    var k := 1.0 / (n - 1.0);
    forall i | 0 <= i < |x|
      ensures xj[i] == k * Sum(x) + -k * x[i]
    {
      Distribute(k, Sum(x), x[i]);
    }
    SumAffine(x, xj, k * Sum(x), -k);
    LeaveOneOutTotal(n, Sum(x), k, Sum(xj));
  }

  lemma Distribute(k: real, s: real, y: real)
    ensures k * (s - y) == k * s + -k * y
  {
  }

  /** The leave-one-out values add up to the original total. */
  lemma LeaveOneOutTotal(n: real, s: real, k: real, sj: real)
    requires n >= 2.0 && k == 1.0 / (n - 1.0)
    requires sj == n * (k * s) + -k * s
    ensures sj == s
  {
    assert sj == ((n - 1.0) * k) * s;
    assert (n - 1.0) * k == 1.0;
  }

  // ---------------------------------------------------------------------
  // jack_mean_and_err
  // ---------------------------------------------------------------------

  /** `jack_mean_and_err(data)`: the mean and the SQUARE of the jackknife
      error `sqrt((n-1) * mean((data - mean)**2))`.  An empty array makes
      numpy return NaN. */
  function JackMeanAndErr(data: seq<real>): (r: Result<(real, real)>)
    ensures r.Ok? <==> |data| > 0
    ensures r.Err? ==> r.error == NonFinite
    ensures r.Ok? ==> r.value.0 == Mean(data) && r.value.1 >= 0.0
    ensures r.Ok? ==> r.value.1 * |data| as real == (|data| as real - 1.0) * Sum(SqDevs(data, Mean(data)))
  {
    if |data| == 0 then Err(NonFinite)
    else
      var m := Mean(data);
      SqDevsNonNegative(data, m);
      Ok((m, JackErrSquared(Sum(SqDevs(data, m)), |data| as real)))
  }

  /** `(n-1) * mean((data - mean)**2)` from the sum `s` of the squared
      deviations: non-negative, and `n` times it is `(n-1) * s`. */
  function JackErrSquared(s: real, n: real): (r: real)
    requires n >= 1.0 && s >= 0.0
    ensures r >= 0.0
    ensures r * n == (n - 1.0) * s
  {
    DivSign(s, n);
    DivTimes(s, n);
    assert (n - 1.0) * (s / n) * n == (n - 1.0) * ((s / n) * n);
    (n - 1.0) * (s / n)
  }

  /** The jackknife error of the jackknife bins is the standard error of
      the mean of the data: its square is the sample variance over n. */
  lemma JackknifeErrorIsStandardError(x: seq<real>)
    requires |x| >= 2
    ensures JackknifeFrom(x).Ok?
    ensures JackMeanAndErr(JackknifeFrom(x).value) == Ok((Mean(x), SampleVariance(x) / |x| as real))
  {
    JackknifePreservesMean(x);
    JackErrorValue(x);
    var r := JackMeanAndErr(LeaveOneOut(x));
    assert r == Ok((r.value.0, r.value.1));
  }

  /** The error half of the statement above, given that the means agree. */
  lemma JackErrorValue(x: seq<real>)
    requires |x| >= 2
    requires Mean(LeaveOneOut(x)) == Mean(x)
    ensures JackMeanAndErr(LeaveOneOut(x)).Ok?
    ensures JackMeanAndErr(LeaveOneOut(x)).value.1 == SampleVariance(x) / |x| as real
  {
    var n := |x| as real;
    var xj := LeaveOneOut(x);
    JackSquaredDeviations(x);
    var e := JackMeanAndErr(xj).value.1;
    assert e * n == (n - 1.0) * Sum(SqDevs(xj, Mean(x)));
    JackErrorAlgebra(Sum(SqDevs(x, Mean(x))), Sum(SqDevs(xj, Mean(x))), n, e);
  }

  /** Each leave-one-out value deviates from the mean by -1/(n-1) times the
      datum's deviation, so the squared deviations scale by 1/(n-1)^2. */
  lemma JackSquaredDeviations(x: seq<real>)
    requires |x| >= 2
    ensures var k := 1.0 / (|x| as real - 1.0);
      Sum(SqDevs(LeaveOneOut(x), Mean(x))) == k * k * Sum(SqDevs(x, Mean(x)))
  {
    var k := 1.0 / (|x| as real - 1.0);
    JackDeviationsScale(x);
    SumAffine(SqDevs(x, Mean(x)), SqDevs(LeaveOneOut(x), Mean(x)), 0.0, k * k);
  }

  lemma JackDeviationsScale(x: seq<real>)
    requires |x| >= 2
    ensures var k := 1.0 / (|x| as real - 1.0);
      forall i :: 0 <= i < |x| ==> SqDevs(LeaveOneOut(x), Mean(x))[i] == 0.0 + (k * k) * SqDevs(x, Mean(x))[i]
  {
    forall i | 0 <= i < |x|
      ensures var k := 1.0 / (|x| as real - 1.0);
        SqDevs(LeaveOneOut(x), Mean(x))[i] == 0.0 + (k * k) * SqDevs(x, Mean(x))[i]
    {
      JackDeviationAt(x, i);
    }
  }

  lemma JackDeviationAt(x: seq<real>, i: nat)
    requires |x| >= 2 && i < |x|
    ensures var k := 1.0 / (|x| as real - 1.0);
      SqDevs(LeaveOneOut(x), Mean(x))[i] == 0.0 + (k * k) * SqDevs(x, Mean(x))[i]
  {
    var lo, m := LeaveOneOut(x), Mean(x);
    var y := lo[i];
    SqDevAt(lo, m, i);
    SqDevAt(x, m, i);
    JackDeviation(x[i], Sum(x), |x| as real, m, y, y, SqDevs(lo, m)[i], x[i], SqDevs(x, m)[i]);
  }

  /** The squared deviation of one leave-one-out value `y`.  The factors of
      each square are passed twice (`y2 == y`, `xi2 == xi`). */
  lemma JackDeviation(xi: real, s: real, n: real, xb: real, y: real, y2: real, dy: real, xi2: real, dx: real)
    requires n > 1.0 && xb == s / n
    requires y == 1.0 / (n - 1.0) * (s - xi) && y2 == y && dy == (y - xb) * (y2 - xb)
    requires xi2 == xi && dx == (xi - xb) * (xi2 - xb)
    ensures var k := 1.0 / (n - 1.0); dy == 0.0 + (k * k) * dx
  {
    var k := 1.0 / (n - 1.0);
    assert k * (n - 1.0) == 1.0;
    assert s == xb * n;
    assert k * s == xb * (k * n);
    assert k * n == 1.0 + k;
    assert y - xb == -k * (xi - xb) && y2 - xb == -k * (xi2 - xb);
    assert dy == (k * k) * ((xi - xb) * (xi2 - xb));
  }

  lemma JackErrorAlgebra(q: real, qj: real, n: real, e: real)
    requires n > 1.0
    requires qj == 1.0 / (n - 1.0) * (1.0 / (n - 1.0)) * q
    requires e * n == (n - 1.0) * qj
    ensures e == q / (n - 1.0) / n
  {
    var k := 1.0 / (n - 1.0);
    assert k * (n - 1.0) == 1.0;
    assert (n - 1.0) * qj == (k * (n - 1.0)) * (k * q);
    assert e * n == k * q;
  }

  // ---------------------------------------------------------------------
  // tauint
  // ---------------------------------------------------------------------

  /** Number of iterations of `range(nt + 1)`. */
  function NumLags(nt: int): nat
  {
    if nt < 0 then 0 else nt + 1
  }

  /** `sum((ts[i] - x) * (ts[i + lag] - x) for i in range(lo, hi))`,
      accumulated left to right as the source's loop does. */
  function LaggedSum(ts: seq<real>, x: real, lag: nat, lo: nat, hi: nat): real
    requires lo <= hi && hi + lag <= |ts|
    decreases hi - lo
  {
    if lo == hi then 0.0
    else LaggedSum(ts, x, lag, lo, hi - 1) + (ts[hi - 1] - x) * (ts[hi - 1 + lag] - x)
  }

  /** Bias correction `* ndat / (ndat - 1.)`, applied only when the mean is
      estimated from the series itself. */
  function BiasCorrect(c: real, ndat: nat, corrected: bool): real
    requires ndat >= 2
  {
    if corrected then c * ndat as real / (ndat as real - 1.0) else c
  }

  /** `c_it` of `tauint`: the autocovariance at separation `lag`. */
  function Autocov(ts: seq<real>, x: real, lag: nat, corrected: bool): real
    requires 2 <= |ts| && lag < |ts|
  {
    var numt := |ts| - lag;
    BiasCorrect(LaggedSum(ts, x, lag, 0, numt) / numt as real, |ts|, corrected)
  }

  /** One term of the recurrence: `2 * acov[t] / acov[0]`. */
  function Step(acov: seq<real>, t: nat): real
    requires t < |acov| && acov[0] != 0.0
  {
    2.0 * acov[t] / acov[0]
  }

  /** The cumulative estimate `acint[0..t]` built from autocovariances:
      `acint[0] = 1`, `acint[s] = acint[s-1] + 2 * acov[s] / acov[0]`. */
  function Acint(acov: seq<real>, t: nat): (r: seq<real>)
    requires t == 0 || (t < |acov| && acov[0] != 0.0)
    ensures |r| == t + 1 && r[0] == 1.0
    ensures forall s {:trigger acov[s]} :: 1 <= s <= t ==> r[s] == r[s - 1] + Step(acov, s)
    decreases t
  {
    if t == 0 then [1.0]
    else
      var p := Acint(acov, t - 1);
      p + [p[t - 1] + Step(acov, t)]
  }

  /** Closed form of the recurrence: `acint[s] = 1 + 2 * sum(acov[1..s]) / acov[0]`. */
  lemma {:induction false} AcintClosedForm(acov: seq<real>, t: nat)
    requires t < |acov| && acov[0] != 0.0
    ensures forall s :: 0 <= s <= t ==>
      Acint(acov, t)[s] == 1.0 + 2.0 * Sum(acov[1..s + 1]) / acov[0]
  {
    if t > 0 {
      AcintClosedForm(acov, t - 1);
      var r := Acint(acov, t);
      var p := Acint(acov, t - 1);
      assert r == p + [p[t - 1] + Step(acov, t)];
      assert acov[1..t + 1] == acov[1..t] + [acov[t]];
      SumAppend(acov[1..t], [acov[t]]);
      SumSingleton(acov[t]);
      AcintLastStep(p[t - 1], Step(acov, t), Sum(acov[1..t]), acov[t], Sum(acov[1..t + 1]), acov[0]);
      forall s | 0 <= s <= t
        ensures r[s] == 1.0 + 2.0 * Sum(acov[1..s + 1]) / acov[0]
      {
        if s < t {
          assert r[s] == p[s];
        }
      }
    }
  }

  /** The autocovariances `acov[0..nt]` of `tauint`. */
  function Autocovs(nt: int, ts: seq<real>, x: real, corrected: bool): (r: seq<real>)
    requires 2 <= |ts| && nt < |ts|
    ensures |r| == NumLags(nt)
  {
    seq(NumLags(nt), t requires 0 <= t < NumLags(nt) => Autocov(ts, x, t, corrected))
  }

  /** The mean `tauint` uses: `xhat` when given, else the sample mean. */
  function CentreOf(ts: seq<real>, xhat: Option<real>): real
    requires |ts| > 0
  {
    if xhat.Some? then xhat.value else Mean(ts)
  }

  /** `tauint(nt, ts, xhat)`: the integrated autocorrelation estimate at
      every separation 0..nt.  A zero lag-0 autocovariance makes the source
      divide by zero (NaN entries). */
  function Tauint(nt: int, ts: seq<real>, xhat: Option<real>): (r: Result<seq<real>>)
    ensures |ts| < 2 ==> r == Err(Fatal("Need ndat>1."))
    ensures |ts| >= 2 && nt >= |ts| ==> r == Err(Fatal("Need nt>ndat."))
    ensures r.Ok? ==> 2 <= |ts| && nt < |ts|
    ensures r.Ok? ==> |r.value| == if nt < 0 then 1 else nt + 1
    ensures r.Ok? ==> r.value[0] == 1.0
    ensures r.Ok? ==> var x := CentreOf(ts, xhat);
      && (|r.value| > 1 ==> Autocov(ts, x, 0, xhat.None?) != 0.0)
      && forall t :: 1 <= t < |r.value| && Autocov(ts, x, 0, xhat.None?) != 0.0 ==>
           r.value[t] == r.value[t - 1] + 2.0 * Autocov(ts, x, t, xhat.None?) / Autocov(ts, x, 0, xhat.None?)
    ensures r == Err(NonFinite) <==>
      2 <= |ts| && 0 < nt < |ts| && Autocov(ts, CentreOf(ts, xhat), 0, xhat.None?) == 0.0
  {
    if |ts| < 2 then Err(Fatal("Need ndat>1."))
    else if nt >= |ts| then Err(Fatal("Need nt>ndat."))
    else
      var acov := Autocovs(nt, ts, CentreOf(ts, xhat), xhat.None?);
      var last := if nt < 0 then 0 else nt;
      if last > 0 && acov[0] == 0.0 then Err(NonFinite)
      else
        var r := Acint(acov, last);
        assert forall t :: 1 <= t <= last ==> r[t] == r[t - 1] + Step(acov, t);
        Ok(r)
  }

  /** The bias factor n/(n-1) multiplies every lag alike, so it cancels in
      `acov[t] / acov[0]`: passing the sample mean as `xhat` (no correction)
      gives exactly the same estimates as letting `tauint` compute it. */
  lemma TauintBiasCancels(nt: int, ts: seq<real>)
    requires |ts| >= 2
    ensures Tauint(nt, ts, None) == Tauint(nt, ts, Some(Mean(ts)))
  {
    if nt < |ts| {
      var n := |ts| as real;
      var f := n / (n - 1.0);
      var a := Autocovs(nt, ts, Mean(ts), false);
      var b := Autocovs(nt, ts, Mean(ts), true);
      forall t | 0 <= t < |a|
        ensures b[t] == f * a[t]
      {
        CorrectionScales(ts, Mean(ts), t);
      }
      var last := if nt < 0 then 0 else nt;
      if last > 0 {
        assert b[0] == 0.0 <==> a[0] == 0.0;
        if a[0] != 0.0 {
          AcintScaleInvariant(a, b, f, last);
        }
      }
    }
  }

  /** The bias correction multiplies an autocovariance by n/(n-1). */
  lemma CorrectionScales(ts: seq<real>, x: real, lag: nat)
    requires 2 <= |ts| && lag < |ts|
    ensures Autocov(ts, x, lag, true) == |ts| as real / (|ts| as real - 1.0) * Autocov(ts, x, lag, false)
  {
    var c := LaggedSum(ts, x, lag, 0, |ts| - lag) / (|ts| - lag) as real;
    ScaleByFraction(c, |ts| as real);
  }

  lemma ScaleByFraction(c: real, n: real)
    requires n >= 2.0
    ensures c * n / (n - 1.0) == n / (n - 1.0) * c
  {
  }

  lemma {:induction false} AcintScaleInvariant(a: seq<real>, b: seq<real>, f: real, t: nat)
    requires |a| == |b| && t < |a| && a[0] != 0.0 && f != 0.0
    requires forall s :: 0 <= s < |a| ==> b[s] == f * a[s]
    ensures Acint(b, t) == Acint(a, t)
  {
    RatioScale(a[0], a[0], f);
    forall s | 0 < s <= t
      ensures Step(b, s) == Step(a, s)
    {
      RatioScale(a[s], a[0], f);
    }
    AcintSameSteps(a, b, t);
  }

  lemma {:induction false} AcintSameSteps(a: seq<real>, b: seq<real>, t: nat)
    requires |a| == |b| && t < |a| && a[0] != 0.0 && b[0] != 0.0
    requires forall s :: 0 < s <= t ==> Step(b, s) == Step(a, s)
    ensures Acint(b, t) == Acint(a, t)
  {
    if t > 0 {
      AcintSameSteps(a, b, t - 1);
      var p := Acint(a, t - 1);
      assert Acint(b, t) == p + [p[t - 1] + Step(b, t)];
      assert Acint(a, t) == p + [p[t - 1] + Step(a, t)];
    }
  }

  /** The last step of the closed form, on plain numbers: `prev` is the
      closed form over `u`, `step` adds `v`, and `w` is `u + v`. */
  lemma AcintLastStep(prev: real, step: real, u: real, v: real, w: real, d: real)
    requires d != 0.0 && prev == 1.0 + 2.0 * u / d && step == 2.0 * v / d && w == u + v
    ensures prev + step == 1.0 + 2.0 * w / d
  {
    SplitFraction(u, v, d);
  }

  lemma SplitFraction(u: real, v: real, d: real)
    requires d != 0.0
    ensures 1.0 + 2.0 * (u + v) / d == (1.0 + 2.0 * u / d) + 2.0 * v / d
  {
  }

  lemma RatioScale(x: real, y: real, f: real)
    requires y != 0.0 && f != 0.0
    ensures f * y != 0.0
    ensures 2.0 * (f * x) / (f * y) == 2.0 * x / y
  {
    assert (f * x) / (f * y) == x / y;
  }

  // ---------------------------------------------------------------------
  // tauintj
  // ---------------------------------------------------------------------

  /** Python's `int(a / b)` for b > 0: the quotient truncated toward zero. */
  function TruncDiv(a: int, b: int): int
    requires b > 0
  {
    if a >= 0 then a / b else -((-a) / b)
  }

  /** `binsize = int(numt / nbins)` with `numt = ndat - it`. */
  function BinSize(ndat: int, nbins: int, lag: int): int
    requires nbins > 0
  {
    TruncDiv(ndat - lag, nbins)
  }

  /** `itmax = nbins * binsize - binsize`. */
  function ItMax(ndat: int, nbins: int, lag: int): int
    requires nbins > 0
  {
    nbins * BinSize(ndat, nbins, lag) - BinSize(ndat, nbins, lag)
  }

  /** The spill check of `tauintj` passes at every separation 0..nt. */
  predicate BinsFit(ndat: int, nbins: int, nt: int)
    requires nbins > 0
  {
    forall lag :: 0 <= lag <= nt ==> lag < ItMax(ndat, nbins, lag)
  }

  lemma MulMonotone(a: int, b: int, c: int)
    requires a <= b && c >= 0
    ensures a * c <= b * c
  {
    assert b * c - a * c == (b - a) * c;
  }

  /** What the spill check buys: a bin holds at least one pair, and all
      `nbins` bins together, shifted by `lag`, stay inside the series. */
  lemma BinGeometry(ndat: int, nbins: int, lag: int)
    requires nbins >= 2 && 0 <= lag < ItMax(ndat, nbins, lag)
    ensures BinSize(ndat, nbins, lag) >= 1
    ensures nbins * BinSize(ndat, nbins, lag) + lag <= ndat
  {
    var bs := BinSize(ndat, nbins, lag);
    assert ItMax(ndat, nbins, lag) == (nbins - 1) * bs;
    if bs <= 0 {
      MulMonotone(bs, 0, nbins - 1);
      assert false;
    }
    if ndat - lag < 0 {
      assert false;
    }
    assert bs == (ndat - lag) / nbins;
    assert nbins * bs + (ndat - lag) % nbins == ndat - lag;
  }

  /** Every index `i + it` that `tauintj` reads lies inside the series. */
  lemma BinIndexInRange(ndat: int, nbins: int, lag: int, ibin: int, i: int)
    requires nbins >= 2 && 0 <= lag < ItMax(ndat, nbins, lag)
    requires 0 <= ibin < nbins
    requires ibin * BinSize(ndat, nbins, lag) <= i <= (ibin + 1) * BinSize(ndat, nbins, lag) - 1
    ensures 0 <= i && i + lag < ndat
  {
    var bs := BinSize(ndat, nbins, lag);
    BinGeometry(ndat, nbins, lag);
    MulMonotone(0, ibin, bs);
    MulMonotone(ibin + 1, nbins, bs);
  }

  /** Bins `[ibin*binsize, (ibin+1)*binsize - 1]` are disjoint and ordered, and
      all lie in `[0, nbins*binsize)`. */
  lemma BinsDisjoint(ndat: int, nbins: int, lag: int, b1: int, b2: int)
    requires nbins >= 2 && 0 <= lag < ItMax(ndat, nbins, lag)
    requires 0 <= b1 < b2 < nbins
    ensures var bs := BinSize(ndat, nbins, lag);
      0 <= b1 * bs && (b1 + 1) * bs - 1 < b2 * bs && (b2 + 1) * bs <= nbins * bs
  {
    var bs := BinSize(ndat, nbins, lag);
    BinGeometry(ndat, nbins, lag);
    MulMonotone(0, b1, bs);
    MulMonotone(b1 + 1, b2, bs);
    MulMonotone(b2 + 1, nbins, bs);
  }

  /** `acor[ibin]`: the autocovariance at separation `lag` averaged over one bin. */
  function BinAutocov(ts: seq<real>, x: real, lag: nat, nbins: int, ibin: nat, corrected: bool): real
    requires 2 <= |ts| && nbins >= 2 && lag < ItMax(|ts|, nbins, lag) && ibin < nbins
  {
    var bs := BinSize(|ts|, nbins, lag);
    BinGeometry(|ts|, nbins, lag);
    MulMonotone(0, ibin, bs);
    MulMonotone(ibin + 1, nbins, bs);
    var lo: nat := ibin * bs;
    BiasCorrect(LaggedSum(ts, x, lag, lo, lo + bs) / bs as real, |ts|, corrected)
  }

  /** `acor`: the per-bin autocovariances at one separation. */
  function BinAutocovs(ts: seq<real>, x: real, lag: nat, nbins: int, corrected: bool): (r: seq<real>)
    requires 2 <= |ts| && nbins >= 2 && lag < ItMax(|ts|, nbins, lag)
    ensures |r| == nbins
    ensures forall b :: 0 <= b < nbins ==> r[b] == BinAutocov(ts, x, lag, nbins, b, corrected)
  {
    seq(nbins, b requires 0 <= b < nbins => BinAutocov(ts, x, lag, nbins, b, corrected))
  }

  /** `acorj[it]`: the jackknife of the per-bin autocovariances at one
      separation; entry `b` is the mean of the autocovariances of every bin
      except `b`. */
  function JackBins(ts: seq<real>, x: real, lag: nat, nbins: int, corrected: bool): (r: seq<real>)
    requires 2 <= |ts| && nbins >= 2 && lag < ItMax(|ts|, nbins, lag)
    ensures |r| == nbins
    ensures var acor := BinAutocovs(ts, x, lag, nbins, corrected);
      forall b :: 0 <= b < nbins ==> r[b] == Mean(acor[..b] + acor[b+1..])
  {
    JackknifeFrom(BinAutocovs(ts, x, lag, nbins, corrected)).value
  }

  /** `acorj` for separations 0..nt. */
  function JackTable(nt: int, nbins: int, ts: seq<real>, x: real, corrected: bool): (r: seq<seq<real>>)
    requires 2 <= |ts| && nbins >= 2 && BinsFit(|ts|, nbins, nt)
    ensures |r| == NumLags(nt)
    ensures forall t :: 0 <= t < |r| ==> r[t] == JackBins(ts, x, t, nbins, corrected)
  {
    seq(NumLags(nt), t requires 0 <= t < NumLags(nt) => JackBins(ts, x, t, nbins, corrected))
  }

  /** `tauintj(nt, nbins, ts, xhat)`: for every separation 0..nt and every
      jackknife bin, the integrated autocorrelation estimate built from that
      bin's jackknifed autocovariances. */
  function Tauintj(nt: int, nbins: int, ts: seq<real>, xhat: Option<real>): (r: Result<seq<seq<real>>>)
    ensures |ts| < 2 ==> r == Err(Fatal("Need ndat>1."))
    ensures |ts| >= 2 && nbins < 2 ==> r == Err(Fatal("Need nbins>1."))
    ensures |ts| >= 2 && nbins >= 2 && !BinsFit(|ts|, nbins, nt) ==> r == Err(Fatal("it>=itmax."))
    ensures r.Ok? ==> 2 <= |ts| && nbins >= 2 && BinsFit(|ts|, nbins, nt)
    ensures r.Ok? ==> |r.value| == (if nt < 0 then 1 else nt + 1)
    ensures r.Ok? ==> forall t :: 0 <= t < |r.value| ==> |r.value[t]| == nbins
    ensures r.Ok? ==> r.value[0] == Constant(nbins, 1.0)
    ensures r.Ok? ==> forall b :: 0 <= b < nbins ==>
      && (|r.value| == 1 || JackTable(nt, nbins, ts, CentreOf(ts, xhat), xhat.None?)[0][b] != 0.0)
      && Column(r.value, b) == Acint(Column(JackTable(nt, nbins, ts, CentreOf(ts, xhat), xhat.None?), b), |r.value| - 1)
    ensures r == Err(NonFinite) <==>
      && 2 <= |ts| && nbins >= 2 && BinsFit(|ts|, nbins, nt) && nt > 0
      && exists b :: 0 <= b < nbins && JackBins(ts, CentreOf(ts, xhat), 0, nbins, xhat.None?)[b] == 0.0
  {
    if |ts| < 2 then Err(Fatal("Need ndat>1."))
    else if nbins < 2 then Err(Fatal("Need nbins>1."))
    else if !BinsFit(|ts|, nbins, nt) then Err(Fatal("it>=itmax."))
    else
      var acorj := JackTable(nt, nbins, ts, CentreOf(ts, xhat), xhat.None?);
      var last := if nt < 0 then 0 else nt;
      if last > 0 && exists b :: 0 <= b < nbins && acorj[0][b] == 0.0 then Err(NonFinite)
      else Ok(AcintTable(acorj, nbins, last))
  }

  /** `acintj`: row 0 all ones, and each bin's column the `acint`
      recurrence of that bin's column of `acorj`. */
  function AcintTable(acorj: seq<seq<real>>, nbins: nat, last: nat): (r: seq<seq<real>>)
    requires forall t :: 0 <= t < |acorj| ==> |acorj[t]| == nbins
    requires last > 0 ==> |acorj| == last + 1 && forall b :: 0 <= b < nbins ==> acorj[0][b] != 0.0
    ensures |r| == last + 1 && forall t :: 0 <= t < |r| ==> |r[t]| == nbins
    ensures r[0] == Constant(nbins, 1.0)
    ensures forall b :: 0 <= b < nbins ==> Column(r, b) == Acint(Column(acorj, b), last)
  {
    var cols := seq(nbins, b requires 0 <= b < nbins => Acint(Column(acorj, b), last));
    var rows := RowsOf(cols, last);
    assert forall b :: 0 <= b < nbins ==> rows[0][b] == Column(rows, b)[0] == 1.0;
    assert rows[0] == Constant(nbins, 1.0);
    rows
  }

  /** The table whose columns are `cols`, each of length `n + 1`. */
  function RowsOf(cols: seq<seq<real>>, n: nat): (r: seq<seq<real>>)
    requires forall b :: 0 <= b < |cols| ==> |cols[b]| == n + 1
    ensures |r| == n + 1
    ensures forall t :: 0 <= t < |r| ==> |r[t]| == |cols|
    ensures forall b :: 0 <= b < |cols| ==> Column(r, b) == cols[b]
  {
    var r := seq(n + 1, t requires 0 <= t <= n => seq(|cols|, b requires 0 <= b < |cols| => cols[b][t]));
    assert forall b :: 0 <= b < |cols| ==> Column(r, b) == cols[b];
    r
  }

  // ---------------------------------------------------------------------
  // getTauInt
  // ---------------------------------------------------------------------

  /** The four numbers `getTauInt` returns; the error bar is kept squared. */
  datatype TauIntEstimate = TauIntEstimate(tauInt: real, errSq: real, bias: real, itpick: int)

  /** The loop state of `getTauInt`: the flag `lmonoton` and the current pick. */
  datatype Scan = Scan(monotone: bool, best: TauIntEstimate)

  /** Values before the first iteration of the loop.  The source initialises
      `tau_inte` and `tau_intbias` to the sentinel `-1`; that sentinel is
      kept as it is in `errSq` and `bias`, where no squared error or bias of
      a pick can be negative (`PickTauInt` ensures `errSq >= 0.0`), so it
      never collides with a real estimate. */
  const NoPick := TauIntEstimate(0.0, -1.0, -1.0, -1)

  /** One iteration of the loop at separation `it`: once the flag is down
      nothing changes; while it is up, a value that does not drop below the
      current pick becomes the pick, and the first drop lowers the flag. */
  function ScanStep(st: Scan, it: int, a: real, errSq: real, bias: real): (r: Scan)
    ensures !st.monotone ==> r == st
    ensures st.monotone ==> (r.monotone <==> a >= st.best.tauInt)
    ensures r.monotone ==> r.best == TauIntEstimate(a, errSq, bias, it)
    ensures st.monotone && !r.monotone ==> r.best == st.best
  {
    if !st.monotone then st
    else if !(a < st.best.tauInt) then Scan(true, TauIntEstimate(a, errSq, bias, it))
    else Scan(false, st.best)
  }

  /** The loop state after separations `0..n-1`. */
  function ScanUpTo(acint: seq<real>, errs: seq<real>, biases: seq<real>, n: nat): Scan
    requires n <= |acint| == |errs| == |biases|
  {
    if n == 0 then Scan(true, NoPick)
    else ScanStep(ScanUpTo(acint, errs, biases, n - 1), n - 1, acint[n - 1], errs[n - 1], biases[n - 1])
  }

  /** Once the flag is down the loop state never changes again: every
      later separation leaves the pick where the first drop found it. */
  lemma {:induction false} ScanStopsForGood(acint: seq<real>, errs: seq<real>, biases: seq<real>, n: nat, m: nat)
    requires n <= m <= |acint| == |errs| == |biases|
    requires !ScanUpTo(acint, errs, biases, n).monotone
    ensures ScanUpTo(acint, errs, biases, m) == ScanUpTo(acint, errs, biases, n)
    decreases m - n
  {
    if n < m {
      ScanStopsForGood(acint, errs, biases, n + 1, m);
    }
  }

  /** `a[0..t]` never decreases. */
  predicate NonDecreasingUpTo(a: seq<real>, t: int)
    requires t < |a|
  {
    forall i, j :: 0 <= i <= j <= t ==> a[i] <= a[j]
  }

  /** `t` is where the first non-decreasing run of `a[0..tmax]` ends: either
      `a` never decreases up to `tmax` and `t == tmax`, or `a[t+1] < a[t]`. */
  predicate IsRunEnd(a: seq<real>, t: int, tmax: int)
  {
    && 0 <= t <= tmax < |a|
    && NonDecreasingUpTo(a, t)
    && (t < tmax ==> a[t + 1] < a[t])
  }

  /** The run end is unique, so it is a complete description of the pick. */
  lemma RunEndUnique(a: seq<real>, t1: int, t2: int, tmax: int)
    requires IsRunEnd(a, t1, tmax) && IsRunEnd(a, t2, tmax)
    ensures t1 == t2
  {
  }

  /** The loop picks the end of the first non-decreasing run, and the error
      and bias it reports belong to that same separation. */
  lemma {:induction false} ScanFindsRunEnd(acint: seq<real>, errs: seq<real>, biases: seq<real>, n: nat)
    requires 1 <= n <= |acint| == |errs| == |biases|
    requires acint[0] >= 0.0
    ensures var st := ScanUpTo(acint, errs, biases, n);
      && 0 <= st.best.itpick < n
      && NonDecreasingUpTo(acint, st.best.itpick)
      && (st.monotone <==> st.best.itpick == n - 1)
      && (!st.monotone ==> acint[st.best.itpick + 1] < acint[st.best.itpick])
      && st.best == TauIntEstimate(acint[st.best.itpick], errs[st.best.itpick], biases[st.best.itpick], st.best.itpick)
  {
    if n > 1 {
      ScanFindsRunEnd(acint, errs, biases, n - 1);
      var prev := ScanUpTo(acint, errs, biases, n - 1);
      if prev.monotone && !(acint[n - 1] < prev.best.tauInt) {
        assert prev.best.itpick == n - 2;
        forall i, j | 0 <= i <= j <= n - 1
          ensures acint[i] <= acint[j]
        {
          if j == n - 1 && i < j {
            assert acint[i] <= acint[n - 2];
          }
        }
      }
    }
  }

  /** The pick is the run end of `acint[0..tmax]`. */
  lemma ScanPicksRunEnd(acint: seq<real>, errs: seq<real>, biases: seq<real>, tmax: nat)
    requires tmax < |acint| == |errs| == |biases|
    requires acint[0] >= 0.0
    ensures IsRunEnd(acint, ScanUpTo(acint, errs, biases, tmax + 1).best.itpick, tmax)
  {
    ScanFindsRunEnd(acint, errs, biases, tmax + 1);
  }

  /** The squared jackknife error of every row of `acintj`. */
  function RowErrSq(rows: seq<seq<real>>): (r: seq<real>)
    requires forall t :: 0 <= t < |rows| ==> |rows[t]| > 0
    ensures |r| == |rows|
    ensures forall t :: 0 <= t < |rows| ==> r[t] == JackMeanAndErr(rows[t]).value.1
  {
    seq(|rows|, t requires 0 <= t < |rows| => JackMeanAndErr(rows[t]).value.1)
  }

  /** `acbias = (nbins-1) * |acint[it] - acm|`: how far the full estimate
      sits from the mean of its jackknife estimates, scaled up to a bias. */
  function JackBias(nbins: int, a: real, jacks: seq<real>): (r: real)
    requires nbins >= 2 && |jacks| > 0
    ensures r >= 0.0
    ensures r == 0.0 <==> a == Mean(jacks)
  {
    (nbins - 1) as real * Abs(a - Mean(jacks))
  }

  /** The bias of every separation. */
  function RowBias(acint: seq<real>, rows: seq<seq<real>>, nbins: int): (r: seq<real>)
    requires |acint| == |rows| && nbins >= 2
    requires forall t :: 0 <= t < |rows| ==> |rows[t]| > 0
    ensures |r| == |rows|
    ensures forall t :: 0 <= t < |rows| ==> r[t] == JackBias(nbins, acint[t], rows[t])
  {
    seq(|rows|, t requires 0 <= t < |rows| => JackBias(nbins, acint[t], rows[t]))
  }

  /** The loop of `getTauInt` over separations `0..tpickMax`. */
  function PickTauInt(acint: seq<real>, acintj: seq<seq<real>>, nbins: int, tpickMax: nat): (e: TauIntEstimate)
    requires tpickMax < |acint| == |acintj| && nbins >= 2 && acint[0] >= 0.0
    requires forall t :: 0 <= t < |acintj| ==> |acintj[t]| == nbins
    ensures IsRunEnd(acint, e.itpick, tpickMax)
    ensures e.tauInt == acint[e.itpick]
    ensures e.errSq == JackMeanAndErr(acintj[e.itpick]).value.1 && e.errSq >= 0.0
    ensures e.bias == JackBias(nbins, acint[e.itpick], acintj[e.itpick])
  {
    var errs := RowErrSq(acintj);
    var biases := RowBias(acint, acintj, nbins);
    ScanFindsRunEnd(acint, errs, biases, tpickMax + 1);
    var e := ScanUpTo(acint, errs, biases, tpickMax + 1).best;
    assert e.errSq == errs[e.itpick] && e.bias == biases[e.itpick];
    e
  }

  /** `getTauInt(ts, nbins, tpickMax)`: the integrated autocorrelation time
      read off where the estimate first decreases, with its squared
      jackknife error, its bias and the separation it was read at. */
  function GetTauInt(ts: seq<real>, nbins: int, tpickMax: int): (r: Result<TauIntEstimate>)
    ensures Tauint(tpickMax, ts, None).Err? ==> r == Err(Tauint(tpickMax, ts, None).error)
    ensures Tauint(tpickMax, ts, None).Ok? && Tauintj(tpickMax, nbins, ts, None).Err? ==>
      r == Err(Tauintj(tpickMax, nbins, ts, None).error)
    ensures r.Ok? <==> Tauint(tpickMax, ts, None).Ok? && Tauintj(tpickMax, nbins, ts, None).Ok?
    ensures r.Ok? && tpickMax < 0 ==> r.value == NoPick
    ensures r.Ok? && tpickMax >= 0 ==>
      var acint := Tauint(tpickMax, ts, None).value;
      var acintj := Tauintj(tpickMax, nbins, ts, None).value;
      var e := r.value;
      && IsRunEnd(acint, e.itpick, tpickMax)
      && e.tauInt == acint[e.itpick]
      && e.errSq == JackMeanAndErr(acintj[e.itpick]).value.1 && e.errSq >= 0.0
      && e.bias == JackBias(nbins, acint[e.itpick], acintj[e.itpick])
  {
    var acint := Tauint(tpickMax, ts, None);
    var acintj := Tauintj(tpickMax, nbins, ts, None);
    if acint.Err? then Err(acint.error)
    else if acintj.Err? then Err(acintj.error)
    else if tpickMax < 0 then Ok(NoPick)
    else
      assert |acint.value| == tpickMax + 1 && acint.value[0] == 1.0;
      assert |acintj.value| == tpickMax + 1 && forall t :: 0 <= t < |acintj.value| ==> |acintj.value[t]| == nbins;
      Ok(PickTauInt(acint.value, acintj.value, nbins, tpickMax))
  }
}
