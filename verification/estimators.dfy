/** Helpers of latqcdtools/statistics/statistics.py: the `reduce_tuple`
    decorator, weighted means and variances, `norm_cov`, and the quantile
    indices of `dev_by_dist`.  Arithmetic is exact: the model works over
    `real`, and a numpy division by zero becomes `Err(NonFinite)`. */
module Estimators {
  import opened Outcomes
  import opened Sums

  // ---------------------------------------------------------------------
  // reduce_tuple
  // ---------------------------------------------------------------------

  /** What a `reduce_tuple`-decorated function is called with: a sequence of
      numbers, or a sequence of tuples of numbers. */
  datatype Sample = Scalars(xs: seq<real>) | Tuples(rows: seq<seq<real>>)

  /** A single result, or one result per tuple component. */
  datatype Reduced<R> = Single(value: R) | PerComponent(values: seq<R>)

  function Size(data: Sample): nat
  {
    match data
    case Scalars(xs) => |xs|
    case Tuples(rows) => |rows|
  }

  /** Every tuple has at least as many components as the first, so that
      `data[k][i]` exists for every `i < len(data[0])`. */
  predicate ComponentsExist(rows: seq<seq<real>>)
    requires |rows| > 0
  {
    forall k :: 0 <= k < |rows| ==> |rows[0]| <= |rows[k]|
  }

  /** `reduce_tuple(func)(data)`: `func` applied to each tuple component in
      turn, or to the data itself when its first element is not a tuple. */
  function ReduceTuple<R>(f: seq<real> -> R, data: Sample): (r: Result<Reduced<R>>)
    ensures Size(data) == 0 ==> r == Err(IndexOutOfRange)
    ensures data.Scalars? && Size(data) > 0 ==> r == Ok(Single(f(data.xs)))
    ensures data.Tuples? && Size(data) > 0 ==> (r.Ok? <==> ComponentsExist(data.rows))
    ensures r.Err? ==> r.error == IndexOutOfRange
    ensures r.Ok? && data.Tuples? ==>
      && r.value.PerComponent?
      && |r.value.values| == |data.rows[0]|
      && forall i :: 0 <= i < |data.rows[0]| ==> r.value.values[i] == f(Column(data.rows, i))
  {
    match data
    case Scalars(xs) =>
      if |xs| == 0 then Err(IndexOutOfRange) else Ok(Single(f(xs)))
    case Tuples(rows) =>
      if |rows| == 0 || !ComponentsExist(rows) then Err(IndexOutOfRange)
      else Ok(PerComponent(seq(|rows[0]|, i requires 0 <= i < |rows[0]| => f(Column(rows, i)))))
  }

  /** Component `i` of a reduced tuple sample is the scalar reduction of the
      `i`-th components. */
  lemma ReduceTupleByComponent<R>(f: seq<real> -> R, rows: seq<seq<real>>, i: nat)
    requires |rows| > 0 && ComponentsExist(rows) && i < |rows[0]|
    ensures ReduceTuple(f, Tuples(rows)).Ok?
    ensures ReduceTuple(f, Scalars(Column(rows, i))) == Ok(Single(ReduceTuple(f, Tuples(rows)).value.values[i]))
  {
  }

  /** One-component tuples reduce to a one-tuple of the scalar result. */
  lemma ReduceTupleOneComponent<R>(f: seq<real> -> R, xs: seq<real>, rows: seq<seq<real>>)
    requires |xs| > 0 && |rows| == |xs|
    requires forall k :: 0 <= k < |rows| ==> rows[k] == [xs[k]]
    ensures ReduceTuple(f, Tuples(rows)) == Ok(PerComponent([ReduceTuple(f, Scalars(xs)).value.value]))
  {
    assert forall t :: 0 <= t < |xs| ==> Column(rows, 0)[t] == xs[t];
    assert Column(rows, 0) == xs;
    var rs := seq(|rows[0]|, i requires 0 <= i < |rows[0]| => f(Column(rows, i)));
    assert rs == [f(xs)];
  }

  // ---------------------------------------------------------------------
  // Weighted means and variances
  // ---------------------------------------------------------------------

  /** `weighted_mean(data, weights) = sum(data . weights) / sum(weights)`. */
  function WeightedMean(data: seq<real>, weights: seq<real>): (r: Result<real>)
    ensures |data| != |weights| ==> r == Err(ShapeMismatch)
    ensures |data| == |weights| ==> (r == Err(NonFinite) <==> Sum(weights) == 0.0)
    ensures r.Ok? ==> r.value * Sum(weights) == Dot(data, weights)
  {
    if |data| != |weights| then Err(ShapeMismatch)
    else if Sum(weights) == 0.0 then Err(NonFinite)
    else Ok(Dot(data, weights) / Sum(weights))
  }

  /** With all weights equal the weighted mean is the arithmetic mean. */
  lemma WeightedMeanEqualWeights(data: seq<real>, weights: seq<real>, c: real)
    requires |data| == |weights| > 0 && c != 0.0
    requires forall i :: 0 <= i < |weights| ==> weights[i] == c
    ensures WeightedMean(data, weights) == Ok(Mean(data))
  {
    DotConstant(data, weights, c);
    SumConstant(weights, c);
    var n := |data| as real;
    MulNonZero(n, c);
    var q := Sum(data) / n;
    assert q * n == Sum(data);
    assert q * (n * c) == (q * n) * c;
    DivIs(c * Sum(data), n * c, q);
    assert Mean(data) == q;
    assert Sum(weights) == n * c;
    assert Dot(data, weights) == c * Sum(data);
    assert Dot(data, weights) / Sum(weights) == q;
    assert WeightedMean(data, weights) == Ok(Dot(data, weights) / Sum(weights));
  }

  /** Only the relative size of the weights matters. */
  lemma WeightedMeanScaleInvariant(data: seq<real>, weights: seq<real>, scaled: seq<real>, k: real)
    requires |data| == |weights| == |scaled| && k != 0.0
    requires forall i :: 0 <= i < |weights| ==> scaled[i] == k * weights[i]
    ensures WeightedMean(data, scaled) == WeightedMean(data, weights)
  {
    DotScale(data, weights, scaled, k);
    SumAffine(weights, scaled, 0.0, k);
    assert Sum(scaled) == k * Sum(weights);
    if Sum(weights) != 0.0 {
      MulNonZero(k, Sum(weights));
      var q := Dot(data, weights) / Sum(weights);
      assert q * Sum(weights) == Dot(data, weights);
      assert q * (k * Sum(weights)) == k * (q * Sum(weights));
      DivIs(k * Dot(data, weights), k * Sum(weights), q);
      assert Dot(data, scaled) / Sum(scaled) == q;
    }
  }

  /** `biased_sample_variance(data, weights)`: the weighted mean of the squared
      deviations from the weighted mean. */
  function BiasedSampleVariance(data: seq<real>, weights: seq<real>): (r: Result<real>)
    ensures r.Err? <==> WeightedMean(data, weights).Err?
    ensures r.Err? ==> r.error == WeightedMean(data, weights).error
    ensures r.Ok? ==> |data| == |weights| && Sum(weights) != 0.0
    ensures r.Ok? ==>
      r.value == WeightedMean(SqDevs(data, WeightedMean(data, weights).value), weights).value
  {
    var mean :- WeightedMean(data, weights);
    var sq := SqDevs(data, mean);
    DotCommutes(weights, sq);
    Ok(Dot(weights, sq) / Sum(weights))
  }

  /** With non-negative weights the biased variance is non-negative. */
  lemma BiasedSampleVarianceNonNegative(data: seq<real>, weights: seq<real>)
    requires forall i :: 0 <= i < |weights| ==> weights[i] >= 0.0
    ensures BiasedSampleVariance(data, weights).Ok? ==> BiasedSampleVariance(data, weights).value >= 0.0
  {
    if BiasedSampleVariance(data, weights).Ok? {
      var sq := SqDevs(data, WeightedMean(data, weights).value);
      SqDevsEachNonNegative(data, WeightedMean(data, weights).value);
      DotNonNegative(weights, sq);
      SumNonNegative(weights);
      DivSign(Dot(weights, sq), Sum(weights));
      DotCommutes(weights, sq);
    }
  }

  /** With equal weights the biased variance divides the squared deviations by n. */
  lemma BiasedEqualWeights(data: seq<real>, weights: seq<real>, c: real)
    requires |data| == |weights| > 0 && c != 0.0
    requires forall i :: 0 <= i < |weights| ==> weights[i] == c
    ensures BiasedSampleVariance(data, weights) == Ok(Sum(SqDevs(data, Mean(data))) / |data| as real)
  {
    WeightedMeanEqualWeights(data, weights, c);
    WeightedMeanEqualWeights(SqDevs(data, Mean(data)), weights, c);
  }

  /** `V1 = sum(weights)`. */
  function V1(weights: seq<real>): real
  {
    Sum(weights)
  }

  /** `V2 = sum(weights**2)`. */
  function V2(weights: seq<real>): real
  {
    Dot(weights, weights)
  }

  /** `V1**2 - V2`, the denominator of `unbiased_mean_variance`. */
  function MeanVarianceDenominator(weights: seq<real>): real
  {
    V1(weights) * V1(weights) - V2(weights)
  }

  /** `V2 / V1**2`, the correction term of the unbiased estimators. */
  function WeightRatio(weights: seq<real>): real
    requires V1(weights) != 0.0
  {
    V2(weights) / V1(weights) / V1(weights)
  }

  /** `unbiased_sample_variance(data, weights)`: the biased variance divided
      by `1 - V2/V1**2`. */
  function UnbiasedSampleVariance(data: seq<real>, weights: seq<real>): (r: Result<real>)
    ensures BiasedSampleVariance(data, weights).Err? ==> r == Err(BiasedSampleVariance(data, weights).error)
    ensures BiasedSampleVariance(data, weights).Ok? ==> (r.Err? <==> WeightRatio(weights) == 1.0)
    ensures r.Err? ==> r.error == NonFinite || r.error == ShapeMismatch
    ensures r.Ok? ==> r.value * (1.0 - WeightRatio(weights)) == BiasedSampleVariance(data, weights).value
  {
    var biased :- BiasedSampleVariance(data, weights);
    var denom := 1.0 - WeightRatio(weights);
    if denom == 0.0 then Err(NonFinite)
    else
      DivTimes(biased, denom);
      Ok(biased / denom)
  }

  lemma EqualWeightSums(weights: seq<real>, c: real)
    requires |weights| > 0 && c != 0.0
    requires forall i :: 0 <= i < |weights| ==> weights[i] == c
    ensures V1(weights) == |weights| as real * c
    ensures V2(weights) == c * V1(weights)
    ensures V1(weights) != 0.0 && WeightRatio(weights) == 1.0 / |weights| as real
  {
    var n := |weights| as real;
    SumConstant(weights, c);
    DotConstant(weights, weights, c);
    MulNonZero(n, c);
    var k := n * c;
    DivIs(c * k, k, c);
    var q := 1.0 / n;
    assert q * n == 1.0;
    assert q * k == (q * n) * c;
    DivIs(c, k, q);
    assert V2(weights) / V1(weights) == c;
    assert WeightRatio(weights) == c / k;
  }

  /** With equal weights the unbiased weighted variance is the ordinary
      Bessel-corrected sample variance. */
  lemma UnbiasedEqualWeights(data: seq<real>, weights: seq<real>, c: real)
    requires |data| == |weights| >= 2 && c != 0.0
    requires forall i :: 0 <= i < |weights| ==> weights[i] == c
    ensures UnbiasedSampleVariance(data, weights) == Ok(SampleVariance(data))
  {
    BiasedEqualWeights(data, weights, c);
    EqualWeightSums(weights, c);
    BesselAlgebra(Sum(SqDevs(data, Mean(data))), |data| as real);
  }

  lemma BesselAlgebra(s: real, n: real)
    requires n >= 2.0
    ensures 1.0 - 1.0 / n != 0.0
    ensures (s / n) / (1.0 - 1.0 / n) == s / (n - 1.0)
  {
    assert 1.0 - 1.0 / n == (n - 1.0) / n;
  }

  /** A single measurement has no unbiased variance: the correction divides by zero. */
  lemma UnbiasedSingleMeasurement(x: real, w: real)
    requires w != 0.0
    ensures UnbiasedSampleVariance([x], [w]) == Err(NonFinite)
  {
    EqualWeightSums([w], w);
    assert WeightedMean([x], [w]).Ok?;
  }

  /** `unbiased_mean_variance(data, weights)`: the biased variance times
      `V2 / (V1**2 - V2)`. */
  function UnbiasedMeanVariance(data: seq<real>, weights: seq<real>): (r: Result<real>)
    ensures BiasedSampleVariance(data, weights).Err? ==> r == Err(BiasedSampleVariance(data, weights).error)
    ensures BiasedSampleVariance(data, weights).Ok? ==>
      (r.Err? <==> MeanVarianceDenominator(weights) == 0.0)
    ensures r.Ok? ==>
      r.value * MeanVarianceDenominator(weights) == BiasedSampleVariance(data, weights).value * V2(weights)
  {
    match BiasedSampleVariance(data, weights)
    case Err(e) => Err(e)
    case Ok(biased) =>
      var denom := MeanVarianceDenominator(weights);
      if denom == 0.0 then Err(NonFinite)
      else
        DivTimes(biased * V2(weights), denom);
        Ok(biased * V2(weights) / denom)
  }

  /** With equal weights the unbiased mean variance is the squared standard
      error of the mean, `var(data, ddof=1) / n`. */
  lemma UnbiasedMeanVarianceEqualWeights(data: seq<real>, weights: seq<real>, c: real)
    requires |data| == |weights| >= 2 && c != 0.0
    requires forall i :: 0 <= i < |weights| ==> weights[i] == c
    ensures UnbiasedMeanVariance(data, weights) == Ok(SampleVariance(data) / |data| as real)
  {
    var s, n := Sum(SqDevs(data, Mean(data))), |data| as real;
    BiasedEqualWeights(data, weights, c);
    EqualWeightsMeanVariance(data, weights, c, s / n);
    SwapDivisions(UnbiasedMeanVariance(data, weights).value, s / n, s, n);
  }

  /** With `n >= 2` equal weights, `unbiased_mean_variance` is the biased
      variance over `n - 1`. */
  lemma EqualWeightsMeanVariance(data: seq<real>, weights: seq<real>, c: real, b: real)
    requires |weights| >= 2 && c != 0.0
    requires forall i :: 0 <= i < |weights| ==> weights[i] == c
    requires BiasedSampleVariance(data, weights).Ok? && BiasedSampleVariance(data, weights).value == b
    ensures UnbiasedMeanVariance(data, weights).Ok?
    ensures UnbiasedMeanVariance(data, weights).value == b / (|weights| as real - 1.0)
  {
    EqualWeightsCorrection(weights, c, b);
    UnbiasedMeanVarianceValue(data, weights);
  }

  /** The value of `unbiased_mean_variance` when nothing fails. */
  lemma UnbiasedMeanVarianceValue(data: seq<real>, weights: seq<real>)
    requires BiasedSampleVariance(data, weights).Ok?
    requires MeanVarianceDenominator(weights) != 0.0
    ensures UnbiasedMeanVariance(data, weights).Ok?
    ensures UnbiasedMeanVariance(data, weights).value ==
      BiasedSampleVariance(data, weights).value * V2(weights) / MeanVarianceDenominator(weights)
  {
  }

  /** With `n >= 2` equal weights the factor `V2 / (V1**2 - V2)` is `1 / (n - 1)`. */
  lemma EqualWeightsCorrection(weights: seq<real>, c: real, b: real)
    requires |weights| >= 2 && c != 0.0
    requires forall i :: 0 <= i < |weights| ==> weights[i] == c
    ensures MeanVarianceDenominator(weights) != 0.0
    ensures b * V2(weights) / MeanVarianceDenominator(weights) == b / (|weights| as real - 1.0)
  {
    EqualWeightSums(weights, c);
    DenominatorOf(weights, V1(weights), V2(weights));
    CorrectionAlgebra(b, |weights| as real, c, V1(weights), V2(weights), MeanVarianceDenominator(weights));
  }

  lemma DenominatorOf(weights: seq<real>, v1: real, v2: real)
    requires v1 == V1(weights) && v2 == V2(weights)
    ensures MeanVarianceDenominator(weights) == v1 * v1 - v2
  {
  }

  lemma CorrectionAlgebra(b: real, n: real, c: real, k: real, v2: real, denom: real)
    requires n >= 2.0 && c != 0.0 && k == n * c && v2 == c * k && denom == k * k - v2
    ensures denom != 0.0
    ensures b * v2 / denom == b / (n - 1.0)
  {
    assert denom == k * (c * (n - 1.0));
    MulNonZero(n, c);
    MulNonZero(c, n - 1.0);
    MulNonZero(k, c * (n - 1.0));
    var q := b / (n - 1.0);
    assert q * (n - 1.0) == b;
    assert q * denom == (q * (n - 1.0)) * (k * c);
    DivIs(b * v2, denom, q);
  }

  lemma SwapDivisions(u: real, b: real, s: real, n: real)
    requires n >= 2.0 && b == s / n && u == b / (n - 1.0)
    ensures u == s / (n - 1.0) / n
  {
    DivSwap(s, n, n - 1.0);
  }

  /** Dividing by two non-zero numbers in either order. */
  lemma DivSwap(s: real, a: real, b: real)
    requires a != 0.0 && b != 0.0
    ensures (s / a) / b == (s / b) / a
  {
    MulNonZero(a, b);
    var q := s / (a * b);
    assert q * (a * b) == s;
    assert (q * b) * a == s;
    DivIs(s, a, q * b);
    DivIs(s / a, b, q);
    assert (q * a) * b == s;
    DivIs(s, b, q * a);
    DivIs(s / b, a, q);
  }

  lemma EqualWeightAlgebra(t: real, e2: real, n: real, c: real, k: real)
    requires n > 0.0 && c != 0.0 && k == n * c && t == (c * c) * e2
    ensures k != 0.0
    ensures t / k / k == e2 / n / n
  {
    MulNonZero(n, c);
    var q1 := c * (e2 / n);
    assert (e2 / n) * n == e2;
    assert q1 * k == (c * c) * ((e2 / n) * n);
    DivIs(t, k, q1);
    var q2 := e2 / n / n;
    assert q2 * n == e2 / n;
    assert q2 * k == (q2 * n) * c;
    DivIs(q1, k, q2);
  }
  /** Elementwise squares `s**2`. */
  function Squares(s: seq<real>): (r: seq<real>)
    ensures |r| == |s|
  {
    seq(|s|, i requires 0 <= i < |s| => s[i] * s[i])
  }

  /** The default weights `1 / errors**2`. */
  function InverseVariances(errors: seq<real>): (r: seq<real>)
    requires forall i :: 0 <= i < |errors| ==> errors[i] != 0.0
    ensures |r| == |errors|
    ensures forall i :: 0 <= i < |errors| ==> r[i] > 0.0 && r[i] * (errors[i] * errors[i]) == 1.0
  {
    var r := seq(|errors|, i requires 0 <= i < |errors| => 1.0 / errors[i] / errors[i]);
    assert forall i :: 0 <= i < |errors| ==> r[i] > 0.0 && r[i] * (errors[i] * errors[i]) == 1.0 by {
      forall i | 0 <= i < |errors|
        ensures r[i] > 0.0 && r[i] * (errors[i] * errors[i]) == 1.0
      {
        InverseSquare(errors[i]);
      }
    }
    r
  }

  lemma InverseSquare(e: real)
    requires e != 0.0
    ensures 1.0 / e / e > 0.0
    ensures (1.0 / e / e) * (e * e) == 1.0
  {
    DivSign(1.0, e);
    DivSign(1.0 / e, e);
    var w := 1.0 / e / e;
    assert w * e == 1.0 / e;
    assert (1.0 / e) * e == 1.0;
    assert w * (e * e) == (w * e) * e;
  }

  /** `weights**2 * errors**2`, elementwise. */
  function WeightedSquares(w: seq<real>, errors: seq<real>): (r: seq<real>)
    requires |w| == |errors|
    ensures |r| == |w|
    ensures forall i :: 0 <= i < |w| ==> r[i] == (w[i] * w[i]) * (errors[i] * errors[i]) && r[i] >= 0.0
  {
    var r := seq(|w|, i requires 0 <= i < |w| => (w[i] * w[i]) * (errors[i] * errors[i]));
    assert forall i :: 0 <= i < |w| ==> r[i] >= 0.0 by {
      forall i | 0 <= i < |w|
        ensures r[i] >= 0.0
      {
        SquareNonNegative(w[i]);
        SquareNonNegative(errors[i]);
      }
    }
    r
  }

  /** The common length numpy broadcasts two one-dimensional operands to:
      equal lengths, or a length-1 operand stretched to the other's length;
      anything else raises `ValueError`. */
  function BroadcastLength(a: nat, b: nat): (r: Option<nat>)
    ensures r.Some? <==> a == b || a == 1 || b == 1
    ensures r.Some? ==> (r.value == a || a == 1) && (r.value == b || b == 1)
  {
    if a == b then Some(a) else if a == 1 then Some(b) else if b == 1 then Some(a) else None
  }

  /** A one-dimensional operand stretched to length `n`. */
  function Broadcast(s: seq<real>, n: nat): (r: seq<real>)
    requires |s| == n || |s| == 1
    ensures |r| == n
    ensures forall i :: 0 <= i < n ==> r[i] == if |s| == n then s[i] else s[0]
  {
    if |s| == n then s else Constant(n, s[0])
  }

  /** `weighted_mean_variance(errors, weights)`:
      `sum(weights**2 * errors**2) / sum(weights)**2`, with inverse-variance
      weights when none are given.  The elementwise product broadcasts a
      length-1 operand; the denominator sums the weights as passed. */
  function WeightedMeanVariance(errors: seq<real>, weights: Option<seq<real>>): (r: Result<real>)
    ensures weights.None? && (exists i :: 0 <= i < |errors| && errors[i] == 0.0) ==> r == Err(NonFinite)
    ensures weights.Some? && BroadcastLength(|weights.value|, |errors|).None? ==> r == Err(ShapeMismatch)
    ensures weights.Some? && BroadcastLength(|weights.value|, |errors|).Some? ==> (r.Ok? <==> Sum(weights.value) != 0.0)
    ensures weights.None? && (forall i :: 0 <= i < |errors| ==> errors[i] != 0.0) ==> (r.Ok? <==> |errors| > 0)
    ensures r.Ok? ==> r.value >= 0.0
  {
    if weights.None? && exists i :: 0 <= i < |errors| && errors[i] == 0.0 then Err(NonFinite)
    else
      var w := if weights.Some? then weights.value else InverseVariances(errors);
      match BroadcastLength(|w|, |errors|)
      case None => Err(ShapeMismatch)
      case Some(n) =>
        if weights.None? && |errors| > 0 then SumPositive(w); assert Sum(w) != 0.0; MeanVarianceResult(errors, w, n)
        else MeanVarianceResult(errors, w, n)
  }

  /** The broadcast quotient, or the NaN case of a zero weight sum. */
  function MeanVarianceResult(errors: seq<real>, w: seq<real>, n: nat): (r: Result<real>)
    requires BroadcastLength(|w|, |errors|) == Some(n)
    ensures r.Err? <==> Sum(w) == 0.0
    ensures r.Err? ==> r.error == NonFinite
    ensures r.Ok? ==> r.value >= 0.0 && r.value == MeanVarianceFrom(Broadcast(errors, n), Broadcast(w, n), Sum(w))
  {
        if Sum(w) == 0.0 then Err(NonFinite)
        else Ok(MeanVarianceFrom(Broadcast(errors, n), Broadcast(w, n), Sum(w)))
  }

  /** `sum(w**2 * errors**2) / v1**2` for the broadcast operands and the
      weight sum `v1`. */
  function MeanVarianceFrom(errors: seq<real>, w: seq<real>, v1: real): (r: real)
    requires |w| == |errors| && v1 != 0.0
    ensures r >= 0.0
  {
    var s := Sum(WeightedSquares(w, errors));
    SumNonNegative(WeightedSquares(w, errors));
    DivSign(s, v1);
    DivSign(s / v1, v1);
    s / v1 / v1
  }

  /** A single weight broadcast over all the errors cancels: the result is
      `sum(errors**2)` whatever the weight. */
  lemma WeightedMeanVarianceSingleWeight(errors: seq<real>, c: real)
    requires c != 0.0
    ensures WeightedMeanVariance(errors, Some([c])).Ok?
    ensures WeightedMeanVariance(errors, Some([c])).value == Sum(Squares(errors))
  {
    var n := |errors|;
    var w := Broadcast([c], n);
    var e := Broadcast(errors, n);
    assert e == errors;
    SumSingleton(c);
    assert BroadcastLength(1, n) == Some(n);
    EqualWeightTerms(errors, w, c);
    CancelSquare(Sum(WeightedSquares(w, errors)), Sum(Squares(errors)), c);
    assert MeanVarianceFrom(e, w, c) == Sum(WeightedSquares(w, errors)) / c / c;
    var r := MeanVarianceResult(errors, [c], n);
    assert r.Ok? && r.value == Sum(Squares(errors));
  }

  /** `(c*c)*s / c / c == s`. */
  lemma CancelSquare(t: real, s: real, c: real)
    requires c != 0.0 && t == (c * c) * s
    ensures t / c / c == s
  {
    DivIs(t, c, c * s);
    DivIs(c * s, c, s);
  }

  /** With the default inverse-variance weights the variance of the weighted
      mean is `1 / sum(1/errors**2)`. */
  lemma WeightedMeanVarianceInverse(errors: seq<real>)
    requires |errors| > 0
    requires forall i :: 0 <= i < |errors| ==> errors[i] != 0.0
    ensures Sum(InverseVariances(errors)) > 0.0
    ensures WeightedMeanVariance(errors, None) == Ok(1.0 / Sum(InverseVariances(errors)))
  {
    var w := InverseVariances(errors);
    var terms := WeightedSquares(w, errors);
    forall i | 0 <= i < |w|
      ensures terms[i] == w[i]
    {
      assert (w[i] * w[i]) * (errors[i] * errors[i]) == w[i] * (w[i] * (errors[i] * errors[i]));
    }
    assert terms == w;
    SumPositive(w);
    DivIs(Sum(w), Sum(w), 1.0);
  }

  /** With equal weights it is `sum(errors**2) / n**2`, the variance of the
      plain mean of independent measurements. */
  lemma WeightedMeanVarianceEqualWeights(errors: seq<real>, weights: seq<real>, c: real)
    requires |errors| == |weights| > 0 && c != 0.0
    requires forall i :: 0 <= i < |weights| ==> weights[i] == c
    ensures WeightedMeanVariance(errors, Some(weights)) ==
      Ok(Sum(Squares(errors)) / |errors| as real / |errors| as real)
  {
    var n := |errors| as real;
    var terms := WeightedSquares(weights, errors);
    SumConstant(weights, c);
    EqualWeightTerms(errors, weights, c);
    EqualWeightAlgebra(Sum(terms), Sum(Squares(errors)), n, c, Sum(weights));
    assert MeanVarianceFrom(errors, weights, Sum(weights)) == Sum(terms) / Sum(weights) / Sum(weights);
  }

  lemma EqualWeightTerms(errors: seq<real>, weights: seq<real>, c: real)
    requires |errors| == |weights|
    requires forall i :: 0 <= i < |weights| ==> weights[i] == c
    ensures Sum(WeightedSquares(weights, errors)) == (c * c) * Sum(Squares(errors))
  {
    var terms := WeightedSquares(weights, errors);
    forall i | 0 <= i < |errors|
      ensures terms[i] == 0.0 + (c * c) * Squares(errors)[i]
    {
      assert weights[i] == c;
    }
    SumAffine(Squares(errors), terms, 0.0, c * c);
  }



  // ---------------------------------------------------------------------
  // norm_cov
  // ---------------------------------------------------------------------

  /** Every entry `norm_cov` reads exists: `cov[i][j]` for every row `i` and
      every column `j < len(cov[0])`, and the diagonal entries `cov[i][i]`
      and `cov[j][j]`. */
  predicate NormCovReadable(cov: seq<seq<real>>)
    requires |cov| > 0
  {
    |cov[0]| == 0 ||
    (|cov[0]| <= |cov| && forall i :: 0 <= i < |cov| ==> |cov[0]| <= |cov[i]| && i < |cov[i]|)
  }

  /** Some entry of `norm_cov` divides by the square root of a product of
      diagonal entries that is zero (infinity) or negative (NaN). */
  predicate NormCovSingular(cov: seq<seq<real>>)
    requires |cov| > 0 && NormCovReadable(cov)
  {
    exists i, j :: 0 <= i < |cov| && 0 <= j < |cov[0]| && cov[j][j] * cov[i][i] <= 0.0
  }

  /** One entry of the correlation matrix: `c / sqrt(dj * di)`. */
  function Correlation(c: real, dj: real, di: real, root: real -> real): real
    requires IsRootFunction(root) && dj * di > 0.0
  {
    assert IsSqrt(root(dj * di), dj * di);
    c / root(dj * di)
  }

  /** `c / sqrt(c*c)` is the sign of `c`. */
  lemma UnitDiagonal(root: real -> real, c: real)
    requires IsRootFunction(root) && c != 0.0
    ensures c * c > 0.0
    ensures Correlation(c, c, c, root) == if c > 0.0 then 1.0 else -1.0
  {
    SquarePositive(c);
    assert IsSqrt(root(c * c), c * c);
    assert IsSqrt(Abs(c), c * c);
    SqrtUnique(root(c * c), Abs(c), c * c);
    if c > 0.0 {
      DivIs(c, c, 1.0);
    } else {
      DivIs(c, -c, -1.0);
    }
  }

  /** `norm_cov(cov)`: the correlation matrix
      `cov[i][j] / sqrt(cov[j][j] * cov[i][i])`, with `root` as `np.sqrt`. */
  function NormCov(cov: seq<seq<real>>, root: real -> real): (r: Result<seq<seq<real>>>)
    requires IsRootFunction(root)
    ensures |cov| == 0 ==> r == Err(IndexOutOfRange)
    ensures |cov| > 0 && !NormCovReadable(cov) ==> r == Err(IndexOutOfRange)
    ensures r == Err(NonFinite) <==> |cov| > 0 && NormCovReadable(cov) && NormCovSingular(cov)
    ensures r.Ok? ==> |r.value| == |cov| && forall i :: 0 <= i < |cov| ==> |r.value[i]| == |cov[0]|
    ensures r.Ok? ==> forall i :: 0 <= i < |cov| && i < |cov[0]| ==>
      r.value[i][i] == if cov[i][i] > 0.0 then 1.0 else -1.0
  {
    if |cov| == 0 || !NormCovReadable(cov) then Err(IndexOutOfRange)
    else if NormCovSingular(cov) then Err(NonFinite)
    else Ok(Correlations(cov, root))
  }

  /** The body of `norm_cov` once every read is in range and every
      denominator is positive. */
  function Correlations(cov: seq<seq<real>>, root: real -> real): (r: seq<seq<real>>)
    requires IsRootFunction(root) && |cov| > 0 && NormCovReadable(cov) && !NormCovSingular(cov)
    ensures |r| == |cov| && forall i :: 0 <= i < |cov| ==> |r[i]| == |cov[0]|
    ensures forall i, j :: 0 <= i < |cov| && 0 <= j < |cov[0]| ==>
      r[i][j] == Correlation(cov[i][j], cov[j][j], cov[i][i], root)
    ensures forall i :: 0 <= i < |cov| && i < |cov[0]| ==> r[i][i] == if cov[i][i] > 0.0 then 1.0 else -1.0
  {
    var n := |cov[0]|;
    var r := seq(|cov|, i requires 0 <= i < |cov| =>
      seq(n, j requires 0 <= j < n => Correlation(cov[i][j], cov[j][j], cov[i][i], root)));
    assert forall i :: 0 <= i < |cov| && i < n ==> r[i][i] == if cov[i][i] > 0.0 then 1.0 else -1.0 by {
      forall i | 0 <= i < |cov| && i < n
        ensures r[i][i] == if cov[i][i] > 0.0 then 1.0 else -1.0
      {
        assert cov[i][i] * cov[i][i] > 0.0;
        UnitDiagonal(root, cov[i][i]);
      }
    }
    r
  }

  predicate Symmetric(m: seq<seq<real>>)
  {
    forall i, j :: 0 <= i < |m| && 0 <= j < |m| ==> j < |m[i]| && i < |m[j]| && m[i][j] == m[j][i]
  }

  /** The correlation matrix of a symmetric covariance matrix is symmetric. */
  lemma NormCovSymmetric(cov: seq<seq<real>>, root: real -> real)
    requires IsRootFunction(root) && Symmetric(cov)
    requires NormCov(cov, root).Ok?
    requires |cov[0]| == |cov|
    ensures Symmetric(NormCov(cov, root).value)
  {
    var r := NormCov(cov, root).value;
    assert r == Correlations(cov, root);
    forall i, j | 0 <= i < |r| && 0 <= j < |r|
      ensures r[i][j] == r[j][i]
    {
      assert cov[j][j] * cov[i][i] == cov[i][i] * cov[j][j];
    }
  }

  // ---------------------------------------------------------------------
  // dev_by_dist
  // ---------------------------------------------------------------------

  /** The sorted positions `dev_by_dist` reads as the lower and upper
      quantile of `numb_data` values for the given percentile:
      `max(floor(m - p/100*m), 0)` and `min(ceil(m + p/100*m), n - 1)` with
      `m = (n - 1)/2`. */
  function DevByDistIndices(numbData: int, percentile: real): (r: (int, int))
    ensures numbData >= 1 && percentile >= 0.0 ==> 0 <= r.0 <= r.1 <= numbData - 1
    ensures numbData >= 1 && percentile >= 0.0 ==>
      r.0 as real <= (numbData - 1) as real / 2.0 <= r.1 as real
  {
    var m := (numbData - 1) as real / 2.0;
    var d := percentile / 100.0 * (numbData - 1) as real / 2.0;
    var dn := Floor(m - d);
    var up := Ceil(m + d);
    assert numbData >= 1 && percentile >= 0.0 ==> percentile / 100.0 * (numbData - 1) as real >= 0.0;
    (if dn > 0 then dn else 0, if up < numbData - 1 then up else numbData - 1)
  }

  /** The full percentile reads the smallest and the largest value. */
  lemma DevByDistFullRange(numbData: int)
    requires numbData >= 1
    ensures DevByDistIndices(numbData, 100.0) == (0, numbData - 1)
  {
  }

  /** The zero percentile reads the median position(s). */
  lemma DevByDistMedian(numbData: int)
    requires numbData >= 1
    ensures DevByDistIndices(numbData, 0.0) == ((numbData - 1) / 2, numbData / 2)
  {
    var m := (numbData - 1) as real / 2.0;
    if numbData % 2 == 1 {
      assert m == ((numbData - 1) / 2) as real;
    } else {
      assert m == ((numbData - 1) / 2) as real + 0.5;
    }
  }
}
