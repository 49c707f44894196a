/** Finite sums over sequences of exact reals, and the few algebraic facts
    about them that the estimator proofs need. */
module Sums {

  function Sum(s: seq<real>): real
  {
    if |s| == 0 then 0.0 else s[0] + Sum(s[1..])
  }

  lemma SumSingleton(a: real)
    ensures Sum([a]) == a
  {
    assert [a][1..] == [];
  }

  /** `np.mean` of a non-empty array. */
  function Mean(s: seq<real>): real
    requires |s| > 0
  {
    Sum(s) / |s| as real
  }

  /** `np.dot` of two one-dimensional arrays of equal length. */
  function Dot(a: seq<real>, b: seq<real>): real
    requires |a| == |b|
  {
    if |a| == 0 then 0.0 else a[0] * b[0] + Dot(a[1..], b[1..])
  }

  /** The squared deviations `(s - m)**2`, elementwise. */
  function SqDevs(s: seq<real>, m: real): seq<real>
  {
    seq(|s|, i requires 0 <= i < |s| => (s[i] - m) * (s[i] - m))
  }

  lemma SqDevAt(s: seq<real>, m: real, i: nat)
    requires i < |s|
    ensures SqDevs(s, m)[i] == (s[i] - m) * (s[i] - m)
  {
  }

  /** The Bessel-corrected sample variance (`np.var(ddof=1)`), used as the
      reference definition the weighted estimators are compared with. */
  function SampleVariance(s: seq<real>): real
    requires |s| >= 2
  {
    Sum(SqDevs(s, Mean(s))) / (|s| as real - 1.0)
  }

  function Constant(n: nat, c: real): (r: seq<real>)
    ensures |r| == n
    ensures forall i :: 0 <= i < n ==> r[i] == c
  {
    seq(n, _ => c)
  }

  /** Column `b` of a table of rows: `[row[b] for row in rows]`. */
  function Column(rows: seq<seq<real>>, b: nat): (r: seq<real>)
    requires forall t :: 0 <= t < |rows| ==> b < |rows[t]|
    ensures |r| == |rows|
  {
    seq(|rows|, t requires 0 <= t < |rows| => rows[t][b])
  }

  /** The deviations `s - m`, elementwise. */
  function Devs(s: seq<real>, m: real): (r: seq<real>)
    ensures |r| == |s|
    ensures forall i :: 0 <= i < |s| ==> r[i] == s[i] - m
  {
    seq(|s|, i requires 0 <= i < |s| => s[i] - m)
  }

  /** `math.floor` of an exact real. */
  function Floor(x: real): int
  {
    x.Floor
  }

  /** `math.ceil` of an exact real. */
  function Ceil(x: real): (r: int)
    ensures r as real >= x && (r as real) - 1.0 < x
  {
    -((-x).Floor)
  }

  /** Python's `int(x)`: truncation toward zero. */
  function Trunc(x: real): (r: int)
    ensures x >= 0.0 ==> r == x.Floor
    ensures x < 0.0 ==> r == -((-x).Floor)
  {
    if x >= 0.0 then x.Floor else -((-x).Floor)
  }

  /** `r` is the non-negative square root of `x`. */
  predicate IsSqrt(r: real, x: real)
  {
    r >= 0.0 && r * r == x
  }

  /** `root` agrees with `np.sqrt` on the non-negative reals.  Square roots
      are not exact operations on `real`, so functions that take one are
      handed it as a parameter satisfying this predicate. */
  ghost predicate IsRootFunction(root: real -> real)
  {
    forall x :: x >= 0.0 ==> IsSqrt(root(x), x)
  }

  lemma SqrtUnique(a: real, b: real, x: real)
    requires IsSqrt(a, x) && IsSqrt(b, x)
    ensures a == b
  {
    assert (a - b) * (a + b) == a * a - b * b;
    if a + b == 0.0 {
      assert a == 0.0 && b == 0.0;
    }
  }

  /** `sqrt(a*b) == sqrt(a)*sqrt(b)` for non-negative `a` and `b`. */
  lemma SqrtOfProduct(root: real -> real, a: real, b: real)
    requires IsRootFunction(root) && a >= 0.0 && b >= 0.0
    ensures root(a * b) == root(a) * root(b)
  {
    var ra, rb := root(a), root(b);
    assert IsSqrt(ra, a) && IsSqrt(rb, b);
    assert (ra * rb) * (ra * rb) == (ra * ra) * (rb * rb);
    assert ra * rb >= 0.0;
    assert a * b >= 0.0;
    SqrtUnique(root(a * b), ra * rb, a * b);
  }

  lemma {:induction false} SumAppend(a: seq<real>, b: seq<real>)
    ensures Sum(a + b) == Sum(a) + Sum(b)
  {
    if |a| == 0 {
      assert a + b == b;
    } else {
      assert (a + b)[1..] == a[1..] + b;
      SumAppend(a[1..], b);
    }
  }

  lemma {:induction false} SumConstant(s: seq<real>, c: real)
    requires forall i :: 0 <= i < |s| ==> s[i] == c
    ensures Sum(s) == |s| as real * c
  {
    if |s| > 0 {
      SumConstant(s[1..], c);
    }
  }

  lemma {:induction false} SumPositive(s: seq<real>)
    requires |s| > 0
    requires forall i :: 0 <= i < |s| ==> s[i] > 0.0
    ensures Sum(s) > 0.0
  {
    SumNonNegative(s[1..]);
  }

  /** Summing an affine image: `sum(a + b*x) == n*a + b*sum(x)`. */
  lemma {:induction false} SumAffine(x: seq<real>, y: seq<real>, a: real, b: real)
    requires |y| == |x|
    requires forall i :: 0 <= i < |x| ==> y[i] == a + b * x[i]
    ensures Sum(y) == |x| as real * a + b * Sum(x)
  {
    if |x| > 0 {
      SumAffine(x[1..], y[1..], a, b);
    }
  }

  lemma {:induction false} SumNonNegative(s: seq<real>)
    requires forall i :: 0 <= i < |s| ==> s[i] >= 0.0
    ensures Sum(s) >= 0.0
  {
    if |s| > 0 {
      SumNonNegative(s[1..]);
    }
  }

  /** A dot product with a constant vector is that constant times a sum. */
  lemma {:induction false} DotConstant(a: seq<real>, w: seq<real>, c: real)
    requires |a| == |w|
    requires forall i :: 0 <= i < |w| ==> w[i] == c
    ensures Dot(a, w) == c * Sum(a)
  {
    if |a| > 0 {
      DotConstant(a[1..], w[1..], c);
    }
  }

  /** The sum of the elements around position i splits off x[i]. */
  lemma {:induction false} SumSplitAt(x: seq<real>, i: nat)
    requires i < |x|
    ensures Sum(x) == Sum(x[..i] + x[i+1..]) + x[i]
  {
    if i == 0 {
      assert x[..i] + x[i+1..] == x[1..];
    } else {
      var y := x[1..];
      SumSplitAt(y, i - 1);
      var rest := y[..i-1] + y[i..];
      var whole := x[..i] + x[i+1..];
      assert whole[0] == x[0];
      assert whole[1..] == rest;
    }
  }

  lemma {:induction false} DotCommutes(a: seq<real>, b: seq<real>)
    requires |a| == |b|
    ensures Dot(a, b) == Dot(b, a)
  {
    if |a| > 0 {
      DotCommutes(a[1..], b[1..]);
    }
  }

  /** Scaling one factor of a dot product scales the product. */
  lemma {:induction false} DotScale(a: seq<real>, w: seq<real>, v: seq<real>, k: real)
    requires |a| == |w| == |v|
    requires forall i :: 0 <= i < |w| ==> v[i] == k * w[i]
    ensures Dot(a, v) == k * Dot(a, w)
  {
    if |a| > 0 {
      DotScale(a[1..], w[1..], v[1..], k);
      assert a[0] * v[0] == k * (a[0] * w[0]);
    }
  }

  /** A dot product of two non-negative vectors is non-negative. */
  lemma {:induction false} DotNonNegative(a: seq<real>, b: seq<real>)
    requires |a| == |b|
    requires forall i :: 0 <= i < |a| ==> a[i] >= 0.0 && b[i] >= 0.0
    ensures Dot(a, b) >= 0.0
  {
    if |a| > 0 {
      DotNonNegative(a[1..], b[1..]);
      assert a[0] * b[0] >= 0.0;
    }
  }

  /** A vector dotted with itself is its sum of squares. */
  lemma {:induction false} DotSelf(d: seq<real>, q: seq<real>)
    requires |d| == |q| && forall i :: 0 <= i < |q| ==> q[i] == d[i] * d[i]
    ensures Dot(d, d) == Sum(q)
  {
    if |q| > 0 {
      DotSelf(d[1..], q[1..]);
    }
  }

  lemma SqDevsEachNonNegative(s: seq<real>, m: real)
    ensures forall i :: 0 <= i < |s| ==> SqDevs(s, m)[i] >= 0.0
  {
    forall i | 0 <= i < |s|
      ensures SqDevs(s, m)[i] >= 0.0
    {
      SquareNonNegative(s[i] - m);
    }
  }

  lemma SqDevsNonNegative(s: seq<real>, m: real)
    ensures Sum(SqDevs(s, m)) >= 0.0
  {
    forall i | 0 <= i < |s|
      ensures SqDevs(s, m)[i] >= 0.0
    {
      SquareNonNegative(s[i] - m);
    }
    SumNonNegative(SqDevs(s, m));
  }

  lemma SquarePositive(a: real)
    requires a != 0.0
    ensures a * a > 0.0
  {
    if a < 0.0 {
      assert a * a == (-a) * (-a);
    }
  }

  /** Cancelling a non-zero factor. */
  lemma MulCancel(x: real, y: real, z: real)
    requires z != 0.0 && x * z == y * z
    ensures x == y
  {
    assert (x - y) * z == x * z - y * z;
  }

  lemma DivTimes(a: real, b: real)
    requires b != 0.0
    ensures (a / b) * b == a
  {
  }

  /** A quotient is determined by its defining product. */
  lemma DivIs(a: real, b: real, q: real)
    requires b != 0.0 && q * b == a
    ensures a / b == q
  {
    assert (a / b) * b == a;
    MulCancel(a / b, q, b);
  }

  /** The sign of a quotient. */
  lemma DivSign(a: real, b: real)
    requires b != 0.0
    ensures a >= 0.0 && b > 0.0 ==> a / b >= 0.0
    ensures a <= 0.0 && b < 0.0 ==> a / b >= 0.0
    ensures a >= 0.0 && b < 0.0 ==> a / b <= 0.0
    ensures a > 0.0 && b > 0.0 ==> a / b > 0.0
    ensures a < 0.0 && b < 0.0 ==> a / b > 0.0
  {
    assert (a / b) * b == a;
  }

  lemma MulNonZero(a: real, b: real)
    requires a != 0.0 && b != 0.0
    ensures a * b != 0.0
  {
    SquarePositive(a);
    SquarePositive(b);
    assert (a * b) * (a * b) == (a * a) * (b * b);
  }

  lemma PositiveProduct(a: real, b: real)
    requires a > 0.0 && b > 0.0
    ensures a * b > 0.0
  {
  }

  /** `PositiveProduct` for a product already named `d`.  Called with `a`
      and `b` the same variable it proves a square positive, which the
      solver does not manage from `PositiveProduct(a, a)`. */
  lemma ProductPositive(a: real, b: real, d: real)
    requires a > 0.0 && b > 0.0 && d == a * b
    ensures d > 0.0
  {
  }

  lemma SquareNonNegative(a: real)
    ensures a * a >= 0.0
  {
    if a < 0.0 {
      assert a * a == (-a) * (-a);
    }
  }
}
