/**
 * The statistics engine: per-variant aggregation of the daily result rows, the
 * Wilson score interval, the two-proportion z-test against the control with the
 * Abramowitz and Stegun 7.1.26 approximation of the normal CDF, the uplift, and
 * the closed-form sample size.
 *
 * Arithmetic is over the reals. `Math.sqrt` and `Math.exp` are parameters
 * (`MathLib`) of which only the sign of the result is known; what is proved is
 * the structure of the computation, not its numeric accuracy. The NaN the
 * engine produces is modelled explicitly by `Float`: the p-value of a
 * comparison with a zero-trial side, and the square root of a negative
 * argument, which a row with more conversions than users can cause.
 */
module Statistics {
  import opened Wrappers
  import opened Domain

  type NonNeg = r: real | 0.0 <= r
  type Pos = r: real | 0.0 < r witness 1.0

  /** `Math.sqrt` (on the non-negative arguments the engine gives it) and `Math.exp`. */
  datatype MathLib = MathLib(sqrt: NonNeg -> NonNeg, exp: real -> Pos)

  /** The only fact about `Math.sqrt` the engine needs: the square root of 2 is positive. */
  predicate SqrtTwoPositive(m: MathLib) {
    m.sqrt(2.0) > 0.0
  }

  /**
   * An exact square root: the extra fact under which the interval is proved
   * to contain the observed rate.
   */
  ghost predicate SqrtExact(m: MathLib) {
    forall x: real :: 0.0 <= x ==> m.sqrt(x) * m.sqrt(x) == x
  }

  /** A double that is either a number or NaN. */
  datatype Float = Num(value: real) | NaN

  /** The bounds of a confidence interval; `Math.max` and `Math.min` turn a NaN bound into NaN. */
  datatype Interval = Interval(lower: Float, upper: Float)

  /** What a non-control variant carries relative to the control. */
  datatype Comparison = Comparison(pValue: Float, isSignificant: bool, uplift: real)

  datatype StatResult = StatResult(
    variantId: string,
    variantName: string,
    sampleSize: int,
    conversions: int,
    conversionRate: real,
    confidenceInterval: Interval,
    comparison: Option<Comparison>)

  const Z: real := 1.96
  const SignificanceLevel: real := 0.05

  // ---------------------------------------------------------------------
  // Aggregation
  // ---------------------------------------------------------------------

  /** The sum of `uniqueUsers` over the rows of one variant. */
  function SumUsers(rows: seq<ResultRow>, variantId: string): int {
    if rows == [] then 0
    else (if rows[0].variantId == variantId then rows[0].uniqueUsers else 0) + SumUsers(rows[1..], variantId)
  }

  /** The sum of `conversions` over the rows of one variant. */
  function SumConversions(rows: seq<ResultRow>, variantId: string): int {
    if rows == [] then 0
    else (if rows[0].variantId == variantId then rows[0].conversions else 0) + SumConversions(rows[1..], variantId)
  }

  /**
   * The rows the results table can hold: counts start at 0 and only grow.
   * (The only writer, `updateExperimentResults`, keeps `uniqueUsers` at 0 and
   * only increments `conversions`; see `Tracking.UpsertKeepsNoUsers`.)
   */
  predicate NonNegRows(rows: seq<ResultRow>) {
    forall i :: 0 <= i < |rows| ==> 0 <= rows[i].conversions && 0 <= rows[i].uniqueUsers
  }

  /** Summing rows with non-negative counts gives non-negative totals. */
  lemma {:induction false} SumsNonNeg(rows: seq<ResultRow>, variantId: string)
    requires NonNegRows(rows)
    ensures 0 <= SumConversions(rows, variantId) && 0 <= SumUsers(rows, variantId)
  {
    if rows != [] {
      assert NonNegRows(rows[1..]) by {
        forall i | 0 <= i < |rows[1..]| ensures 0 <= rows[1..][i].conversions && 0 <= rows[1..][i].uniqueUsers {
          assert rows[1..][i] == rows[i + 1];
        }
      }
      SumsNonNeg(rows[1..], variantId);
    }
  }

  /** Rows that never count a user give a variant no users, whatever the conversions. */
  lemma {:induction false} SumsWithoutUsers(rows: seq<ResultRow>, variantId: string)
    requires forall i :: 0 <= i < |rows| ==> rows[i].uniqueUsers == 0
    ensures SumUsers(rows, variantId) == 0
  {
    if rows != [] {
      assert forall i :: 0 <= i < |rows[1..]| ==> rows[1..][i].uniqueUsers == 0 by {
        forall i | 0 <= i < |rows[1..]| ensures rows[1..][i].uniqueUsers == 0 {
          assert rows[1..][i] == rows[i + 1];
        }
      }
      SumsWithoutUsers(rows[1..], variantId);
    }
  }

  /** Rows in which conversions never exceed users. */
  predicate WellFormedRows(rows: seq<ResultRow>) {
    forall i :: 0 <= i < |rows| ==> 0 <= rows[i].conversions <= rows[i].uniqueUsers
  }

  /** Summing a well-formed feed keeps it well formed: 0 <= conversions <= users. */
  lemma {:induction false} SumsWellFormed(rows: seq<ResultRow>, variantId: string)
    requires WellFormedRows(rows)
    ensures 0 <= SumConversions(rows, variantId) <= SumUsers(rows, variantId)
  {
    if rows != [] {
      assert WellFormedRows(rows[1..]) by {
        forall i | 0 <= i < |rows[1..]| ensures 0 <= rows[1..][i].conversions <= rows[1..][i].uniqueUsers {
          assert rows[1..][i] == rows[i + 1];
        }
      }
      SumsWellFormed(rows[1..], variantId);
    }
  }

  /** Sums split over a concatenation of feeds (so the order of the rows does not matter). */
  lemma {:induction false} SumsAppend(a: seq<ResultRow>, b: seq<ResultRow>, variantId: string)
    ensures SumUsers(a + b, variantId) == SumUsers(a, variantId) + SumUsers(b, variantId)
    ensures SumConversions(a + b, variantId) == SumConversions(a, variantId) + SumConversions(b, variantId)
  {
    if a != [] {
      assert (a + b)[1..] == a[1..] + b;
      SumsAppend(a[1..], b, variantId);
    } else {
      assert a + b == b;
    }
  }

  /** Rows of other variants contribute nothing. */
  lemma {:induction false} SumsIgnoreOtherVariants(rows: seq<ResultRow>, variantId: string)
    requires forall i :: 0 <= i < |rows| ==> rows[i].variantId != variantId
    ensures SumUsers(rows, variantId) == 0 && SumConversions(rows, variantId) == 0
  {
    if rows != [] {
      SumsIgnoreOtherVariants(rows[1..], variantId);
    }
  }

  /** conversions / totalUsers, or 0 with no users. */
  function ConversionRate(conversions: int, users: int): (r: real)
    ensures users <= 0 ==> r == 0.0
    ensures users > 0 ==> r * users as real == conversions as real
    ensures 0 <= conversions <= users ==> 0.0 <= r <= 1.0
  {
    if users > 0 then conversions as real / users as real else 0.0
  }

  // ---------------------------------------------------------------------
  // Wilson score interval
  // ---------------------------------------------------------------------

  /** The Wilson denominator 1 + z^2 / n. */
  function WilsonDenominator(trials: int): (d: real)
    requires trials > 0
    ensures d > 1.0
  {
    QuotientPositive(Z * Z, trials as real);
    1.0 + (Z * Z) / trials as real
  }

  /** The Wilson centre (phat + z^2/2n) / (1 + z^2/n) of a proportion with n > 0 trials. */
  function WilsonCentre(successes: int, trials: int): real
    requires trials > 0
  {
    var n := trials as real;
    var phat := successes as real / n;
    (phat + (Z * Z) / (2.0 * n)) / WilsonDenominator(trials)
  }

  /** phat (1 - phat) / n + z^2 / 4n^2, the argument of the square root. */
  function WilsonTerm(successes: int, trials: int): real
    requires trials > 0
  {
    var n := trials as real;
    var phat := successes as real / n;
    (phat * (1.0 - phat) / n) + (Z * Z) / (4.0 * n * n)
  }

  /** For 0 <= successes <= trials the argument of the square root is not negative. */
  lemma WilsonTermNonNeg(successes: int, trials: int)
    requires 0 <= successes <= trials && trials > 0
    ensures 0.0 <= WilsonTerm(successes, trials)
  {
    var n := trials as real;
    var phat := successes as real / n;
    RatioInUnit(successes as real, n);
    ProductNonNeg(phat, 1.0 - phat);
    QuotientNonNeg(phat * (1.0 - phat), n);
    ProductPositive(4.0 * n, n);
    QuotientPositive(Z * Z, 4.0 * n * n);
  }

  /** The half-width z sqrt(term) / (1 + z^2/n), where the term is not negative. */
  function HalfWidth(m: MathLib, successes: int, trials: int): (hw: real)
    requires trials > 0 && 0.0 <= WilsonTerm(successes, trials)
    ensures 0.0 <= hw
  {
    QuotientNonNeg(Z * m.sqrt(WilsonTerm(successes, trials)), WilsonDenominator(trials));
    (Z * m.sqrt(WilsonTerm(successes, trials))) / WilsonDenominator(trials)
  }

  /** `Math.max(0, x)`. */
  function AtLeastZero(x: real): (r: real)
    ensures 0.0 <= r && x <= r && (r == 0.0 || r == x)
  {
    if 0.0 >= x then 0.0 else x
  }

  /** `Math.min(1, x)`. */
  function AtMostOne(x: real): (r: real)
    ensures r <= 1.0 && r <= x && (r == 1.0 || r == x)
  {
    if 1.0 <= x then 1.0 else x
  }

  /**
   * `calculateConfidenceInterval(successes, trials)` at 95% confidence: {0, 0}
   * without trials; NaN bounds when the square root's argument is negative
   * (possible only with more successes than trials); otherwise the centre
   * minus and plus the half-width, clamped to [0, 1].
   */
  function ConfidenceInterval(m: MathLib, successes: int, trials: int): (ci: Interval)
    requires 0 <= successes && 0 <= trials
    ensures trials == 0 ==> ci == Interval(Num(0.0), Num(0.0))
    ensures trials > 0 && WilsonTerm(successes, trials) < 0.0 ==> ci == Interval(NaN, NaN)
    ensures ci.lower.Num? ==> 0.0 <= ci.lower.value
    ensures ci.upper.Num? ==> ci.upper.value <= 1.0
    ensures successes <= trials ==> ci.lower.Num? && ci.upper.Num? && ci.lower.value <= ci.upper.value
  {
    if trials == 0 then Interval(Num(0.0), Num(0.0))
    else if successes <= trials then
      WilsonTermNonNeg(successes, trials);
      CentreInUnitInterval(successes, trials);
      ClampedInterval(m, successes, trials)
    else if WilsonTerm(successes, trials) < 0.0 then Interval(NaN, NaN)
    else ClampedInterval(m, successes, trials)
  }

  /** The centre minus and plus the half-width, clamped to [0, 1]. */
  function ClampedInterval(m: MathLib, successes: int, trials: int): (ci: Interval)
    requires trials > 0 && 0.0 <= WilsonTerm(successes, trials)
    ensures ci.lower.Num? && ci.upper.Num?
    ensures 0.0 <= ci.lower.value && ci.upper.value <= 1.0
  {
    var centre := WilsonCentre(successes, trials);
    var halfWidth := HalfWidth(m, successes, trials);
    Interval(Num(AtLeastZero(centre - halfWidth)), Num(AtMostOne(centre + halfWidth)))
  }

  /** For 0 <= successes <= trials the centre lies strictly inside (0, 1). */
  lemma CentreInUnitInterval(successes: int, trials: int)
    requires 0 <= successes <= trials && trials > 0
    ensures 0.0 < WilsonCentre(successes, trials) < 1.0
  {
    var n := trials as real;
    var phat := successes as real / n;
    RatioInUnit(successes as real, n);
    HalfLess(Z * Z, n);
    QuotientInOpenUnit(phat + (Z * Z) / (2.0 * n), 1.0 + (Z * Z) / n);
  }

  lemma RatioInUnit(a: real, b: real)
    requires 0.0 <= a <= b && b > 0.0
    ensures 0.0 <= a / b <= 1.0
  {
  }

  lemma HalfLess(c: real, n: real)
    requires c > 0.0 && n > 0.0
    ensures 0.0 < c / (2.0 * n) < c / n
  {
    assert c / (2.0 * n) == (c / n) / 2.0;
  }

  lemma QuotientInOpenUnit(a: real, b: real)
    requires 0.0 < a < b
    ensures 0.0 < a / b < 1.0
  {
    var q := a / b;
    assert q * b == a;
    QuotientPositive(a, b);
    if q >= 1.0 {
      ProductNonNeg(q - 1.0, b);
      assert false;
    }
  }

  lemma ProductNonNeg(a: real, b: real)
    requires 0.0 <= a && 0.0 <= b
    ensures 0.0 <= a * b
  {
  }

  lemma ProductPositive(a: real, b: real)
    requires 0.0 < a && 0.0 < b
    ensures 0.0 < a * b
  {
  }

  lemma QuotientNonNeg(a: real, b: real)
    requires 0.0 <= a && 0.0 < b
    ensures 0.0 <= a / b
  {
  }

  lemma QuotientPositive(a: real, b: real)
    requires 0.0 < a && 0.0 < b
    ensures 0.0 < a / b
  {
  }

  /**
   * With trials and no more successes than trials, the bounds are the Wilson
   * centre minus and plus the half-width, clamped to [0, 1], and they bracket
   * the centre.
   */
  lemma IntervalBracketsCentre(m: MathLib, successes: int, trials: int)
    requires 0 <= successes <= trials && trials > 0
    ensures WilsonTerm(successes, trials) >= 0.0
    ensures var ci := ConfidenceInterval(m, successes, trials);
      var centre, hw := WilsonCentre(successes, trials), HalfWidth(m, successes, trials);
      ci == Interval(Num(AtLeastZero(centre - hw)), Num(AtMostOne(centre + hw))) &&
      ci.lower.value <= centre <= ci.upper.value
  {
    WilsonTermNonNeg(successes, trials);
    CentreInUnitInterval(successes, trials);
  }

  /**
   * The Wilson interval contains the observed rate successes / trials, when
   * `Math.sqrt` is exact: the distance (z^2/n)|1/2 - phat| / (1 + z^2/n) from
   * the rate to the centre never exceeds the half-width.
   */
  lemma IntervalContainsRate(m: MathLib, successes: int, trials: int)
    requires SqrtExact(m)
    requires 0 <= successes <= trials && trials > 0
    ensures var ci := ConfidenceInterval(m, successes, trials);
      ci.lower.Num? && ci.upper.Num? &&
      ci.lower.value <= successes as real / trials as real <= ci.upper.value
  {
    var n := trials as real;
    var p := successes as real / n;
    RatioInUnit(successes as real, n);
    WilsonTermNonNeg(successes, trials);
    var c := Z * Z;
    var d := WilsonDenominator(trials);
    var term := WilsonTerm(successes, trials);
    var r := m.sqrt(term);
    assert r * r == term;
    var centre := WilsonCentre(successes, trials);
    var hw := HalfWidth(m, successes, trials);
    var a := (c / n) * (0.5 - p);
    CentreOffset(p, n, c, d, centre, a);
    WilsonGap(p, n, c, term, a);
    assert (Z * r) * (Z * r) == c * term;
    SquareBound(a, Z * r);
    DivideBound(a, Z * r, d);
    assert hw == (Z * r) / d;
    IntervalBracketsCentre(m, successes, trials);
  }

  /** centre - phat == (z^2/n)(1/2 - phat) / (1 + z^2/n). */
  lemma CentreOffset(p: real, n: real, c: real, d: real, centre: real, a: real)
    requires n > 0.0 && d == 1.0 + c / n && d > 0.0
    requires centre == (p + c / (2.0 * n)) / d && a == (c / n) * (0.5 - p)
    ensures centre - p == a / d
  {
    assert centre * d == p + c / (2.0 * n);
    assert c / (2.0 * n) == (c / n) * 0.5;
    assert p * d == p + p * (c / n);
    assert (centre - p) * d == a;
  }

  /** ((z^2/n)(1/2 - phat))^2 <= z^2 (phat (1 - phat)/n + z^2/4n^2) for 0 <= phat <= 1. */
  lemma WilsonGap(p: real, n: real, c: real, term: real, a: real)
    requires 0.0 <= p <= 1.0 && n > 0.0 && c > 0.0
    requires term == (p * (1.0 - p) / n) + c / (4.0 * n * n)
    requires a == (c / n) * (0.5 - p)
    ensures a * a <= c * term
  {
    var u := 1.0 / n;
    var q := p * (1.0 - p);
    ProductNonNeg(p, 1.0 - p);
    assert c / n == c * u;
    assert q / n == q * u;
    assert c / (4.0 * n * n) == c * u * u / 4.0;
    assert (0.5 - p) * (0.5 - p) == 0.25 - q;
    assert a * a == c * c * u * u * (0.25 - q);
    assert c * term == c * q * u + c * c * u * u / 4.0;
    QuotientPositive(1.0, n);
    ProductNonNeg(c * q, u);
    ProductNonNeg(c * c * u * u, q);
  }

  /** From x^2 <= y^2 and y >= 0 follows |x| <= y. */
  lemma SquareBound(x: real, y: real)
    requires 0.0 <= y && x * x <= y * y
    ensures x <= y && -x <= y
  {
    if x > y {
      ProductPositive(x - y, x + y);
      assert false;
    }
    var w := -x;
    assert w * w == x * x;
    if w > y {
      ProductPositive(w - y, w + y);
      assert false;
    }
  }

  /** Dividing by a positive number keeps the bound. */
  lemma DivideBound(x: real, y: real, d: real)
    requires d > 0.0 && x <= y && -x <= y
    ensures x / d <= y / d && -(x / d) <= y / d
  {
    ProductNonNeg(y - x, 1.0 / d);
    ProductNonNeg(y + x, 1.0 / d);
  }

  // ---------------------------------------------------------------------
  // Normal CDF and p-value
  // ---------------------------------------------------------------------

  const A1: real := 0.254829592
  const A2: real := -0.284496736
  const A3: real := 1.421413741
  const A4: real := -1.453152027
  const A5: real := 1.061405429
  const P: real := 0.3275911

  /** The approximation of erf(x) for x >= 0 (formula 7.1.26) that `normalCDF` calls `y`. */
  function ErfApprox(m: MathLib, x: real): real
    requires x >= 0.0
  {
    var t := 1.0 / (1.0 + P * x);
    var t2 := t * t;
    var t3 := t2 * t;
    var t4 := t3 * t;
    var t5 := t4 * t;
    1.0 - (((((A5 * t5 + A4 * t4) + A3 * t3) + A2 * t2) + A1 * t) * m.exp(-x * x))
  }

  /** `normalCDF(z)`: 0.5 * (1 + sign(z) * y(|z| / sqrt 2)), where the sign of 0 is +1. */
  function NormalCDF(m: MathLib, z: real): real
    requires SqrtTwoPositive(m)
  {
    var sign := if z < 0.0 then -1.0 else 1.0;
    var x := Abs(z) / m.sqrt(2.0);
    0.5 * (1.0 + sign * ErfApprox(m, x))
  }

  /**
   * Symmetry: for every z other than 0, and whatever `Math.exp` is, the
   * approximation satisfies CDF(-z) = 1 - CDF(z), because y is computed from |z|.
   */
  lemma NormalCDFSymmetric(m: MathLib, z: real)
    requires SqrtTwoPositive(m)
    requires z != 0.0
    ensures NormalCDF(m, -z) == 1.0 - NormalCDF(m, z)
  {
    assert Abs(-z) == Abs(z);
  }

  /**
   * At z = 0 the symmetry fails: the sign is +1 on both sides and
   * y(0) = 1 - (a1+...+a5) * exp(0) = 1 - 0.999999999 * exp(0), which is
   * not 0; with exp(0) = 1 the CDF at 0 is 0.5000000005.
   */
  lemma NormalCDFAtZero(m: MathLib)
    requires SqrtTwoPositive(m)
    ensures NormalCDF(m, 0.0) == 0.5 * (1.0 + (1.0 - 0.999999999 * m.exp(0.0)))
    ensures m.exp(0.0) == 1.0 ==> NormalCDF(m, 0.0) == 0.5000000005 && NormalCDF(m, -0.0) != 1.0 - NormalCDF(m, 0.0)
  {
    assert A1 + A2 + A3 + A4 + A5 == 0.999999999;
  }

  /**
   * pPooled * (1 - pPooled) * (1/trialsA + 1/trialsB), the square of the
   * pooled standard error; it is negative exactly when the pooled rate
   * exceeds 1, that is when there are more successes than trials in total.
   */
  function PooledVariance(successesA: int, trialsA: int, successesB: int, trialsB: int): (v: real)
    requires 0 <= successesA && trialsA > 0
    requires 0 <= successesB && trialsB > 0
    ensures 0.0 <= v <==> successesA + successesB <= trialsA + trialsB
  {
    var pPooled := (successesA + successesB) as real / (trialsA + trialsB) as real;
    var w := 1.0 / trialsA as real + 1.0 / trialsB as real;
    QuotientPositive(1.0, trialsA as real);
    QuotientPositive(1.0, trialsB as real);
    PooledSign(successesA + successesB, trialsA + trialsB, pPooled, w);
    pPooled * (1.0 - pPooled) * w
  }

  /** The sign of pPooled (1 - pPooled) w for a positive w. */
  lemma PooledSign(successes: int, trials: int, pPooled: real, w: real)
    requires 0 <= successes && trials > 0 && w > 0.0
    requires pPooled == successes as real / trials as real
    ensures 0.0 <= pPooled * (1.0 - pPooled) * w <==> successes <= trials
  {
    QuotientNonNeg(successes as real, trials as real);
    if successes <= trials {
      RatioInUnit(successes as real, trials as real);
      ProductNonNeg(pPooled, 1.0 - pPooled);
      ProductNonNeg(pPooled * (1.0 - pPooled), w);
    } else {
      assert pPooled * (trials as real) == successes as real;
      assert pPooled > 1.0;
      ProductPositive(pPooled, pPooled - 1.0);
      ProductPositive(pPooled * (pPooled - 1.0), w);
    }
  }

  /** The pooled standard error of two groups, where its square is not negative. */
  function StandardError(m: MathLib, successesA: int, trialsA: int, successesB: int, trialsB: int): real
    requires 0 <= successesA && trialsA > 0
    requires 0 <= successesB && trialsB > 0
    requires successesA + successesB <= trialsA + trialsB
  {
    m.sqrt(PooledVariance(successesA, trialsA, successesB, trialsB))
  }

  /** |pA - pB|, the distance between the two observed rates. */
  function RateGap(successesA: int, trialsA: int, successesB: int, trialsB: int): real
    requires trialsA > 0 && trialsB > 0
  {
    Abs(successesA as real / trialsA as real - successesB as real / trialsB as real)
  }

  /** `calculatePValue` for two groups with trials on both sides and a real standard error. */
  function PValue(m: MathLib, successesA: int, trialsA: int, successesB: int, trialsB: int): real
    requires SqrtTwoPositive(m)
    requires 0 <= successesA && trialsA > 0
    requires 0 <= successesB && trialsB > 0
    requires successesA + successesB <= trialsA + trialsB
  {
    var standardError := StandardError(m, successesA, trialsA, successesB, trialsB);
    if standardError == 0.0 then 1.0
    else 2.0 * (1.0 - NormalCDF(m, RateGap(successesA, trialsA, successesB, trialsB) / standardError))
  }

  /**
   * The p-value is exactly 1 when the pooled standard error is 0; otherwise it
   * is 2 * (1 - CDF(z)) = 1 - y(z / sqrt 2) for the non-negative z = |pA - pB| / SE.
   */
  lemma PValueCases(m: MathLib, successesA: int, trialsA: int, successesB: int, trialsB: int)
    requires SqrtTwoPositive(m)
    requires 0 <= successesA && trialsA > 0
    requires 0 <= successesB && trialsB > 0
    requires successesA + successesB <= trialsA + trialsB
    ensures var se := StandardError(m, successesA, trialsA, successesB, trialsB);
      var pv := PValue(m, successesA, trialsA, successesB, trialsB);
      (se == 0.0 ==> pv == 1.0) &&
      (se != 0.0 ==>
        var z := RateGap(successesA, trialsA, successesB, trialsB) / se;
        z >= 0.0 && pv == 2.0 * (1.0 - NormalCDF(m, z)) && pv == 1.0 - ErfApprox(m, z / m.sqrt(2.0)))
  {
    var se := StandardError(m, successesA, trialsA, successesB, trialsB);
    if se != 0.0 {
      var gap := RateGap(successesA, trialsA, successesB, trialsB);
      QuotientNonNeg(gap, se);
      assert Abs(gap / se) == gap / se;
    }
  }

  /** Identical proportions give no evidence: z = 0 so the p-value is 1 - y(0). */
  lemma EqualRatesPValue(m: MathLib, successes: int, trials: int)
    requires SqrtTwoPositive(m)
    requires 0 <= successes <= trials && trials > 0
    ensures PValue(m, successes, trials, successes, trials) == 1.0 || PValue(m, successes, trials, successes, trials) == 1.0 - ErfApprox(m, 0.0)
  {
    PValueCases(m, successes, trials, successes, trials);
  }

  /**
   * The p-value as the engine really produces it. With no trials on a side,
   * `successes / trials` is NaN or infinite, and every path from there ends
   * in NaN whatever the successes (an infinite standard error divides an
   * infinite or NaN gap; a zero pooled rate times an infinite weight is NaN).
   * With more successes than trials in total the pooled variance is negative
   * and its square root NaN. Otherwise it is the z-test above.
   */
  function PValueOrNaN(m: MathLib, successesA: int, trialsA: int, successesB: int, trialsB: int): (p: Float)
    requires SqrtTwoPositive(m)
    requires 0 <= successesA && 0 <= trialsA
    requires 0 <= successesB && 0 <= trialsB
    ensures p.NaN? <==> trialsA == 0 || trialsB == 0 || successesA + successesB > trialsA + trialsB
    ensures p.Num? ==> p.value == PValue(m, successesA, trialsA, successesB, trialsB)
  {
    if trialsA == 0 || trialsB == 0 then NaN
    else if successesA + successesB > trialsA + trialsB then NaN
    else Num(PValue(m, successesA, trialsA, successesB, trialsB))
  }

  /** `pValue < 0.05`, false for NaN. */
  predicate Significant(p: Float) {
    p.Num? && p.value < SignificanceLevel
  }

  /** The relative change of rate against the control rate, in percent, or 0 with a zero control rate. */
  function Uplift(rate: real, controlRate: real): (u: real)
    ensures controlRate <= 0.0 ==> u == 0.0
    ensures controlRate > 0.0 ==> u * controlRate == (rate - controlRate) * 100.0
    ensures controlRate > 0.0 ==> (u > 0.0 <==> rate > controlRate) && (u == 0.0 <==> rate == controlRate)
  {
    if controlRate > 0.0 then ((rate - controlRate) / controlRate) * 100.0 else 0.0
  }

  // ---------------------------------------------------------------------
  // The whole report
  // ---------------------------------------------------------------------

  /** A variant's own figures: its sums, its rate and its interval. */
  function BaseResult(m: MathLib, v: Variant, rows: seq<ResultRow>): (s: StatResult)
    requires NonNegRows(rows)
    ensures s.variantId == v.id && s.variantName == v.name
    ensures s.sampleSize == SumUsers(rows, v.id) && s.conversions == SumConversions(rows, v.id)
    ensures 0 <= s.conversions && 0 <= s.sampleSize
    ensures s.comparison.None?
  {
    var totalUsers := SumUsers(rows, v.id);
    var totalConversions := SumConversions(rows, v.id);
    SumsNonNeg(rows, v.id);
    StatResult(v.id, v.name, totalUsers, totalConversions,
      ConversionRate(totalConversions, totalUsers),
      ConfidenceInterval(m, totalConversions, totalUsers),
      None)
  }

  /** The comparison of a variant's figures against the control's. */
  function Compare(m: MathLib, s: StatResult, control: StatResult): (c: Comparison)
    requires SqrtTwoPositive(m)
    requires 0 <= s.conversions && 0 <= s.sampleSize
    requires 0 <= control.conversions && 0 <= control.sampleSize
    ensures c.isSignificant <==> Significant(c.pValue)
    ensures c.uplift == Uplift(s.conversionRate, control.conversionRate)
  {
    var pValue := PValueOrNaN(m, s.conversions, s.sampleSize, control.conversions, control.sampleSize);
    Comparison(pValue, Significant(pValue), Uplift(s.conversionRate, control.conversionRate))
  }

  /** The index of the first variant flagged as control (`variants.find(v => v.isControl)`). */
  function ControlIndex(vs: seq<Variant>): (r: Option<nat>)
    ensures r.Some? ==> r.value < |vs| && vs[r.value].isControl &&
                        (forall j :: 0 <= j < r.value ==> !vs[j].isControl)
    ensures r.None? ==> forall j :: 0 <= j < |vs| ==> !vs[j].isControl
  {
    if vs == [] then None
    else if vs[0].isControl then Some(0)
    else match ControlIndex(vs[1..])
      case Some(k) => Some(k + 1)
      case None => None
  }

  /** The report for variant i: its base figures, compared with the control when it is not the control. */
  function ResultAt(m: MathLib, vs: seq<Variant>, rows: seq<ResultRow>, i: nat): StatResult
    requires SqrtTwoPositive(m)
    requires NonNegRows(rows)
    requires i < |vs|
  {
    var base := BaseResult(m, vs[i], rows);
    match ControlIndex(vs)
    case None => base
    case Some(c) =>
      if vs[i].id != vs[c].id then base.(comparison := Some(Compare(m, base, BaseResult(m, vs[c], rows))))
      else base
  }

  /** `calculateStatistics(experiment, results)`: one result per variant, in order. */
  method CalculateStatistics(m: MathLib, variants: seq<Variant>, rows: seq<ResultRow>)
    returns (stats: seq<StatResult>)
    requires SqrtTwoPositive(m)
    requires NonNegRows(rows)
    requires DistinctIds(variants)
    ensures |stats| == |variants|
    ensures forall i :: 0 <= i < |variants| ==> stats[i] == ResultAt(m, variants, rows, i)
  {
    // The Map keyed by variant id, in insertion order (the ids are distinct).
    stats := [];
    var i := 0;
    while i < |variants|
      invariant 0 <= i <= |variants|
      invariant |stats| == i
      invariant forall j :: 0 <= j < i ==> stats[j] == BaseResult(m, variants[j], rows)
    {
      var variant := variants[i];
      var totalUsers := SumUsers(rows, variant.id);
      var totalConversions := SumConversions(rows, variant.id);
      SumsNonNeg(rows, variant.id);
      var conversionRate := if totalUsers > 0 then totalConversions as real / totalUsers as real else 0.0;
      var ci := ConfidenceInterval(m, totalConversions, totalUsers);
      stats := stats + [StatResult(variant.id, variant.name, totalUsers, totalConversions, conversionRate, ci, None)];
      i := i + 1;
    }
    var control := ControlIndex(variants);
    if control.Some? {
      var controlStats := stats[control.value];
      i := 0;
      while i < |stats|
        invariant 0 <= i <= |stats| == |variants|
        invariant forall j :: 0 <= j < i ==> stats[j] == ResultAt(m, variants, rows, j)
        invariant forall j :: i <= j < |stats| ==> stats[j] == BaseResult(m, variants[j], rows)
      {
        var s := stats[i];
        if s.variantId != controlStats.variantId {
          var pValue := PValueOrNaN(m, s.conversions, s.sampleSize, controlStats.conversions, controlStats.sampleSize);
          stats := stats[i := s.(comparison := Some(Comparison(pValue, Significant(pValue),
            Uplift(s.conversionRate, controlStats.conversionRate))))];
        }
        i := i + 1;
      }
    }
  }

  /**
   * The report's shape: one result per variant carrying that variant's sums
   * and rate; the interval {0, 0} without users and a proper sub-interval of
   * [0, 1] when conversions do not exceed users; a comparison exactly on the
   * non-control variants when a control exists, with `isSignificant` iff the
   * p-value is below 0.05; none on the control.
   */
  lemma ResultAtProperties(m: MathLib, vs: seq<Variant>, rows: seq<ResultRow>, i: nat)
    requires SqrtTwoPositive(m)
    requires NonNegRows(rows)
    requires DistinctIds(vs)
    requires i < |vs|
    ensures var s := ResultAt(m, vs, rows, i);
      var ci := s.confidenceInterval;
      s.variantId == vs[i].id &&
      s.sampleSize == SumUsers(rows, vs[i].id) &&
      s.conversions == SumConversions(rows, vs[i].id) &&
      s.conversionRate == ConversionRate(s.conversions, s.sampleSize) &&
      (s.sampleSize == 0 ==> ci == Interval(Num(0.0), Num(0.0))) &&
      (s.conversions <= s.sampleSize ==>
        ci.lower.Num? && ci.upper.Num? && 0.0 <= ci.lower.value <= ci.upper.value <= 1.0) &&
      (s.comparison.Some? <==> ControlIndex(vs).Some? && ControlIndex(vs).value != i) &&
      (s.comparison.Some? ==> (s.comparison.value.isSignificant <==> Significant(s.comparison.value.pValue))) &&
      (vs[i].isControl && (forall j :: 0 <= j < i ==> !vs[j].isControl) ==> s.comparison.None?)
  {
    var c := ControlIndex(vs);
    if c.Some? && c.value != i {
      assert vs[i].id != vs[c.value].id;
    }
  }

  /**
   * With a control, every non-control variant's uplift is measured against the
   * control's rate, and its p-value is NaN exactly when one side has no users
   * or the two sides together have more conversions than users.
   */
  lemma ComparisonAgainstControl(m: MathLib, vs: seq<Variant>, rows: seq<ResultRow>, i: nat)
    requires SqrtTwoPositive(m)
    requires NonNegRows(rows)
    requires DistinctIds(vs)
    requires i < |vs|
    requires ControlIndex(vs).Some? && ControlIndex(vs).value != i
    ensures var s := ResultAt(m, vs, rows, i);
      var control := ResultAt(m, vs, rows, ControlIndex(vs).value);
      s.comparison.Some? && control.comparison.None? &&
      s.comparison.value.uplift == Uplift(s.conversionRate, control.conversionRate) &&
      (s.comparison.value.pValue.NaN? <==>
        s.sampleSize == 0 || control.sampleSize == 0 ||
        s.conversions + control.conversions > s.sampleSize + control.sampleSize)
  {
    var c := ControlIndex(vs).value;
    assert vs[i].id != vs[c].id;
  }

  /**
   * A report over rows that never count a user, which is every row the
   * tracking endpoint writes: each variant has sample size 0, rate 0 and the
   * interval {0, 0}, and every comparison has a NaN p-value, is not
   * significant and has uplift 0.
   */
  lemma ReportWithoutUsers(m: MathLib, vs: seq<Variant>, rows: seq<ResultRow>, i: nat)
    requires SqrtTwoPositive(m)
    requires NonNegRows(rows)
    requires forall k :: 0 <= k < |rows| ==> rows[k].uniqueUsers == 0
    requires i < |vs|
    ensures var s := ResultAt(m, vs, rows, i);
      s.sampleSize == 0 && s.conversionRate == 0.0 &&
      s.confidenceInterval == Interval(Num(0.0), Num(0.0)) &&
      (s.comparison.Some? ==>
        s.comparison.value.pValue.NaN? && !s.comparison.value.isSignificant && s.comparison.value.uplift == 0.0)
  {
    SumsWithoutUsers(rows, vs[i].id);
    var c := ControlIndex(vs);
    if c.Some? {
      SumsWithoutUsers(rows, vs[c.value].id);
    }
  }

  // ---------------------------------------------------------------------
  // Sample size
  // ---------------------------------------------------------------------

  const ZAlpha: real := 1.96
  const ZBeta: real := 0.84

  /** `Math.ceil`. */
  function Ceil(x: real): (n: int)
    ensures n as real - 1.0 < x <= n as real
  {
    -((-x).Floor)
  }

  /** The mean proportion pBar = (p1 + p2) / 2, with p2 = p1 * (1 + mde). */
  function MeanProportion(baseline: real, mde: real): real {
    (baseline + baseline * (1.0 + mde)) / 2.0
  }

  /** The difference p1 - p2 of the two proportions. */
  function EffectDifference(baseline: real, mde: real): real {
    baseline - baseline * (1.0 + mde)
  }

  /** 2 pBar (1 - pBar) (zAlpha + zBeta)^2 / (p1 - p2)^2, the real-valued sample size. */
  function SampleSizeBound(baseline: real, mde: real): real
    requires baseline * mde != 0.0
  {
    var pBar := MeanProportion(baseline, mde);
    EffectGap(baseline, mde);
    2.0 * pBar * (1.0 - pBar) * (ZAlpha + ZBeta) * (ZAlpha + ZBeta)
      / (EffectDifference(baseline, mde) * EffectDifference(baseline, mde))
  }

  /**
   * `calculateSampleSize`: the least integer not below the bound
   * 2 pBar (1 - pBar) (zAlpha + zBeta)^2 / (p1 - p2)^2. `power` and
   * `significance` are accepted and ignored. p1 = p2 (a zero baseline or a
   * zero effect) would divide by zero, giving Infinity, -Infinity (when
   * pBar (1 - pBar) is negative) or NaN (when it is 0, as for a zero
   * baseline) in the source.
   */
  function SampleSize(baselineConversion: real, minimumDetectableEffect: real, power: real, significance: real): (n: int)
    requires baselineConversion * minimumDetectableEffect != 0.0
    ensures n as real - 1.0 < SampleSizeBound(baselineConversion, minimumDetectableEffect) <= n as real
  {
    Ceil(SampleSizeBound(baselineConversion, minimumDetectableEffect))
  }

  /** p1 != p2 exactly when neither the baseline nor the effect is zero. */
  lemma EffectGap(b: real, mde: real)
    requires b * mde != 0.0
    ensures EffectDifference(b, mde) * EffectDifference(b, mde) > 0.0
  {
    var g := EffectDifference(b, mde);
    assert g == -(b * mde);
    SquarePositive(g);
  }

  lemma SquarePositive(x: real)
    requires x != 0.0
    ensures x * x > 0.0
  {
    if x > 0.0 {
      ProductPositive(x, x);
    } else {
      ProductPositive(-x, -x);
    }
  }

  /** The result depends on neither the power nor the significance level. */
  lemma SampleSizeIgnoresPowerAndSignificance(b: real, mde: real, power1: real, sig1: real, power2: real, sig2: real)
    requires b * mde != 0.0
    ensures SampleSize(b, mde, power1, sig1) == SampleSize(b, mde, power2, sig2)
  {
  }

  /** For a mean proportion strictly between 0 and 1 at least one user per arm is required. */
  lemma SampleSizePositive(b: real, mde: real, power: real, sig: real)
    requires b * mde != 0.0
    requires 0.0 < MeanProportion(b, mde) < 1.0
    ensures SampleSize(b, mde, power, sig) >= 1
  {
    var pBar := MeanProportion(b, mde);
    var q := 1.0 - pBar;
    ProductPositive(pBar, q);
    var v := pBar * q;
    EffectGap(b, mde);
    var k := 2.0 * (ZAlpha + ZBeta) * (ZAlpha + ZBeta);
    assert k == 15.68;
    assert 2.0 * pBar * (1.0 - pBar) * (ZAlpha + ZBeta) * (ZAlpha + ZBeta) == k * v;
    ProductPositive(k, v);
    QuotientPositive(k * v, EffectDifference(b, mde) * EffectDifference(b, mde));
  }
}
