/** The two Wilson intervals and the statistical gate, over exact reals. A square
    root is any `root >= 0` whose square is the argument. */
module Wilson {
  import opened Reals

  datatype Interval = Interval(estimate: real, lower: real, upper: real)

  datatype IntervalResult = Bounds(interval: Interval) | InvalidInput

  predicate IsRoot(root: real, x: real) {
    root >= 0.0 && root * root == x
  }

  function Radicand(p: real, n: real, z: real): real
    requires n > 0.0
  {
    p * (1.0 - p) / n + z * z / (4.0 * n * n)
  }

  function Centre(p: real, n: real, z: real): real
    requires n > 0.0
  {
    (p + z * z / (2.0 * n)) / Denominator(n, z)
  }

  function Denominator(n: real, z: real): (d: real)
    requires n > 0.0
    ensures d >= 1.0
  {
    assert z * z / n >= 0.0;
    1.0 + z * z / n
  }

  function Radius(n: real, z: real, root: real): real
    requires n > 0.0
  {
    z * root / Denominator(n, z)
  }

  function Max0(x: real): real { if x >= 0.0 then x else 0.0 }

  function Min1(x: real): real { if x <= 1.0 then x else 1.0 }

  /** `statistical_gate.wilson_interval`; `root` is the square root it takes. */
  function GateInterval(successes: int, trials: int, z: real, root: real): IntervalResult {
    if trials <= 0 then Bounds(Interval(0.0, 0.0, 1.0))
    else if successes < 0 || successes > trials || z <= 0.0 then InvalidInput
    else
      var p, n := successes as real / trials as real, trials as real;
      Bounds(Interval(p, Max0(Centre(p, n, z) - Radius(n, z, root)), Min1(Centre(p, n, z) + Radius(n, z, root))))
  }

  /** `research_stats.wilson_interval`, with its special cases at the ends. */
  function ReportInterval(successes: int, total: int, z: real, root: real): IntervalResult {
    if total <= 0 || successes < 0 || successes > total then InvalidInput
    else
      var p, n := successes as real / total as real, total as real;
      Bounds(Interval(p,
        if successes == 0 then 0.0 else Max0(Centre(p, n, z) - Radius(n, z, root)),
        if successes == total then 1.0 else Min1(Centre(p, n, z) + Radius(n, z, root))))
  }

  // ----------------------------------------------------------------- algebra

  /** With `a = z^2 / n`, the square of `z * root` is `a p (1 - p) + a^2 / 4`. */
  lemma SquaredMargin(p: real, n: real, z: real, root: real)
    requires n > 0.0 && IsRoot(root, Radicand(p, n, z))
    ensures var a := z * z / n; (z * root) * (z * root) == a * (p * (1.0 - p)) + a * a / 4.0
  {
    var a, q := z * z / n, p * (1.0 - p);
    assert a * n == z * z;
    var u, v := q / n, z * z / (4.0 * n * n);
    assert z * z * u == a * q by {
      assert u * n == q;
      assert z * z * u == (a * n) * u == a * (u * n);
    }
    assert z * z * v == a * a / 4.0 by {
      assert v * (4.0 * n * n) == z * z;
      assert z * z * v == (a * n) * v;
      assert 4.0 * (n * (n * v)) == a * n;
      assert n * (4.0 * (n * v) - a) == 0.0;
      assert 4.0 * (n * v) == a;
      assert (a * n) * v == a * (n * v);
    }
    assert (z * root) * (z * root) == z * z * (root * root);
  }

  lemma SquareOrder(x: real, y: real)
    requires y >= 0.0 && x * x <= y * y
    ensures x <= y
  {
    if x > y {
      assert x * x - y * y == (x - y) * (x + y);
      ProductSign(x - y, x + y);
    }
  }

  /** Before dividing by the denominator: the margin `m` keeps the interval inside
      [0, 1] and around `p`, and reaches the ends exactly at `p = 0` and `p = 1`. */
  lemma MarginBounds(p: real, a: real, m: real, d: real)
    requires 0.0 <= p <= 1.0 && a > 0.0 && m >= 0.0 && d == 1.0 + a
    requires m * m == a * (p * (1.0 - p)) + a * a / 4.0
    ensures 0.0 <= p + a / 2.0 - m <= p * d <= p + a / 2.0 + m <= d
    ensures p == 0.0 ==> p + a / 2.0 - m == 0.0
    ensures p == 1.0 ==> p + a / 2.0 + m == d
  {
    assert p * d == p + a * p;
    var q, half := p * (1.0 - p), a / 2.0;
    ProductNonNegative(p, 1.0 - p);
    ProductNonNegative(a, q);
    assert half * half == a * a / 4.0;
    SquareOrder(half, m);
    // m <= p + a/2 and m <= 1 - p + a/2
    assert (p + half) * (p + half) - m * m == p * p * (1.0 + a) by {
      assert (p + half) * (p + half) == p * p + a * p + half * half;
      assert a * q == a * p - a * p * p;
    }
    ProductNonNegative(p, p);
    ProductNonNegative(p * p, 1.0 + a);
    SquareOrder(m, p + half);
    var r := 1.0 - p;
    assert (r + half) * (r + half) - m * m == r * r * (1.0 + a) by {
      assert (r + half) * (r + half) == r * r + a * r + half * half;
      assert q == r - r * r;
      assert a * q == a * r - a * (r * r);
    }
    ProductNonNegative(r, r);
    ProductNonNegative(r * r, 1.0 + a);
    SquareOrder(m, r + half);
    // |a/2 - a p| <= m
    var e := half - a * p;
    assert m * m - e * e == a * q + a * a * q by {
      assert e * e == half * half - a * a * p + a * a * p * p;
      assert a * a * q == a * a * p - a * a * p * p;
    }
    ProductNonNegative(a, a * q);
    assert a * a * q == a * (a * q);
    SquareOrder(e, m);
    assert (-e) * (-e) == e * e;
    SquareOrder(-e, m);
    if p == 0.0 || p == 1.0 {
      assert q == 0.0 && a * q == 0.0;
      SquareOrder(m, half);
    }
  }

  // --------------------------------------------------------------- intervals

  /** The unclamped end points over the common denominator. */
  lemma EndPoints(p: real, n: real, z: real, root: real)
    requires n > 0.0
    ensures var a := z * z / n;
      && Centre(p, n, z) - Radius(n, z, root) == (p + a / 2.0 - z * root) / (1.0 + a)
      && Centre(p, n, z) + Radius(n, z, root) == (p + a / 2.0 + z * root) / (1.0 + a)
  {
    var a := z * z / n;
    assert z * z / (2.0 * n) == a / 2.0 by {
      var x := z * z / (2.0 * n);
      assert x * (2.0 * n) == z * z && a * n == z * z;
      assert (2.0 * x - a) * n == 0.0;
      ProductSign(2.0 * x - a, n);
    }
  }

  lemma QuotientBack(p: real, d: real)
    requires d > 0.0
    ensures p * d / d == p
  {
    var x := p * d / d;
    assert x * d == p * d;
    assert (x - p) * d == 0.0;
    if x < p {
      ProductSign(p - x, d);
    } else if x > p {
      ProductSign(x - p, d);
    }
  }

  lemma {:induction false} InsideUnit(lower: real, p: real, upper: real, d: real)
    requires d > 0.0 && 0.0 <= lower <= p * d <= upper <= d
    ensures 0.0 <= lower / d <= p <= upper / d <= 1.0
    ensures lower == 0.0 ==> lower / d == 0.0
    ensures upper == d ==> upper / d == 1.0
  {
    QuotientOrder(0.0, lower, d);
    QuotientOrder(lower, p * d, d);
    QuotientOrder(p * d, upper, d);
    QuotientOrder(upper, d, d);
    QuotientBack(p, d);
    QuotientBack(1.0, d);
    QuotientBack(0.0, d);
  }

  lemma RateBounds(successes: int, trials: int)
    requires trials > 0 && 0 <= successes <= trials
    ensures var p := successes as real / trials as real;
      0.0 <= p <= 1.0 && (p == 0.0 <==> successes == 0) && (p == 1.0 <==> successes == trials)
  {
    var n := trials as real;
    QuotientOrder(0.0, successes as real, n);
    QuotientOrder(successes as real, n, n);
    assert 0.0 / n == 0.0 && n / n == 1.0;
  }

  lemma WeightPositive(n: real, z: real)
    requires n > 0.0 && z > 0.0
    ensures z * z / n > 0.0
  {
    var a := z * z / n;
    ProductSign(z, z);
    assert a * n == z * z;
    ProductSign(a, n);
  }

  lemma ExactInterval(p: real, n: real, z: real, root: real)
    requires 0.0 <= p <= 1.0 && n > 0.0 && z > 0.0 && IsRoot(root, Radicand(p, n, z))
    ensures var lower, upper := Centre(p, n, z) - Radius(n, z, root), Centre(p, n, z) + Radius(n, z, root);
      && 0.0 <= lower <= p <= upper <= 1.0
      && (p == 0.0 ==> lower == 0.0) && (p == 1.0 ==> upper == 1.0)
  {
    var a, m := z * z / n, z * root;
    WeightPositive(n, z);
    ProductNonNegative(z, root);
    SquaredMargin(p, n, z, root);
    var d := 1.0 + a;
    MarginBounds(p, a, m, d);
    InsideUnit(p + a / 2.0 - m, p, p + a / 2.0 + m, d);
    EndPoints(p, n, z, root);
  }

  /** Over the common denominator, an end point `u` solves a quadratic equation. */
  lemma ScaledEndPoint(p: real, a: real, m: real, u: real)
    requires m * m == a * (p * (1.0 - p)) + a * a / 4.0 && (u == p + a / 2.0 - m || u == p + a / 2.0 + m)
    ensures u * u - (2.0 * p + a) * u + p * p * (1.0 + a) == 0.0
  {
    var c := p + a / 2.0;
    assert (u - c) * (u - c) == m * m;
    assert (u - c) * (u - c) == u * u - 2.0 * c * u + c * c;
    assert c * c == p * p + a * p + a * a / 4.0;
    assert m * m == a * p - a * (p * p) + a * a / 4.0;
    assert p * p * (1.0 + a) == p * p + a * (p * p);
  }

  lemma QuadraticAt(p: real, a: real, x: real, d: real)
    requires d == 1.0 + a && d > 0.0
    requires (x * d) * (x * d) - (2.0 * p + a) * (x * d) + p * p * d == 0.0
    ensures (x - p) * (x - p) == a * (x * (1.0 - x))
  {
    var rest := d * (x * x) - (2.0 * p + a) * x + p * p;
    assert d * rest == 0.0 by {
      assert (x * d) * (x * d) == d * (d * (x * x));
      assert (2.0 * p + a) * (x * d) == d * ((2.0 * p + a) * x);
      assert d * rest == d * (d * (x * x)) - d * ((2.0 * p + a) * x) + d * (p * p);
    }
    assert rest == 0.0;
    assert (x - p) * (x - p) == x * x - 2.0 * (p * x) + p * p;
    assert a * (x * (1.0 - x)) == a * x - a * (x * x);
    assert d * (x * x) == x * x + a * (x * x);
    assert (2.0 * p + a) * x == 2.0 * (p * x) + a * x;
  }

  /** The end points are the two rates from which the observed one is exactly `z` standard
      errors away: `n (x - p)^2 == z^2 x (1 - x)`. */
  lemma EndPointsAreRoots(p: real, n: real, z: real, root: real, x: real)
    requires n > 0.0 && z > 0.0 && IsRoot(root, Radicand(p, n, z))
    requires x == Centre(p, n, z) - Radius(n, z, root) || x == Centre(p, n, z) + Radius(n, z, root)
    ensures n * Squared(x - p) == z * z * (x * (1.0 - x))
  {
    var a, m, zz := EndPointForm(p, n, z, root, x);
    EndPointEquation(p, n, a, m, zz, x);
  }

  lemma EndPointEquation(p: real, n: real, a: real, m: real, zz: real, x: real)
    requires a > 0.0 && a * n == zz && m * m == a * (p * (1.0 - p)) + a * a / 4.0
    requires x == (p + a / 2.0 - m) / (1.0 + a) || x == (p + a / 2.0 + m) / (1.0 + a)
    ensures n * Squared(x - p) == zz * (x * (1.0 - x))
  {
    EndPointSolves(p, a, m, x);
    Scaled(n, a, zz, Squared(x - p), x * (1.0 - x));
  }

  /** An end point by its weight and margin. */
  lemma EndPointForm(p: real, n: real, z: real, root: real, x: real) returns (a: real, m: real, zz: real)
    requires n > 0.0 && z > 0.0 && IsRoot(root, Radicand(p, n, z))
    requires x == Centre(p, n, z) - Radius(n, z, root) || x == Centre(p, n, z) + Radius(n, z, root)
    ensures a > 0.0 && zz == z * z && a * n == zz && m * m == a * (p * (1.0 - p)) + a * a / 4.0
    ensures x == (p + a / 2.0 - m) / (1.0 + a) || x == (p + a / 2.0 + m) / (1.0 + a)
  {
    a, m, zz := z * z / n, z * root, z * z;
    WeightPositive(n, z);
    SquaredMargin(p, n, z, root);
    EndPoints(p, n, z, root);
  }

  function Squared(x: real): real { x * x }

  lemma EndPointSolves(p: real, a: real, m: real, x: real)
    requires a > 0.0 && m * m == a * (p * (1.0 - p)) + a * a / 4.0
    requires x == (p + a / 2.0 - m) / (1.0 + a) || x == (p + a / 2.0 + m) / (1.0 + a)
    ensures Squared(x - p) == a * (x * (1.0 - x))
  {
    var d := 1.0 + a;
    var u := x * d;
    ScaledEndPoint(p, a, m, u);
    QuadraticAt(p, a, x, d);
  }

  lemma Scaled(n: real, a: real, zz: real, square: real, q: real)
    requires a * n == zz && square == a * q
    ensures n * square == zz * q
  {
    assert n * (a * q) == (n * a) * q;
  }

  /** For positive `z` and a positive total the clamps and the special cases change
      nothing, the two implementations agree, and the observed rate lies inside. */
  lemma IntervalsAgree(successes: int, trials: int, z: real, root: real)
    requires trials > 0 && 0 <= successes <= trials && z > 0.0
    requires IsRoot(root, Radicand(successes as real / trials as real, trials as real, z))
    ensures var p, n := successes as real / trials as real, trials as real;
      var exact := Interval(p, Centre(p, n, z) - Radius(n, z, root), Centre(p, n, z) + Radius(n, z, root));
      && GateInterval(successes, trials, z, root) == ReportInterval(successes, trials, z, root) == Bounds(exact)
      && 0.0 <= exact.lower <= exact.estimate <= exact.upper <= 1.0
  {
    RateBounds(successes, trials);
    ExactInterval(successes as real / trials as real, trials as real, z, root);
  }

  // --------------------------------------------------------------- the gate

  datatype Tristate = Unset | No | Yes

  datatype BenchmarkResult = BenchmarkResult(repaired: bool, regression: bool, falseRepair: Tristate)

  datatype GatePolicy = GatePolicy(minCases: int, minRepairRate: real, maxRegressionRate: real,
                                   maxFalseRepairRate: real, z: real)

  function One(b: bool): nat { if b then 1 else 0 }

  function Repaired(rows: seq<BenchmarkResult>): (c: nat)
    ensures c <= |rows|
  {
    if rows == [] then 0 else One(rows[0].repaired) + Repaired(rows[1..])
  }

  function Regressions(rows: seq<BenchmarkResult>): (c: nat)
    ensures c <= |rows|
  {
    if rows == [] then 0 else One(rows[0].regression) + Regressions(rows[1..])
  }

  predicate IsFalseRepair(r: BenchmarkResult) {
    if r.falseRepair.Unset? then r.regression else r.falseRepair.Yes?
  }

  function FalseRepairs(rows: seq<BenchmarkResult>): (c: nat)
    ensures c <= |rows|
  {
    if rows == [] then 0 else One(IsFalseRepair(rows[0])) + FalseRepairs(rows[1..])
  }

  /** Where nobody said whether a repair was false, a regression makes it one. */
  lemma {:induction false} FalseRepairsByDefault(rows: seq<BenchmarkResult>)
    requires forall i :: 0 <= i < |rows| ==> rows[i].falseRepair.Unset?
    ensures FalseRepairs(rows) == Regressions(rows)
  {
    if rows != [] {
      FalseRepairsByDefault(rows[1..]);
    }
  }

  /** The roots the three interval computations take. */
  datatype Roots = Roots(repaired: real, regressions: real, falseRepairs: real)

  predicate Passes(rows: seq<BenchmarkResult>, policy: GatePolicy, roots: Roots) {
    var n := |rows|;
    var repair := GateInterval(Repaired(rows), n, policy.z, roots.repaired);
    var regression := GateInterval(Regressions(rows), n, policy.z, roots.regressions);
    var falseRepair := GateInterval(FalseRepairs(rows), n, policy.z, roots.falseRepairs);
    && repair.Bounds? && regression.Bounds? && falseRepair.Bounds?
    && n >= policy.minCases
    && repair.interval.lower >= policy.minRepairRate
    && regression.interval.upper <= policy.maxRegressionRate
    && falseRepair.interval.upper <= policy.maxFalseRepairRate
  }

  function Rate(count: nat, n: nat): real {
    if n == 0 then 0.0 else count as real / n as real
  }

  predicate RootFor(count: nat, n: nat, z: real, root: real) {
    n > 0 ==> IsRoot(root, Radicand(count as real / n as real, n as real, z))
  }

  /** A passing gate implies that the raw rates meet the same thresholds. */
  lemma PassingGateMeetsRates(rows: seq<BenchmarkResult>, policy: GatePolicy, roots: Roots)
    requires Passes(rows, policy, roots)
    requires RootFor(Repaired(rows), |rows|, policy.z, roots.repaired)
    requires RootFor(Regressions(rows), |rows|, policy.z, roots.regressions)
    requires RootFor(FalseRepairs(rows), |rows|, policy.z, roots.falseRepairs)
    ensures |rows| >= policy.minCases
    ensures Rate(Repaired(rows), |rows|) >= policy.minRepairRate
    ensures Rate(Regressions(rows), |rows|) <= policy.maxRegressionRate
    ensures Rate(FalseRepairs(rows), |rows|) <= policy.maxFalseRepairRate
  {
    if rows != [] {
      IntervalsAgree(Repaired(rows), |rows|, policy.z, roots.repaired);
      IntervalsAgree(Regressions(rows), |rows|, policy.z, roots.regressions);
      IntervalsAgree(FalseRepairs(rows), |rows|, policy.z, roots.falseRepairs);
    }
  }
}
