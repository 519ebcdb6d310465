/** The exact two-sided McNemar p-value, in exact arithmetic. */
module McNemar {
  import opened Reals

  /** Binomial coefficients by Pascal's rule. */
  function Comb(n: nat, k: nat): nat {
    if k == 0 then 1 else if n == 0 then 0 else Comb(n - 1, k - 1) + Comb(n - 1, k)
  }

  function Factorial(n: nat): (f: nat)
    ensures f >= 1
  {
    if n == 0 then 1 else n * Factorial(n - 1)
  }

  function Pow2(n: nat): (p: nat)
    ensures p >= 1
  {
    if n == 0 then 1 else 2 * Pow2(n - 1)
  }

  /** `Comb(n, lo) + ... + Comb(n, hi - 1)` */
  function RangeSum(n: nat, lo: nat, hi: nat): (s: nat)
    requires lo <= hi
    decreases hi
  {
    if lo == hi then 0 else RangeSum(n, lo, hi - 1) + Comb(n, hi - 1)
  }

  function PValue(proposedWins: nat, baselineWins: nat): real {
    var n := proposedWins + baselineWins;
    if n == 0 then 1.0
    else
      var k := if proposedWins <= baselineWins then proposedWins else baselineWins;
      var lowerTail := RangeSum(n, 0, k + 1) as real / Pow2(n) as real;
      if 2.0 * lowerTail <= 1.0 then 2.0 * lowerTail else 1.0
  }

  // ---------------------------------------------------------- coefficients

  lemma {:induction false} CombOutside(n: nat, k: nat)
    requires k > n
    ensures Comb(n, k) == 0
    decreases n
  {
    if n > 0 {
      CombOutside(n - 1, k - 1);
      CombOutside(n - 1, k);
    }
  }

  lemma {:induction false} CombPositive(n: nat, k: nat)
    requires k <= n
    ensures Comb(n, k) >= 1
    decreases n
  {
    if 0 < k {
      CombPositive(n - 1, k - 1);
    }
  }

  lemma {:induction false} CombFull(n: nat)
    ensures Comb(n, n) == 1
  {
    if n > 0 {
      CombFull(n - 1);
      CombOutside(n - 1, n);
    }
  }

  /** A row reads the same from both ends. */
  lemma {:induction false} CombSymmetric(n: nat, k: nat)
    requires k <= n
    ensures Comb(n, k) == Comb(n, n - k)
    decreases n
  {
    if k == 0 || k == n {
      CombFull(n);
    } else {
      CombSymmetric(n - 1, k - 1);
      CombSymmetric(n - 1, k);
    }
  }

  /** Pascal's rule computes `n! / (k! (n - k)!)`. */
  lemma {:induction false} CombFactorial(n: nat, k: nat)
    requires k <= n
    ensures Comb(n, k) * (Factorial(k) * Factorial(n - k)) == Factorial(n)
    decreases n
  {
    if k == 0 || k == n {
      CombFull(n);
    } else {
      CombFactorial(n - 1, k - 1);
      CombFactorial(n - 1, k);
      PascalStep(k, n - k, Comb(n - 1, k - 1), Comb(n - 1, k),
                 Factorial(k - 1), Factorial(n - k - 1), Factorial(n - 1));
    }
  }

  lemma PascalStep(k: nat, j: nat, a: nat, b: nat, fk: nat, fj: nat, f: nat)
    requires k >= 1 && j >= 1
    requires a * (fk * (j * fj)) == f && b * ((k * fk) * fj) == f
    ensures (a + b) * ((k * fk) * (j * fj)) == (k + j) * f
  {
    calc {
      (a + b) * ((k * fk) * (j * fj));
      k * (a * (fk * (j * fj))) + j * (b * ((k * fk) * fj));
      k * f + j * f;
      (k + j) * f;
    }
  }

  // ------------------------------------------------------------------ rows

  lemma {:induction false} RangeSplit(n: nat, lo: nat, mid: nat, hi: nat)
    requires lo <= mid <= hi
    ensures RangeSum(n, lo, hi) == RangeSum(n, lo, mid) + RangeSum(n, mid, hi)
    decreases hi
  {
    if mid < hi {
      RangeSplit(n, lo, mid, hi - 1);
    }
  }

  lemma {:induction false} RangePascal(n: nat, hi: nat)
    requires n >= 1
    ensures RangeSum(n, 0, hi + 1) == RangeSum(n - 1, 0, hi + 1) + RangeSum(n - 1, 0, hi)
    decreases hi
  {
    if hi > 0 {
      RangePascal(n, hi - 1);
    } else {
      assert RangeSum(n, 0, 1) == RangeSum(n, 0, 0) + Comb(n, 0);
      assert RangeSum(n - 1, 0, 1) == RangeSum(n - 1, 0, 0) + Comb(n - 1, 0);
    }
  }

  /** A whole row sums to a power of two. */
  lemma {:induction false} RowSum(n: nat)
    ensures RangeSum(n, 0, n + 1) == Pow2(n)
  {
    if n == 0 {
      assert RangeSum(0, 0, 1) == RangeSum(0, 0, 0) + Comb(0, 0);
    } else {
      RowSum(n - 1);
      RangePascal(n, n);
      CombOutside(n - 1, n);
      assert RangeSum(n - 1, 0, n + 1) == RangeSum(n - 1, 0, n) + Comb(n - 1, n);
    }
  }

  /** The upper tail mirrors the lower one. */
  lemma {:induction false} TailsMirror(n: nat, k: nat)
    requires k <= n + 1
    ensures RangeSum(n, 0, k) == RangeSum(n, n + 1 - k, n + 1)
  {
    if k > 0 {
      TailsMirror(n, k - 1);
      CombSymmetric(n, k - 1);
      RangeSplit(n, n + 1 - k, n + 2 - k, n + 1);
      assert RangeSum(n, n + 1 - k, n + 2 - k) == RangeSum(n, n + 1 - k, n + 1 - k) + Comb(n, n + 1 - k);
    }
  }

  lemma {:induction false} RangePositive(n: nat, lo: nat, hi: nat)
    requires lo < hi <= n + 1
    ensures RangeSum(n, lo, hi) >= 1
    decreases hi
  {
    CombPositive(n, hi - 1);
  }

  /** Both tails together miss the middle of the row when they are short, and
      count its centre twice when they meet. */
  lemma TwoTails(n: nat, k: nat)
    requires 2 * k <= n
    ensures 2 * RangeSum(n, 0, k + 1) == if 2 * k == n then Pow2(n) + Comb(n, k)
                                          else Pow2(n) - RangeSum(n, k + 1, n - k)
  {
    RowSum(n);
    TailsMirror(n, k + 1);
    RangeSplit(n, 0, n - k, n + 1);
    if 2 * k == n {
      assert RangeSum(n, 0, k + 1) == RangeSum(n, 0, k) + Comb(n, k);
    } else {
      RangeSplit(n, 0, k + 1, n - k);
    }
  }

  // -------------------------------------------------------------- p-values

  /** The doubled tail before clamping. */
  function Doubled(n: nat, k: nat): real {
    2.0 * (RangeSum(n, 0, k + 1) as real / Pow2(n) as real)
  }

  lemma DoubleAgainstOne(tail: nat, whole: nat)
    requires tail >= 1 && whole >= 1
    ensures var d := 2.0 * (tail as real / whole as real);
      d > 0.0 && (d < 1.0 <==> 2 * tail < whole) && (d > 1.0 <==> 2 * tail > whole)
  {
    var r, x := whole as real, tail as real / whole as real;
    assert x * r == tail as real;
    ProductSign(x, r);
    assert (2.0 * x - 1.0) * r == (2 * tail - whole) as real;
    ProductSign(2.0 * x - 1.0, r);
  }

  lemma DoubledValue(n: nat, k: nat)
    requires n >= 1 && 2 * k <= n
    ensures Doubled(n, k) > 0.0
    ensures 2 * k == n ==> Doubled(n, k) > 1.0
    ensures 2 * k + 1 == n ==> Doubled(n, k) == 1.0
    ensures 2 * k + 1 < n ==> Doubled(n, k) < 1.0
  {
    TwoTails(n, k);
    RangePositive(n, 0, k + 1);
    DoubleAgainstOne(RangeSum(n, 0, k + 1), Pow2(n));
    if 2 * k == n {
      CombPositive(n, k);
    } else if 2 * k + 1 < n {
      RangePositive(n, k + 1, n - k);
    }
  }

  function Min(a: nat, b: nat): nat { if a <= b then a else b }

  /** The p-value lies in (0, 1], does not depend on which side is called proposed,
      is 1 exactly when the win counts differ by at most one, and the clamp changes
      it exactly when they are equal and not zero. */
  lemma PValueProperties(a: nat, b: nat)
    ensures 0.0 < PValue(a, b) <= 1.0 && PValue(a, b) == PValue(b, a)
    ensures PValue(a, b) == 1.0 <==> -1 <= a - b <= 1
    ensures a + b > 0 ==> (PValue(a, b) != Doubled(a + b, Min(a, b)) <==> a == b)
  {
    if a + b > 0 {
      DoubledValue(a + b, Min(a, b));
    }
  }

  /** More lopsided counts over the same number of discordant pairs are more significant. */
  lemma MoreLopsidedIsSmaller(n: nat, k: nat, j: nat)
    requires k < j && 2 * j <= n
    ensures PValue(k, n - k) < PValue(j, n - j)
  {
    DoubledValue(n, k);
    DoubledValue(n, j);
    RangeSplit(n, 0, k + 1, j + 1);
    RangePositive(n, k + 1, j + 1);
    QuotientOrder(RangeSum(n, 0, k + 1) as real, RangeSum(n, 0, j + 1) as real, Pow2(n) as real);
  }
}
