/**
 * The recurrence behind every moving average of the engine: a simple mean of the first
 * `p` entries, then `w * x + (1 - w) * previous`. An EMA has `w = 2/(p+1)`, Wilder's
 * average has `w = 1/p`, and Wilder's un-normalised smoothing is `p` times the latter.
 */
module Averages {
  import opened Shared

  function Mean(x: seq<real>, n: nat): real
    requires 1 <= n <= |x|
  {
    Total(x, n) / n as real
  }

  function Blend(w: real, a: real, b: real): real { w * a + (1.0 - w) * b }

  function Average(x: seq<real>, p: nat, w: real, i: nat): real
    requires 1 <= p <= i + 1 <= |x|
    decreases i
  {
    if i == p - 1 then Mean(x, p) else Blend(w, x[i], Average(x, p, w, i - 1))
  }

  function EmaWeight(p: nat): (w: real)
    requires 1 <= p
    ensures 0.0 < w <= 1.0 && (p >= 2 ==> w < 1.0)
  {
    2.0 / (p + 1) as real
  }

  function WilderWeight(p: nat): (w: real)
    requires 1 <= p
    ensures 0.0 < w <= 1.0 && (p >= 2 ==> w < 1.0)
  {
    1.0 / p as real
  }

  lemma Between(w: real, a: real, b: real, lo: real, hi: real)
    requires 0.0 <= w <= 1.0 && lo <= a <= hi && lo <= b <= hi
    ensures lo <= Blend(w, a, b) <= hi
  {
    BlendAtLeast(w, a, b, lo);
    BlendAtMost(w, a, b, hi);
  }

  lemma BlendAtLeast(w: real, a: real, b: real, lo: real)
    requires 0.0 <= w <= 1.0 && lo <= a && lo <= b
    ensures lo <= Blend(w, a, b)
  {
    var x, y := w * (a - lo), (1.0 - w) * (b - lo);
    assert x >= 0.0;
    assert y >= 0.0;
    assert Blend(w, a, b) == x + y + lo;
  }

  lemma BlendAtMost(w: real, a: real, b: real, hi: real)
    requires 0.0 <= w <= 1.0 && a <= hi && b <= hi
    ensures Blend(w, a, b) <= hi
  {
    var x, y := w * (hi - a), (1.0 - w) * (hi - b);
    assert x >= 0.0;
    assert y >= 0.0;
    assert Blend(w, a, b) == hi - x - y;
  }

  lemma MeanBetween(x: seq<real>, n: nat, lo: real, hi: real)
    requires 1 <= n <= |x|
    requires forall j :: 0 <= j < n ==> lo <= x[j] <= hi
    ensures lo <= Mean(x, n) <= hi
  {
    TotalBounds(x, n, lo, hi);
    var m := n as real;
    QuotientBetween(lo, Total(x, n), hi, m);
  }

  /** An average never leaves the range of the entries it has read. */
  lemma {:induction false} AverageBetween(x: seq<real>, p: nat, w: real, i: nat, lo: real, hi: real)
    requires 1 <= p <= i + 1 <= |x| && 0.0 <= w <= 1.0
    requires forall j :: 0 <= j <= i ==> lo <= x[j] <= hi
    ensures lo <= Average(x, p, w, i) <= hi
    decreases i
  {
    if i == p - 1 {
      MeanBetween(x, p, lo, hi);
    } else {
      AverageBetween(x, p, w, i - 1, lo, hi);
      Between(w, x[i], Average(x, p, w, i - 1), lo, hi);
    }
  }

  lemma BlendPositive(w: real, a: real, b: real)
    requires 0.0 <= w <= 1.0 && 0.0 <= a && 0.0 <= b
    requires (w > 0.0 && a > 0.0) || (w < 1.0 && b > 0.0)
    ensures Blend(w, a, b) > 0.0
  {
    assert w * a >= 0.0 && (1.0 - w) * b >= 0.0;
    assert w * a > 0.0 || (1.0 - w) * b > 0.0;
  }

  /**
   * The average of non-negative entries is positive once one entry read so far is, unless
   * `w = 1`, when it forgets everything but the newest entry.
   */
  lemma {:induction false} AveragePositive(x: seq<real>, p: nat, w: real, i: nat, t: nat)
    requires 1 <= p <= i + 1 <= |x| && 0.0 < w <= 1.0
    requires forall j :: 0 <= j <= i ==> 0.0 <= x[j]
    requires t <= i && x[t] > 0.0 && (w < 1.0 || t == i)
    ensures Average(x, p, w, i) > 0.0
    decreases i
  {
    hide Blend;
    if i == p - 1 {
      TotalNonNegative(x, p);
    } else {
      AverageNonNegative(x, p, w, i - 1);
      if t < i {
        AveragePositive(x, p, w, i - 1, t);
      }
      BlendPositive(w, x[i], Average(x, p, w, i - 1));
    }
  }

  lemma {:induction false} AverageNonNegative(x: seq<real>, p: nat, w: real, i: nat)
    requires 1 <= p <= i + 1 <= |x| && 0.0 <= w <= 1.0
    requires forall j :: 0 <= j <= i ==> 0.0 <= x[j]
    ensures 0.0 <= Average(x, p, w, i)
    decreases i
  {
    if i == p - 1 {
      TotalNonNegative(x, p);
    } else {
      AverageNonNegative(x, p, w, i - 1);
      var a := Average(x, p, w, i - 1);
      Between(w, x[i], a, 0.0, x[i] + a);
    }
  }

  /** All entries zero so far: so is the average. */
  lemma AverageZero(x: seq<real>, p: nat, w: real, i: nat)
    requires 1 <= p <= i + 1 <= |x| && 0.0 <= w <= 1.0
    requires forall j :: 0 <= j <= i ==> x[j] == 0.0
    ensures Average(x, p, w, i) == 0.0
  {
    AverageBetween(x, p, w, i, 0.0, 0.0);
  }

  /** The value at `i` reads nothing after entry `i`. */
  lemma {:induction false} AverageCausal(x: seq<real>, y: seq<real>, p: nat, w: real, i: nat)
    requires 1 <= p <= i + 1 <= |x| && i < |y|
    requires forall j :: 0 <= j <= i ==> x[j] == y[j]
    ensures Average(x, p, w, i) == Average(y, p, w, i)
    decreases i
  {
    if i == p - 1 {
      TotalCausal(x, y, p);
    } else {
      AverageCausal(x, y, p, w, i - 1);
    }
  }

  /** Averaging keeps a pointwise inequality `x + y <= z`. */
  lemma {:induction false} AverageSumBelow(x: seq<real>, y: seq<real>, z: seq<real>, p: nat, w: real, i: nat)
    requires 1 <= p <= i + 1 <= |x| && i < |y| && i < |z| && 0.0 <= w <= 1.0
    requires forall j :: 0 <= j <= i ==> x[j] + y[j] <= z[j]
    ensures Average(x, p, w, i) + Average(y, p, w, i) <= Average(z, p, w, i)
    decreases i
  {
    hide Blend;
    if i == p - 1 {
      MeanSumBelow(x, y, z, p);
    } else {
      AverageSumBelow(x, y, z, p, w, i - 1);
      BlendSumBelow(w, x[i], y[i], z[i],
                    Average(x, p, w, i - 1), Average(y, p, w, i - 1), Average(z, p, w, i - 1));
    }
  }

  lemma MeanSumBelow(x: seq<real>, y: seq<real>, z: seq<real>, n: nat)
    requires 1 <= n <= |x| && n <= |y| && n <= |z|
    requires forall j :: 0 <= j < n ==> x[j] + y[j] <= z[j]
    ensures Mean(x, n) + Mean(y, n) <= Mean(z, n)
  {
    TotalSumBelow(x, y, z, n);
    DivideBelow(Total(x, n) + Total(y, n), Total(z, n), n as real);
  }

  lemma BlendSumBelow(w: real, x: real, y: real, z: real, a: real, b: real, c: real)
    requires 0.0 <= w <= 1.0 && x + y <= z && a + b <= c
    ensures Blend(w, x, a) + Blend(w, y, b) <= Blend(w, z, c)
  {
    assert w * (z - x - y) >= 0.0;
    assert (1.0 - w) * (c - a - b) >= 0.0;
  }

  lemma {:induction false} TotalSumBelow(x: seq<real>, y: seq<real>, z: seq<real>, n: nat)
    requires n <= |x| && n <= |y| && n <= |z|
    requires forall j :: 0 <= j < n ==> x[j] + y[j] <= z[j]
    ensures Total(x, n) + Total(y, n) <= Total(z, n)
  {
    if n == 0 {
    } else {
      TotalSumBelow(x, y, z, n - 1);
    }
  }

  function SmoothNext(n: real, prev: real, x: real): real
    requires n != 0.0
  {
    prev - prev / n + x
  }

  /**
   * Wilder's un-normalised smoothing, as `_wilder_smooth` computes it: seed with a sum,
   * then `s - s/p + x`.
   */
  function Smoothed(x: seq<real>, p: nat, i: nat): real
    requires 1 <= p <= i + 1 <= |x|
    decreases i
  {
    if i == p - 1 then Total(x, p)
    else SmoothNext(p as real, Smoothed(x, p, i - 1), x[i])
  }

  /** The smoothing is `p` times Wilder's average, so it inherits all the lemmas above. */
  lemma {:induction false} SmoothedIsScaledAverage(x: seq<real>, p: nat, i: nat)
    requires 1 <= p <= i + 1 <= |x|
    ensures Smoothed(x, p, i) == p as real * Average(x, p, WilderWeight(p), i)
    decreases i
  {
    var m := p as real;
    if i == p - 1 {
    } else {
      SmoothedIsScaledAverage(x, p, i - 1);
      var a := Average(x, p, WilderWeight(p), i - 1);
      assert (m * a) / m == a;
      assert m * (1.0 / m * x[i]) == x[i] && m * (1.0 - 1.0 / m) == m - 1.0;
      assert m * ((1.0 - 1.0 / m) * a) == (m - 1.0) * a;
    }
  }

  // ---- EMAs on a non-decreasing series ------------------------------------------------

  predicate NonDecreasing(x: seq<real>) {
    forall i, j :: 0 <= i <= j < |x| ==> x[i] <= x[j]
  }

  /** On a non-decreasing series an average never exceeds the newest entry. */
  lemma AverageBelowNewest(x: seq<real>, p: nat, w: real, i: nat)
    requires 1 <= p <= i + 1 <= |x| && 0.0 <= w <= 1.0 && NonDecreasing(x)
    ensures Average(x, p, w, i) <= x[i]
  {
    AverageBetween(x, p, w, i, x[0], x[i]);
  }

  /** On a non-decreasing series an EMA is at least the mean of everything read so far. */
  lemma {:induction false} EmaAboveRunningMean(x: seq<real>, p: nat, i: nat)
    requires 1 <= p <= i + 1 <= |x| && NonDecreasing(x)
    ensures Mean(x, i + 1) <= Average(x, p, EmaWeight(p), i)
    decreases i
  {
    if i == p - 1 {
    } else {
      EmaAboveRunningMean(x, p, i - 1);
      MeanBetween(x, i, x[0], x[i]);
      WeightOrder(p, i);
      StepMean(Total(x, i), i as real, x[i], EmaWeight(p), Average(x, p, EmaWeight(p), i - 1));
    }
  }

  lemma StepMean(t: real, n: real, c: real, w: real, e: real)
    requires n >= 1.0 && t / n <= c && t / n <= e && 1.0 / (n + 1.0) <= w <= 1.0
    ensures (t + c) / (n + 1.0) <= Blend(w, c, e)
  {
    var d, m := n + 1.0, t / n;
    var v := 1.0 / d;
    assert t + c == m * d + (c - m) by { assert m * n == t; }
    assert (t + c) / d == m + v * (c - m) by { DivideSum(m, c - m, d); }
    BlendAbove(w, v, c, m, e);
  }

  lemma DivideSum(m: real, r: real, d: real)
    requires d > 0.0
    ensures (m * d + r) / d == m + 1.0 / d * r
  {
    assert m * d / d == m;
  }

  lemma BlendAbove(w: real, v: real, c: real, m: real, e: real)
    requires v <= w <= 1.0 && m <= c && m <= e
    ensures m + v * (c - m) <= Blend(w, c, e)
  {
    assert (w - v) * (c - m) >= 0.0;
    assert (1.0 - w) * (e - m) >= 0.0;
  }

  lemma WeightOrder(p: nat, i: nat)
    requires 1 <= p <= i
    ensures 1.0 / (i as real + 1.0) <= EmaWeight(p)
  {
    var a, b := i as real + 1.0, p as real + 1.0;
    assert b <= a && (p + 1) as real == b;
    assert 1.0 / a <= 1.0 / b by { assert 1.0 / b - 1.0 / a == (a - b) / (a * b); }
    assert 2.0 / b == 2.0 * (1.0 / b);
  }

  lemma EmaWeightDecreases(f: nat, s: nat)
    requires 1 <= f <= s
    ensures EmaWeight(s) <= EmaWeight(f)
  {
    var a, b := (s + 1) as real, (f + 1) as real;
    assert 2.0 / b - 2.0 / a == 2.0 * (a - b) / (a * b);
    assert 2.0 * (a - b) / (a * b) >= 0.0;
  }

  /** A heavier-weighted average that starts above a lighter one stays above it. */
  lemma {:induction false} HeavierStaysAbove(x: seq<real>, f: nat, wf: real, s: nat, ws: real, i: nat)
    requires 1 <= f <= s <= i + 1 <= |x| && NonDecreasing(x) && 0.0 <= ws <= wf <= 1.0
    requires Mean(x, s) <= Average(x, f, wf, s - 1)
    ensures Average(x, s, ws, i) <= Average(x, f, wf, i)
    decreases i
  {
    hide Blend;
    if i == s - 1 {
    } else {
      HeavierStaysAbove(x, f, wf, s, ws, i - 1);
      AverageBelowNewest(x, f, wf, i - 1);
      assert x[i - 1] <= x[i];
      BlendOrder(wf, ws, x[i], Average(x, f, wf, i - 1), Average(x, s, ws, i - 1));
    }
  }

  /**
   * On a non-decreasing series the faster EMA is never below the slower one, although the
   * two are seeded at different bars: at the slower seed the comparison goes through the
   * running mean.
   */
  lemma FastAboveSlow(x: seq<real>, f: nat, s: nat, i: nat)
    requires 1 <= f <= s <= i + 1 <= |x| && NonDecreasing(x)
    ensures Average(x, s, EmaWeight(s), i) <= Average(x, f, EmaWeight(f), i)
  {
    EmaAboveRunningMean(x, f, s - 1);
    EmaWeightDecreases(f, s);
    HeavierStaysAbove(x, f, EmaWeight(f), s, EmaWeight(s), i);
  }

  lemma BlendOrder(wf: real, ws: real, c: real, ef: real, es: real)
    requires 0.0 <= ws <= wf <= 1.0 && es <= ef <= c
    ensures Blend(ws, c, es) <= Blend(wf, c, ef)
  {
    assert (wf - ws) * (c - ef) >= 0.0;
    assert (1.0 - ws) * (ef - es) >= 0.0;
  }
}
