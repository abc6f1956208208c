/**
 * What each indicator's value is, in the textbook form without weights and divisions, and
 * independent of how the loops and their specifications are written.
 */
module IndicatorValues {
  import opened Shared
  import opened Averages
  import opened Indicators
  import opened Adx
  import IndicatorProperties

  // ---- Sums and averages ---------------------------------------------------------------------

  lemma TotalOfOne(x: real)
    ensures Total([x], 1) == x && Total([x], 0) == 0.0
  {
    assert Total([x], 1) == Total([x], 0) + x;
  }

  /** `Total` adds up: with `TotalOfOne` this leaves no other function. */
  lemma {:induction false} TotalIsAdditive(x: seq<real>, y: seq<real>)
    ensures Total(x + y, |x| + |y|) == Total(x, |x|) + Total(y, |y|)
  {
    if y == [] {
      assert x + y == x;
    } else {
      var n := |y| - 1;
      TotalIsAdditive(x, y[..n]);
      TotalCausal(x + y[..n], x + y, |x| + n);
      TotalCausal(y[..n], y, n);
      assert (x + y)[|x| + n] == y[n];
    }
  }

  /** A weight `a/m` turns the recurrence into whole multiples. */
  lemma BlendTimes(w: real, x: real, prev: real, m: real, a: real)
    requires w * m == a
    ensures Blend(w, x, prev) * m == a * x + (m - a) * prev
  {
    assert w * x * m == (w * m) * x;
    assert (1.0 - w) * prev * m == (m - w * m) * prev;
  }

  lemma MeanTimes(x: seq<real>, n: nat)
    requires 1 <= n <= |x|
    ensures Mean(x, n) * n as real == Total(x, n)
  {
  }

  /** Wilder's average: (p - 1) parts old and one part new. */
  predicate WilderParts(now: real, prev: real, x: real, p: real) { now * p == (p - 1.0) * prev + x }

  /** EMA: two parts new and (p - 1) parts old, of p + 1. */
  predicate EmaParts(now: real, prev: real, x: real, p: real) { now * (p + 1.0) == 2.0 * x + (p - 1.0) * prev }

  lemma WilderSeed(x: seq<real>, p: nat)
    requires 1 <= p <= |x|
    ensures Average(x, p, WilderWeight(p), p - 1) * p as real == Total(x, p)
  {
    MeanTimes(x, p);
  }

  lemma WilderAverage(x: seq<real>, p: nat, i: nat)
    requires 1 <= p <= i < |x|
    ensures WilderParts(Average(x, p, WilderWeight(p), i), Average(x, p, WilderWeight(p), i - 1), x[i], p as real)
  {
    hide Blend, Mean;
    BlendTimes(WilderWeight(p), x[i], Average(x, p, WilderWeight(p), i - 1), p as real, 1.0);
  }

  lemma EmaSeed(x: seq<real>, p: nat)
    requires 1 <= p <= |x|
    ensures Average(x, p, EmaWeight(p), p - 1) * p as real == Total(x, p)
  {
    MeanTimes(x, p);
  }

  lemma ExponentialAverage(x: seq<real>, p: nat, i: nat)
    requires 1 <= p <= i < |x|
    ensures EmaParts(Average(x, p, EmaWeight(p), i), Average(x, p, EmaWeight(p), i - 1), x[i], p as real)
  {
    hide Blend, Mean;
    assert EmaWeight(p) * (p as real + 1.0) == 2.0;
    BlendTimes(EmaWeight(p), x[i], Average(x, p, EmaWeight(p), i - 1), p as real + 1.0, 2.0);
  }

  // ---- The indicators ------------------------------------------------------------------------

  /** EMA: seeded with the mean of the first `p` closes, then one EMA step per close. */
  lemma EmaValue(ks: seq<Kline>, p: nat, i: nat)
    requires 1 <= p <= i + 1 <= |ks|
    ensures var e := EmaSeries(ks, p);
      && (i == p - 1 ==> e[i].value * p as real == Total(Closes(ks), p))
      && (i > p - 1 ==> EmaParts(e[i].value, e[i - 1].value, ks[i].close, p as real))
  {
    hide Average, EmaWeight, EmaParts;
    if i == p - 1 {
      EmaSeed(Closes(ks), p);
    } else {
      ExponentialAverage(Closes(ks), p, i);
    }
  }

  /** The largest of the bar's range and its distances from the previous close. */
  lemma TrueRangeIsLargest(ks: seq<Kline>, i: nat)
    requires i < |ks|
    ensures i == 0 ==> TrueRangeAt(ks, i) == ks[0].high - ks[0].low
    ensures i > 0 ==>
      var t, h, l, pc := TrueRangeAt(ks, i), ks[i].high, ks[i].low, ks[i - 1].close;
      && t >= h - l && t >= h - pc && t >= pc - h && t >= l - pc && t >= pc - l
      && (t == h - l || t == h - pc || t == pc - h || t == l - pc || t == pc - l)
  {
  }

  /** ATR: seeded with the mean of the first `p` true ranges, then Wilder's rule. */
  lemma AtrValue(ks: seq<Kline>, p: nat, i: nat)
    requires 1 <= p <= i + 1 <= |ks|
    ensures var a := AtrSeries(ks, p);
      && (i == p - 1 ==> a[i].value * p as real == Total(TrueRanges(ks), p))
      && (i > p - 1 ==> WilderParts(a[i].value, a[i - 1].value, TrueRangeAt(ks, i), p as real))
  {
    hide Average, WilderWeight, WilderParts, TrueRangeAt;
    if i == p - 1 {
      WilderSeed(TrueRanges(ks), p);
    } else {
      WilderAverage(TrueRanges(ks), p, i);
    }
  }

  /** RSI is 100 times the averaged gains over the averaged gains and losses. */
  lemma RsiValue(ks: seq<Kline>, p: nat, i: nat)
    requires 1 <= p <= i < |ks|
    ensures var g, l, r := AverageGain(ks, p, i), AverageLoss(ks, p, i), RsiSeries(ks, p)[i].value;
      if g + l == 0.0 then r == 50.0 else r * (g + l) == 100.0 * g
  {
    hide Average;
    var g, l := AverageGain(ks, p, i), AverageLoss(ks, p, i);
    IndicatorProperties.RsiIsGainShare(g, l);
    hide RsiFromGainLoss;
    if g + l != 0.0 { ShareTimes(g, g + l); }
  }

  lemma ShareTimes(a: real, b: real)
    requires b != 0.0
    ensures 100.0 * (a / b) * b == 100.0 * a
  {
    var q := a / b;
    assert q * b == a;
    assert 100.0 * q * b == 100.0 * (q * b);
  }

  /** The averaged gain follows Wilder's rule over the rises of the close ... */
  lemma GainValue(ks: seq<Kline>, p: nat, i: nat)
    requires 1 <= p <= i < |ks|
    ensures var g := ks[i].close - ks[i - 1].close;
      && (i == p ==> AverageGain(ks, p, i) * p as real == Total(Gains(ks), p))
      && (i > p ==> WilderParts(AverageGain(ks, p, i), AverageGain(ks, p, i - 1), if g > 0.0 then g else 0.0, p as real))
  {
    hide Average, WilderWeight, WilderParts;
    if i == p {
      WilderSeed(Gains(ks), p);
    } else {
      WilderAverage(Gains(ks), p, i - 1);
    }
  }

  /** ... and the averaged loss over its falls. */
  lemma LossValue(ks: seq<Kline>, p: nat, i: nat)
    requires 1 <= p <= i < |ks|
    ensures var l := ks[i - 1].close - ks[i].close;
      && (i == p ==> AverageLoss(ks, p, i) * p as real == Total(Losses(ks), p))
      && (i > p ==> WilderParts(AverageLoss(ks, p, i), AverageLoss(ks, p, i - 1), if l > 0.0 then l else 0.0, p as real))
  {
    hide Average, WilderWeight, WilderParts;
    if i == p {
      WilderSeed(Losses(ks), p);
    } else {
      WilderAverage(Losses(ks), p, i - 1);
    }
  }

  /** The entries of the seeds: rises and falls of the close, one per bar from bar 1 on. */
  lemma GainEntry(ks: seq<Kline>, t: nat)
    requires t + 1 < |ks|
    ensures Gains(ks)[t] - Losses(ks)[t] == ks[t + 1].close - ks[t].close
    ensures Gains(ks)[t] >= 0.0 && Losses(ks)[t] >= 0.0 && (Gains(ks)[t] == 0.0 || Losses(ks)[t] == 0.0)
  {
  }

  /** MACD is the difference of the two EMAs, and its signal an EMA of that difference. */
  lemma MacdValue(ks: seq<Kline>, fast: nat, slow: nat, signal: nat, i: nat)
    requires 1 <= fast < slow <= i + 1 <= |ks| && 1 <= signal
    ensures MacdLine(ks, fast, slow)[i].value == EmaSeries(ks, fast)[i].value - EmaSeries(ks, slow)[i].value
    ensures var s, line := MacdSignal(ks, fast, slow, signal), MacdLine(ks, fast, slow);
      && (s[i].Some? <==> slow + signal - 2 <= i)
      && (i == slow + signal - 2 ==> s[i].value * signal as real == Total(MacdTail(ks, fast, slow), signal))
      && (i > slow + signal - 2 ==> EmaParts(s[i].value, s[i - 1].value, line[i].value, signal as real))
      && MinusWhereBoth(line, s)[i] == if slow + signal - 2 <= i then Some(line[i].value - s[i].value) else None
  {
    hide Average, EmaWeight, EmaParts;
    if i == slow + signal - 2 {
      EmaSeed(MacdTail(ks, fast, slow), signal);
    } else if i > slow + signal - 2 {
      ExponentialAverage(MacdTail(ks, fast, slow), signal, i - (slow - 1));
    }
  }

  /** The seed of the signal adds up the first defined values of the line. */
  lemma MacdTailEntry(ks: seq<Kline>, fast: nat, slow: nat, t: nat)
    requires 1 <= fast < slow && slow - 1 + t < |ks|
    ensures t < |MacdTail(ks, fast, slow)| && Some(MacdTail(ks, fast, slow)[t]) == MacdLine(ks, fast, slow)[slow - 1 + t]
  {
    hide Average;
  }

  /** VWAP times traded volume is traded value, at a price of a third of high, low and close. */
  lemma VwapValue(ks: seq<Kline>, i: nat)
    requires i < |ks| && VwapSeries(ks)[i].Some?
    ensures VwapSeries(ks)[i].value * CumulativeVolume(ks, i + 1) == CumulativePv(ks, i + 1)
    ensures CumulativeVolume(ks, 0) == 0.0 == CumulativePv(ks, 0)
    ensures CumulativeVolume(ks, i + 1) - CumulativeVolume(ks, i) == ks[i].volume
    ensures 3.0 * (CumulativePv(ks, i + 1) - CumulativePv(ks, i)) == (ks[i].high + ks[i].low + ks[i].close) * ks[i].volume
  {
    var q, v := CumulativePv(ks, i + 1), CumulativeVolume(ks, i + 1);
    assert q / v * v == q;
    TypicalTimes(Typical(ks[i]), ks[i].volume);
  }

  lemma TypicalTimes(t: real, v: real)
    ensures 3.0 * Traded(t, v) == (3.0 * t) * v
  {
  }

  // ---- ADX -------------------------------------------------------------------------------------

  /** A directional move counts when it is a rise (fall) of its own and the larger of the two. */
  lemma DirectionalMoveMeaning(ks: seq<Kline>, i: nat)
    requires 1 <= i < |ks|
    ensures var up, down := ks[i].high - ks[i - 1].high, ks[i - 1].low - ks[i].low;
      && (PlusDmAt(ks, i) > 0.0 <==> up > 0.0 && up > down) && (PlusDmAt(ks, i) != 0.0 ==> PlusDmAt(ks, i) == up)
      && (MinusDmAt(ks, i) > 0.0 <==> down > 0.0 && down > up) && (MinusDmAt(ks, i) != 0.0 ==> MinusDmAt(ks, i) == down)
    ensures PlusDmAt(ks, 0) == 0.0 == MinusDmAt(ks, 0)
  {
  }

  /** Wilder's sum: seeded with `p` entries, then (p - 1)/p of the old sum and the new entry. */
  lemma SmoothedValue(x: seq<real>, p: nat, i: nat)
    requires 1 <= p <= i + 1 <= |x|
    ensures if i == p - 1 then Smoothed(x, p, i) == Total(x, p)
            else (Smoothed(x, p, i) - x[i]) * p as real == (p as real - 1.0) * Smoothed(x, p, i - 1)
  {
    hide Total;
    if i > p - 1 {
      var s := Smoothed(x, p, i - 1);
      assert s / p as real * p as real == s;
      assert Smoothed(x, p, i) - x[i] == s - s / p as real;
    }
  }

  /** DX compares the two smoothed moves; the true range they are measured in cancels. */
  lemma DxValue(ks: seq<Kline>, p: nat, i: nat)
    requires ValidSeries(ks) && 1 <= p <= i + 1 <= |ks| && SmoothedTr(ks, p, i) != 0.0
    ensures var u, d := Smoothed(PlusDms(ks), p, i), Smoothed(MinusDms(ks), p, i);
      && (u + d == 0.0 ==> DxAt(ks, p, i) == 0.0)
      && (u >= d ==> DxAt(ks, p, i) * (u + d) == 100.0 * (u - d))
      && (u <= d ==> DxAt(ks, p, i) * (u + d) == 100.0 * (d - u))
  {
    hide Smoothed, Dx, Di, SmoothedTr;
    SmoothedMovesBelowTrueRange(ks, p, i);
    var u, d, t := Smoothed(PlusDms(ks), p, i), Smoothed(MinusDms(ks), p, i), SmoothedTr(ks, p, i);
    assert DxAt(ks, p, i) == Dx(Di(u, t), Di(d, t));
    hide DxAt, PlusDms, MinusDms;
    DxOfMoves(u, d, t);
  }

  lemma DxOfMoves(u: real, d: real, t: real)
    requires 0.0 <= u && 0.0 <= d && 0.0 < t
    ensures u + d == 0.0 ==> Dx(Di(u, t), Di(d, t)) == 0.0
    ensures u >= d ==> Dx(Di(u, t), Di(d, t)) * (u + d) == 100.0 * (u - d)
    ensures u <= d ==> Dx(Di(u, t), Di(d, t)) * (u + d) == 100.0 * (d - u)
  {
    var a, b := Di(u, t), Di(d, t);
    assert a * t == 100.0 * u && b * t == 100.0 * d;
    ScaleOrder(b, a, t);
    ScaleOrder(a, b, t);
    DxTimes(a, b);
    hide Dx, Di;
    if a + b == 0.0 {
      assert (a + b) * t == 0.0;
      Distribute(a, b, t);
    } else {
      CrossDx(Dx(a, b), a, b, u, d, t);
    }
  }

  lemma DxTimes(a: real, b: real)
    ensures a + b == 0.0 ==> Dx(a, b) == 0.0
    ensures Dx(a, b) * (a + b) == if a + b == 0.0 then 0.0 else 100.0 * Abs(a - b)
  {
    if a + b != 0.0 {
      var q := 100.0 * Abs(a - b);
      assert q / (a + b) * (a + b) == q;
    }
  }

  lemma CrossDx(x: real, a: real, b: real, u: real, d: real, t: real)
    requires t > 0.0 && a * t == 100.0 * u && b * t == 100.0 * d && x * (a + b) == 100.0 * Abs(a - b)
    ensures a >= b ==> x * (u + d) == 100.0 * (u - d)
    ensures a <= b ==> x * (u + d) == 100.0 * (d - u)
  {
    Distribute(a, b, t);
    assert (a + b) * t == 100.0 * (u + d) && (a - b) * t == 100.0 * (u - d);
    assert x * (a + b) * t == x * ((a + b) * t);
    assert x * (100.0 * (u + d)) == 100.0 * (x * (u + d));
    if a >= b {
      assert 100.0 * (a - b) * t == 100.0 * ((a - b) * t);
    } else {
      assert 100.0 * (b - a) * t == -(100.0 * ((a - b) * t));
    }
  }

  /** ADX of a bar: the mean of the first `p` DX values, then Wilder's rule. */
  lemma AdxValue(ks: seq<Kline>, p: nat, i: nat)
    requires 1 <= p && FirstDx(ks, p) + p <= i + 1 <= |ks|
    ensures var s := FirstDx(ks, p);
      && (i == s + p - 1 ==> AdxOfBar(ks, p, i) * p as real == Total(DxFrom(ks, p, s), p))
      && (i > s + p - 1 ==> WilderParts(AdxOfBar(ks, p, i), AdxOfBar(ks, p, i - 1), DxAt(ks, p, i), p as real))
  {
    hide Average, WilderWeight, WilderParts, DxAt, FirstMove;
    var dx := DxFrom(ks, p, FirstDx(ks, p));
    if i == FirstDx(ks, p) + p - 1 {
      WilderSeed(dx, p);
    } else {
      WilderAverage(dx, p, i - FirstDx(ks, p));
    }
  }
}
