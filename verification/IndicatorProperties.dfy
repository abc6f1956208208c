/** What the indicators promise: ranges, symmetry, prefix stability and trend agreement. */
module IndicatorProperties {
  import opened Shared
  import opened Averages
  import opened Indicators

  // ---- Ranges ---------------------------------------------------------------------------

  lemma EmaWithinCloses(ks: seq<Kline>, p: nat, i: nat, lo: real, hi: real)
    requires 1 <= p && i < |ks|
    requires forall j :: 0 <= j <= i ==> lo <= ks[j].close <= hi
    ensures EmaSeries(ks, p)[i].Some? <==> p - 1 <= i
    ensures p - 1 <= i ==> lo <= EmaSeries(ks, p)[i].value <= hi
  {
    if p - 1 <= i {
      AverageBetween(Closes(ks), p, EmaWeight(p), i, lo, hi);
    }
  }

  lemma AtrWithinTrueRanges(ks: seq<Kline>, p: nat, i: nat, lo: real, hi: real)
    requires 1 <= p && i < |ks|
    requires forall j :: 0 <= j <= i ==> lo <= TrueRangeAt(ks, j) <= hi
    ensures AtrSeries(ks, p)[i].Some? <==> p - 1 <= i
    ensures p - 1 <= i ==> lo <= AtrSeries(ks, p)[i].value <= hi
  {
    if p - 1 <= i {
      AverageBetween(TrueRanges(ks), p, WilderWeight(p), i, lo, hi);
    }
  }

  lemma TrueRangeNonNegative(ks: seq<Kline>, i: nat)
    requires ValidSeries(ks) && i < |ks|
    ensures 0.0 <= TrueRangeAt(ks, i)
    ensures i > 0 && ks[i].close != ks[i - 1].close ==> TrueRangeAt(ks, i) > 0.0
  {
    assert ValidCandle(ks[i]);
  }

  /** A positive true range seen so far keeps the ATR positive, unless the period is 1. */
  lemma AtrPositive(ks: seq<Kline>, p: nat, i: nat, t: nat)
    requires ValidSeries(ks) && 1 <= p <= i + 1 <= |ks|
    requires t <= i && TrueRangeAt(ks, t) > 0.0 && (p >= 2 || t == i)
    ensures AtrSeries(ks, p)[i].Some? && AtrSeries(ks, p)[i].value > 0.0
  {
    forall j | 0 <= j <= i ensures 0.0 <= TrueRanges(ks)[j] {
      TrueRangeNonNegative(ks, j);
    }
    AveragePositive(TrueRanges(ks), p, WilderWeight(p), i, t);
  }

  predicate Sandwiched(lo: real, hi: real, pv: real, v: real) { lo * v <= pv <= hi * v }

  lemma SandwichedZero(lo: real, hi: real)
    ensures Sandwiched(lo, hi, 0.0, 0.0)
  {
  }

  lemma {:induction false} VolumePriceBetween(ks: seq<Kline>, n: nat, lo: real, hi: real)
    requires ValidSeries(ks) && n <= |ks|
    requires forall j :: 0 <= j < n ==> lo <= ks[j].low && ks[j].high <= hi
    ensures 0.0 <= CumulativeVolume(ks, n)
    ensures Sandwiched(lo, hi, CumulativePv(ks, n), CumulativeVolume(ks, n))
  {
    hide Typical, Traded;
    if n == 0 {
      SandwichedZero(lo, hi);
    } else {
      hide Sandwiched;
      VolumePriceBetween(ks, n - 1, lo, hi);
      TypicalInRange(ks[n - 1]);
      AddBetween(lo, hi, CumulativePv(ks, n - 1), CumulativeVolume(ks, n - 1), Typical(ks[n - 1]), ks[n - 1].volume);
    }
  }

  lemma TypicalInRange(k: Kline)
    requires ValidCandle(k)
    ensures k.low <= Typical(k) <= k.high
  {
  }

  lemma AddBetween(lo: real, hi: real, pv: real, v: real, t: real, w: real)
    requires 0.0 <= v && 0.0 <= w && Sandwiched(lo, hi, pv, v) && lo <= t <= hi
    ensures Sandwiched(lo, hi, pv + Traded(t, w), v + w)
  {
    ScaleBetween(lo, t, hi, w);
    Distribute(v, w, lo);
    Distribute(v, w, hi);
  }

  /** VWAP is defined once some volume traded, and lies between the lows and highs so far. */
  lemma VwapWithinRange(ks: seq<Kline>, i: nat, lo: real, hi: real)
    requires ValidSeries(ks) && i < |ks|
    requires forall j :: 0 <= j <= i ==> lo <= ks[j].low && ks[j].high <= hi
    ensures VwapSeries(ks)[i].Some? <==> exists j :: 0 <= j <= i && ks[j].volume > 0.0
    ensures VwapSeries(ks)[i].Some? ==> lo <= VwapSeries(ks)[i].value <= hi
  {
    hide CumulativePv, CumulativeVolume, Typical, Traded;
    VolumePriceBetween(ks, i + 1, lo, hi);
    VolumePositive(ks, i + 1);
    var v, pv := CumulativeVolume(ks, i + 1), CumulativePv(ks, i + 1);
    if v > 0.0 {
      QuotientBetween(lo, pv, hi, v);
    }
  }

  lemma {:induction false} VolumePositive(ks: seq<Kline>, n: nat)
    requires ValidSeries(ks) && n <= |ks|
    ensures 0.0 <= CumulativeVolume(ks, n)
    ensures CumulativeVolume(ks, n) > 0.0 <==> exists j :: 0 <= j < n && ks[j].volume > 0.0
  {
    if n == 0 {
    } else {
      VolumePositive(ks, n - 1);
      assert ValidCandle(ks[n - 1]);
    }
  }

  // ---- RSI ------------------------------------------------------------------------------

  /** RSI is the share of the average gain in the average move, in percent; 50 if none. */
  lemma RsiIsGainShare(g: real, l: real)
    requires 0.0 <= g && 0.0 <= l
    ensures RsiFromGainLoss(g, l) == if g + l == 0.0 then 50.0 else 100.0 * (g / (g + l))
  {
    if l > 0.0 {
      ShareInUnit(g, l);
      InverseShare(g, l);
    } else if g > 0.0 {
      Cancel(g / (g + l), 1.0, g);
    }
  }

  lemma RsiInRange(ks: seq<Kline>, p: nat, i: nat)
    requires 1 <= p && i < |ks|
    ensures RsiSeries(ks, p)[i].Some? <==> p <= i
    ensures p <= i ==> 0.0 <= RsiSeries(ks, p)[i].value <= 100.0
  {
    if p <= i {
      var g, l := AverageGain(ks, p, i), AverageLoss(ks, p, i);
      RsiIsGainShare(g, l);
      if g + l > 0.0 { ShareInUnit(g, l); }
    }
  }

  lemma InverseShare(g: real, l: real)
    requires 0.0 <= g && 0.0 < l
    ensures 1.0 + g / l > 0.0
    ensures 100.0 / (1.0 + g / l) == 100.0 * (l / (g + l))
  {
    var q, r := g + l, g / l;
    QuotientNonNegative(g, l);
    assert r * l == g;
    assert (1.0 + r) * l == q;
    var u := l / q;
    assert u * q == l;
    assert u * (1.0 + r) == 1.0 by {
      assert u * (1.0 + r) * l == u * q == l;
      Cancel(u * (1.0 + r), 1.0, l);
    }
    Cancel(100.0 / (1.0 + r), 100.0 * u, 1.0 + r);
  }

  lemma ShareInUnit(g: real, l: real)
    requires 0.0 <= g && 0.0 <= l && 0.0 < g + l
    ensures 0.0 <= g / (g + l) <= 1.0
    ensures g / (g + l) + l / (g + l) == 1.0
  {
    var q := g + l;
    var a, b := g / q, l / q;
    assert a * q == g && b * q == l;
    Distribute(a, b, q);
    Cancel(a + b, 1.0, q);
    QuotientNonNegative(g, q);
    QuotientNonNegative(l, q);
  }

  /** The price series turned upside down around `top / 2`. */
  function Reflect(ks: seq<Kline>, top: real): seq<Kline> {
    seq(|ks|, i requires 0 <= i < |ks| =>
      ks[i].(open := top - ks[i].open, high := top - ks[i].low, low := top - ks[i].high, close := top - ks[i].close))
  }

  lemma RsiReflects(ks: seq<Kline>, p: nat, i: nat, top: real)
    requires 1 <= p <= i < |ks|
    ensures RsiAt(Reflect(ks, top), p, i) == 100.0 - RsiAt(ks, p, i)
  {
    var rs := Reflect(ks, top);
    assert Gains(rs) == Losses(ks) && Losses(rs) == Gains(ks);
    var g, l := AverageGain(ks, p, i), AverageLoss(ks, p, i);
    assert AverageGain(rs, p, i) == l && AverageLoss(rs, p, i) == g;
    RsiIsGainShare(g, l);
    RsiIsGainShare(l, g);
    if g + l > 0.0 { ShareInUnit(g, l); }
  }

  lemma FlatClosesNoAverages(ks: seq<Kline>, p: nat, i: nat)
    requires 1 <= p <= i < |ks|
    requires forall j :: 0 <= j < i ==> ks[j + 1].close == ks[j].close
    ensures AverageGain(ks, p, i) == 0.0 == AverageLoss(ks, p, i)
  {
    hide Blend, WilderWeight, Average;
    AverageZero(Gains(ks), p, WilderWeight(p), i - 1);
    AverageZero(Losses(ks), p, WilderWeight(p), i - 1);
  }

  /** An RSI away from 50 needs a change of close at some bar it has read. */
  lemma RsiOffCentreMeansMove(ks: seq<Kline>, p: nat, i: nat) returns (t: nat)
    requires 1 <= p <= i < |ks| && RsiAt(ks, p, i) != 50.0
    ensures 1 <= t <= i && ks[t].close != ks[t - 1].close
  {
    hide AverageGain, AverageLoss;
    if forall j :: 0 <= j < i ==> ks[j + 1].close == ks[j].close {
      FlatClosesNoAverages(ks, p, i);
      assert false;
    }
    var u :| 0 <= u < i && ks[u + 1].close != ks[u].close;
    t := u + 1;
  }

  // ---- Prefix stability -----------------------------------------------------------------

  lemma EmaPrefixStable(ks: seq<Kline>, p: nat, m: nat)
    requires 1 <= p && m <= |ks|
    ensures EmaSeries(ks[..m], p) == EmaSeries(ks, p)[..m]
  {
    forall i | p - 1 <= i < m ensures EmaSeries(ks[..m], p)[i] == EmaSeries(ks, p)[i] {
      AverageCausal(Closes(ks[..m]), Closes(ks), p, EmaWeight(p), i);
    }
  }

  lemma AtrPrefixStable(ks: seq<Kline>, p: nat, m: nat)
    requires 1 <= p && m <= |ks|
    ensures AtrSeries(ks[..m], p) == AtrSeries(ks, p)[..m]
  {
    forall i | p - 1 <= i < m ensures AtrSeries(ks[..m], p)[i] == AtrSeries(ks, p)[i] {
      AverageCausal(TrueRanges(ks[..m]), TrueRanges(ks), p, WilderWeight(p), i);
    }
  }

  lemma RsiCausal(ks: seq<Kline>, p: nat, m: nat, i: nat)
    requires 1 <= p <= i < m <= |ks|
    ensures RsiAt(ks[..m], p, i) == RsiAt(ks, p, i)
  {
    hide Blend, RsiFromGainLoss, WilderWeight, Average;
    AverageCausal(Gains(ks[..m]), Gains(ks), p, WilderWeight(p), i - 1);
    AverageCausal(Losses(ks[..m]), Losses(ks), p, WilderWeight(p), i - 1);
  }

  lemma RsiPrefixStable(ks: seq<Kline>, p: nat, m: nat)
    requires 1 <= p && m <= |ks|
    ensures RsiSeries(ks[..m], p) == RsiSeries(ks, p)[..m]
  {
    hide RsiAt;
    forall i | p <= i < m ensures RsiSeries(ks[..m], p)[i] == RsiSeries(ks, p)[i] {
      RsiCausal(ks, p, m, i);
    }
  }

  lemma {:induction false} CumulativeCausal(ks: seq<Kline>, m: nat, n: nat)
    requires n <= m <= |ks|
    ensures CumulativePv(ks[..m], n) == CumulativePv(ks, n)
    ensures CumulativeVolume(ks[..m], n) == CumulativeVolume(ks, n)
  {
    if n == 0 {
    } else {
      CumulativeCausal(ks, m, n - 1);
    }
  }

  lemma VwapPrefixStable(ks: seq<Kline>, m: nat)
    requires m <= |ks|
    ensures VwapSeries(ks[..m]) == VwapSeries(ks)[..m]
  {
    forall i | 0 <= i < m ensures VwapSeries(ks[..m])[i] == VwapSeries(ks)[i] {
      CumulativeCausal(ks, m, i + 1);
    }
  }

  lemma MacdValueCausal(ks: seq<Kline>, fast: nat, slow: nat, m: nat, i: nat)
    requires 1 <= fast < slow <= i + 1 <= m <= |ks|
    ensures MacdAt(ks[..m], fast, slow, i) == MacdAt(ks, fast, slow, i)
  {
    AverageCausal(Closes(ks[..m]), Closes(ks), fast, EmaWeight(fast), i);
    AverageCausal(Closes(ks[..m]), Closes(ks), slow, EmaWeight(slow), i);
  }

  lemma MacdPrefixStable(ks: seq<Kline>, fast: nat, slow: nat, signal: nat, m: nat)
    requires 1 <= fast < slow && 1 <= signal && m <= |ks|
    ensures MacdLine(ks[..m], fast, slow) == MacdLine(ks, fast, slow)[..m]
    ensures MacdSignal(ks[..m], fast, slow, signal) == MacdSignal(ks, fast, slow, signal)[..m]
  {
    hide Blend;
    forall i | slow - 1 <= i < m ensures MacdLine(ks[..m], fast, slow)[i] == MacdLine(ks, fast, slow)[i] {
      MacdValueCausal(ks, fast, slow, m, i);
    }
    forall i | slow + signal - 2 <= i < m
      ensures MacdSignal(ks[..m], fast, slow, signal)[i] == MacdSignal(ks, fast, slow, signal)[i]
    {
      var x, y := MacdTail(ks[..m], fast, slow), MacdTail(ks, fast, slow);
      forall t | 0 <= t <= i - (slow - 1) ensures x[t] == y[t] {
        MacdValueCausal(ks, fast, slow, m, t + slow - 1);
      }
      AverageCausal(x, y, signal, EmaWeight(signal), i - (slow - 1));
    }
  }

  // ---- Trend agreement --------------------------------------------------------------------

  /** On non-decreasing closes no EMA exceeds the current close and the MACD line is >= 0. */
  lemma RisingSeriesHasNonNegativeMacd(ks: seq<Kline>, fast: nat, slow: nat, i: nat)
    requires 1 <= fast < slow && i < |ks|
    requires forall a, b :: 0 <= a <= b < |ks| ==> ks[a].close <= ks[b].close
    ensures EmaSeries(ks, fast)[i].Some? ==> EmaSeries(ks, fast)[i].value <= ks[i].close
    ensures MacdLine(ks, fast, slow)[i].Some? <==> slow - 1 <= i
    ensures MacdLine(ks, fast, slow)[i].Some? ==> MacdLine(ks, fast, slow)[i].value >= 0.0
  {
    var c := Closes(ks);
    if fast - 1 <= i {
      AverageBelowNewest(c, fast, EmaWeight(fast), i);
    }
    if slow - 1 <= i {
      FastAboveSlow(c, fast, slow, i);
    }
  }
}
