/**
 * The indicator library: each indicator as the value it must have at every bar, the loop
 * that fills its list in place, and the properties of the values.
 */
module Indicators {
  import opened Shared
  import opened Averages

  // ---- Inputs read off the candles ------------------------------------------------------

  function Closes(ks: seq<Kline>): seq<real> {
    seq(|ks|, i requires 0 <= i < |ks| => ks[i].close)
  }

  function TrueRangeAt(ks: seq<Kline>, i: nat): real
    requires i < |ks|
  {
    if i == 0 then ks[0].high - ks[0].low
    else
      var pc := ks[i - 1].close;
      Max(Max(ks[i].high - ks[i].low, Abs(ks[i].high - pc)), Abs(ks[i].low - pc))
  }

  function TrueRanges(ks: seq<Kline>): seq<real> {
    seq(|ks|, i requires 0 <= i < |ks| => TrueRangeAt(ks, i))
  }

  function Positive(x: real): real { if x > 0.0 then x else 0.0 }

  /** Rise of the close into bar `t + 1`, or zero. */
  function Gains(ks: seq<Kline>): seq<real>
    requires |ks| >= 1
  {
    seq(|ks| - 1, t requires 0 <= t < |ks| - 1 => Positive(ks[t + 1].close - ks[t].close))
  }

  function Losses(ks: seq<Kline>): seq<real>
    requires |ks| >= 1
  {
    seq(|ks| - 1, t requires 0 <= t < |ks| - 1 => Positive(ks[t].close - ks[t + 1].close))
  }

  // ---- The value of each indicator at each bar ----------------------------------------

  function EmaSeries(ks: seq<Kline>, p: nat): seq<Option<real>>
    requires p >= 1
  {
    seq(|ks|, i requires 0 <= i < |ks| =>
      if i < p - 1 then None else Some(Average(Closes(ks), p, EmaWeight(p), i)))
  }

  function SmoothedSeries(x: seq<real>, p: nat): seq<Option<real>>
    requires p >= 1
  {
    seq(|x|, i requires 0 <= i < |x| => if i < p - 1 then None else Some(Smoothed(x, p, i)))
  }

  function AtrSeries(ks: seq<Kline>, p: nat): seq<Option<real>>
    requires p >= 1
  {
    seq(|ks|, i requires 0 <= i < |ks| =>
      if i < p - 1 then None else Some(Average(TrueRanges(ks), p, WilderWeight(p), i)))
  }

  function RsiFromGainLoss(g: real, l: real): real
    requires 0.0 <= g && 0.0 <= l
  {
    if l == 0.0 then (if g > 0.0 then 100.0 else 50.0)
    else QuotientNonNegative(g, l); 100.0 - 100.0 / (1.0 + g / l)
  }

  function AverageGain(ks: seq<Kline>, p: nat, i: nat): (r: real)
    requires 1 <= p <= i < |ks|
    ensures 0.0 <= r
  {
    AverageNonNegative(Gains(ks), p, WilderWeight(p), i - 1);
    Average(Gains(ks), p, WilderWeight(p), i - 1)
  }

  function AverageLoss(ks: seq<Kline>, p: nat, i: nat): (r: real)
    requires 1 <= p <= i < |ks|
    ensures 0.0 <= r
  {
    AverageNonNegative(Losses(ks), p, WilderWeight(p), i - 1);
    Average(Losses(ks), p, WilderWeight(p), i - 1)
  }

  function RsiAt(ks: seq<Kline>, p: nat, i: nat): real
    requires 1 <= p <= i < |ks|
  {
    var g, l := AverageGain(ks, p, i), AverageLoss(ks, p, i);
    RsiFromGainLoss(g, l)
  }

  function RsiSeries(ks: seq<Kline>, p: nat): seq<Option<real>>
    requires p >= 1
  {
    seq(|ks|, i requires 0 <= i < |ks| => if i < p then None else Some(RsiAt(ks, p, i)))
  }

  function MacdAt(ks: seq<Kline>, fast: nat, slow: nat, i: nat): real
    requires 1 <= fast < slow <= i + 1 <= |ks|
  {
    Average(Closes(ks), fast, EmaWeight(fast), i) - Average(Closes(ks), slow, EmaWeight(slow), i)
  }

  function MacdLine(ks: seq<Kline>, fast: nat, slow: nat): seq<Option<real>>
    requires 1 <= fast < slow
  {
    seq(|ks|, i requires 0 <= i < |ks| => if i < slow - 1 then None else Some(MacdAt(ks, fast, slow, i)))
  }

  /** The defined part of the MACD line; entry `t` belongs to bar `slow - 1 + t`. */
  function MacdTail(ks: seq<Kline>, fast: nat, slow: nat): seq<real>
    requires 1 <= fast < slow
  {
    if |ks| < slow then []
    else seq(|ks| - (slow - 1), t requires 0 <= t < |ks| - (slow - 1) => MacdAt(ks, fast, slow, t + slow - 1))
  }

  function MacdSignal(ks: seq<Kline>, fast: nat, slow: nat, signal: nat): seq<Option<real>>
    requires 1 <= fast < slow && 1 <= signal
  {
    seq(|ks|, i requires 0 <= i < |ks| =>
      if i < slow + signal - 2 then None
      else Some(Average(MacdTail(ks, fast, slow), signal, EmaWeight(signal), i - (slow - 1))))
  }

  function MinusWhereBoth(x: seq<Option<real>>, y: seq<Option<real>>): seq<Option<real>>
    requires |x| == |y|
  {
    seq(|x|, i requires 0 <= i < |x| =>
      if x[i].Some? && y[i].Some? then Some(x[i].value - y[i].value) else None)
  }

  function Typical(k: Kline): real { (k.high + k.low + k.close) / 3.0 }

  function Traded(price: real, volume: real): real { price * volume }

  function CumulativePv(ks: seq<Kline>, n: nat): real
    requires n <= |ks|
  {
    if n == 0 then 0.0 else CumulativePv(ks, n - 1) + Traded(Typical(ks[n - 1]), ks[n - 1].volume)
  }

  function CumulativeVolume(ks: seq<Kline>, n: nat): real
    requires n <= |ks|
  {
    if n == 0 then 0.0 else CumulativeVolume(ks, n - 1) + ks[n - 1].volume
  }

  function VwapAt(ks: seq<Kline>, i: nat): Option<real>
    requires i < |ks|
  {
    if CumulativeVolume(ks, i + 1) > 0.0
    then Some(CumulativePv(ks, i + 1) / CumulativeVolume(ks, i + 1)) else None
  }

  function VwapSeries(ks: seq<Kline>): seq<Option<real>> {
    seq(|ks|, i requires 0 <= i < |ks| => VwapAt(ks, i))
  }

  // ---- The loops ------------------------------------------------------------------------

  function Nones(n: nat): seq<Option<real>> { seq(n, i => None) }

  method Ema(klines: seq<Kline>, period: int) returns (r: Result<seq<Option<real>>>)
    ensures period <= 0 ==> r == Err("period must be positive")
    ensures period > 0 ==> r == Ok(EmaSeries(klines, period))
  {
    if period <= 0 {
      return Err("period must be positive");
    }
    if |klines| < period {
      assert Nones(|klines|) == EmaSeries(klines, period);
      return Ok(Nones(|klines|));
    }
    hide Blend, Mean;
    var alpha := 2.0 / (period + 1) as real;
    var seed := Mean(Closes(klines), period);
    var out := Nones(period - 1) + [Some(seed)];
    var prev := seed;
    for i := period to |klines|
      invariant |out| == i
      invariant prev == Average(Closes(klines), period, EmaWeight(period), i - 1)
      invariant forall j :: 0 <= j < i ==> out[j] == EmaSeries(klines, period)[j]
    {
      var cur := Blend(alpha, klines[i].close, prev);
      out := out + [Some(cur)];
      prev := cur;
    }
    assert out == EmaSeries(klines, period);
    r := Ok(out);
  }

  method WilderSmooth(values: seq<real>, period: int) returns (r: Result<seq<Option<real>>>)
    ensures period <= 0 ==> r == Err("period must be positive")
    ensures period > 0 ==> r == Ok(SmoothedSeries(values, period))
  {
    if period <= 0 {
      return Err("period must be positive");
    }
    if |values| < period {
      assert Nones(|values|) == SmoothedSeries(values, period);
      return Ok(Nones(|values|));
    }
    hide Total, SmoothNext;
    var seed := Total(values, period);
    var out := Nones(period - 1) + [Some(seed)];
    var prev := seed;
    var n := period as real;
    for i := period to |values|
      invariant |out| == i
      invariant prev == Smoothed(values, period, i - 1)
      invariant forall j :: 0 <= j < i ==> out[j] == SmoothedSeries(values, period)[j]
    {
      var cur := SmoothNext(n, prev, values[i]);
      out := out + [Some(cur)];
      prev := cur;
    }
    assert out == SmoothedSeries(values, period);
    r := Ok(out);
  }

  /** One Wilder step as the loops write it. */
  function WilderNext(n: real, prev: real, x: real): real
    requires n != 0.0
  {
    (prev * (n - 1.0) + x) / n
  }

  lemma WilderStep(p: nat, prev: real, x: real)
    requires p >= 1
    ensures WilderNext(p as real, prev, x) == Blend(WilderWeight(p), x, prev)
  {
    var n := p as real;
    assert prev * (n - 1.0) + x == n * (1.0 / n * x + (1.0 - 1.0 / n) * prev) by {
      assert n * (1.0 / n) == 1.0;
      assert n * (1.0 / n * x) == x && n * (1.0 / n * prev) == prev;
    }
  }

  /** First part of `rsi`: entry 0 of each list is a placeholder. */
  method GainsAndLosses(klines: seq<Kline>) returns (gains: seq<real>, losses: seq<real>)
    requires |klines| >= 1
    ensures |gains| == |losses| == |klines|
    ensures gains[1..] == Gains(klines) && losses[1..] == Losses(klines)
  {
    gains, losses := [0.0], [0.0];
    for i := 1 to |klines|
      invariant |gains| == |losses| == i
      invariant forall j :: 1 <= j < i ==> gains[j] == Gains(klines)[j - 1] && losses[j] == Losses(klines)[j - 1]
    {
      var diff := klines[i].close - klines[i - 1].close;
      gains := gains + [if diff > 0.0 then diff else 0.0];
      losses := losses + [if diff < 0.0 then -diff else 0.0];
    }
  }

  method Rsi(klines: seq<Kline>, period: nat) returns (out: seq<Option<real>>)
    requires period >= 1
    ensures out == RsiSeries(klines, period)
  {
    hide Blend, WilderWeight, RsiFromGainLoss, WilderNext, Mean;
    if |klines| <= period {
      return Nones(|klines|);
    }
    var gains, losses := GainsAndLosses(klines);
    var avgGain := Mean(gains[1..], period);
    var avgLoss := Mean(losses[1..], period);
    assert avgGain == AverageGain(klines, period, period) && avgLoss == AverageLoss(klines, period, period);
    out := Nones(period) + [Some(RsiFromGainLoss(avgGain, avgLoss))];
    var n := period as real;
    for i := period + 1 to |klines|
      invariant |out| == i
      invariant avgGain == AverageGain(klines, period, i - 1)
      invariant avgLoss == AverageLoss(klines, period, i - 1)
      invariant forall j :: 0 <= j < i ==> out[j] == RsiSeries(klines, period)[j]
    {
      WilderStep(period, avgGain, gains[i]);
      WilderStep(period, avgLoss, losses[i]);
      avgGain := WilderNext(n, avgGain, gains[i]);
      avgLoss := WilderNext(n, avgLoss, losses[i]);
      assert avgGain == AverageGain(klines, period, i) && avgLoss == AverageLoss(klines, period, i);
      out := out + [Some(RsiFromGainLoss(avgGain, avgLoss))];
    }
  }

  /** The program indexes bar 0, so the list must not be empty. */
  method TrueRange(klines: seq<Kline>) returns (out: seq<real>)
    requires |klines| >= 1
    ensures out == TrueRanges(klines)
  {
    out := [klines[0].high - klines[0].low];
    for i := 1 to |klines|
      invariant |out| == i && out == TrueRanges(klines)[..i]
    {
      var h, l := klines[i].high, klines[i].low;
      var pc := klines[i - 1].close;
      out := out + [Max(Max(h - l, Abs(h - pc)), Abs(l - pc))];
    }
  }

  method Atr(klines: seq<Kline>, period: nat) returns (out: seq<Option<real>>)
    requires period >= 1
    ensures out == AtrSeries(klines, period)
  {
    hide Blend, WilderWeight, WilderNext, Mean;
    if |klines| < period {
      return Nones(|klines|);
    }
    var tr := TrueRange(klines);
    var seed := Mean(tr, period);
    out := Nones(period - 1) + [Some(seed)];
    var prev := seed;
    var n := period as real;
    for i := period to |klines|
      invariant |out| == i
      invariant prev == Average(tr, period, WilderWeight(period), i - 1)
      invariant forall j :: 0 <= j < i ==> out[j] == AtrSeries(klines, period)[j]
    {
      WilderStep(period, prev, tr[i]);
      var cur := WilderNext(n, prev, tr[i]);
      out := out + [Some(cur)];
      prev := cur;
    }
  }

  /** The second half of `macd`: an EMA over the defined part of the MACD line. */
  method SignalOverTail(klines: seq<Kline>, macdLine: seq<Option<real>>, fast: nat, slow: nat, signal: nat)
    returns (signalLine: seq<Option<real>>)
    requires 1 <= fast < slow && 1 <= signal && slow - 1 + signal <= |klines|
    requires macdLine == MacdLine(klines, fast, slow)
    ensures signalLine == MacdSignal(klines, fast, slow, signal)
  {
    hide Blend;
    var n, first := |klines|, slow - 1;
    var tail := MacdTail(klines, fast, slow);
    var alpha := 2.0 / (signal + 1) as real;
    var prev := Mean(tail, signal);
    signalLine := Nones(n)[first + signal - 1 := Some(prev)];
    for j := first + signal to n
      invariant |signalLine| == n
      invariant prev == Average(tail, signal, EmaWeight(signal), j - 1 - first)
      invariant forall i :: 0 <= i < j ==> signalLine[i] == MacdSignal(klines, fast, slow, signal)[i]
      invariant forall i :: j <= i < n ==> signalLine[i] == None
    {
      assert macdLine[j].value == tail[j - first];
      var cur := Blend(alpha, macdLine[j].value, prev);
      signalLine := signalLine[j := Some(cur)];
      prev := cur;
    }
  }

  method Macd(klines: seq<Kline>, fast: int, slow: int, signal: int)
    returns (r: Result<(seq<Option<real>>, seq<Option<real>>, seq<Option<real>>)>)
    ensures r.Ok? <==> 0 < fast < slow && 0 < signal
    ensures r.Ok? ==>
      var line, sig := MacdLine(klines, fast, slow), MacdSignal(klines, fast, slow, signal);
      r.value == (line, sig, MinusWhereBoth(line, sig))
  {
    if fast <= 0 || slow <= 0 || signal <= 0 {
      return Err("periods must be positive");
    }
    if fast >= slow {
      return Err("fast period must be less than slow");
    }
    var n := |klines|;
    var f := Ema(klines, fast);
    var s := Ema(klines, slow);
    var macdLine := MinusWhereBoth(f.value, s.value);
    assert macdLine == MacdLine(klines, fast, slow);
    var first := 0;
    while first < n && macdLine[first].None?
      invariant 0 <= first <= n && first <= slow - 1
    {
      first := first + 1;
    }
    var signalLine := Nones(n);
    if first < n && n - first >= signal {
      assert first == slow - 1;
      signalLine := SignalOverTail(klines, macdLine, fast, slow, signal);
    }
    assert signalLine == MacdSignal(klines, fast, slow, signal);
    r := Ok((macdLine, signalLine, MinusWhereBoth(macdLine, signalLine)));
  }

  method Vwap(klines: seq<Kline>) returns (out: seq<Option<real>>)
    ensures out == VwapSeries(klines)
  {
    out := [];
    var cumPv, cumV := 0.0, 0.0;
    for i := 0 to |klines|
      invariant |out| == i
      invariant cumPv == CumulativePv(klines, i) && cumV == CumulativeVolume(klines, i)
      invariant forall j :: 0 <= j < i ==> out[j] == VwapSeries(klines)[j]
    {
      var k := klines[i];
      var typical := (k.high + k.low + k.close) / 3.0;
      cumPv := cumPv + typical * k.volume;
      cumV := cumV + k.volume;
      out := out + [if cumV > 0.0 then Some(cumPv / cumV) else None];
    }
  }
}
