/** What every strategy shares: the per-call context and the shape of the signal it builds. */
module StrategyBase {
  import opened Shared

  /** `dedup` is the hash of (strategy key, pair, side, entry, time); SHA-256 is not modelled. */
  datatype Context = Context(now: int, dedup: (string, string, Side, real, int) -> string)

  function MakeSignal(key: string, pair: string, ctx: Context, side: Side, entry: real, stop: real,
                      target: real, leverage: real): Signal {
    Signal(pair, side, key, entry, stop, [target], leverage, ctx.dedup(key, pair, side, entry, ctx.now))
  }
}

/** Trend strategy: EMA alignment, ADX strength, and a close crossing the fast EMA. */
module EmaAdxTrend {
  import opened Shared
  import opened Averages
  import opened Indicators
  import opened IndicatorProperties
  import opened StrategyBase
  import Adx

  datatype Params = Params(fastPeriod: nat, slowPeriod: nat, adxPeriod: nat, adxThreshold: real,
                           atrPeriod: nat, atrStopMult: real, atrTpMult: real, leverage: real, minBars: nat)
  {
    predicate Periods() { fastPeriod >= 1 && slowPeriod >= 1 && adxPeriod >= 1 && atrPeriod >= 1 }
  }

  const KEY := "ema_adx_trend"

  function Build(pair: string, p: Params, ctx: Context, side: Side, entry: real, atrNow: real): Signal {
    var stopDist, tpDist := p.atrStopMult * atrNow, p.atrTpMult * atrNow;
    if side == Long
    then MakeSignal(KEY, pair, ctx, side, entry, entry - stopDist, entry + tpDist, p.leverage)
    else MakeSignal(KEY, pair, ctx, side, entry, entry + stopDist, entry - tpDist, p.leverage)
  }

  /** `list[i - 1]` of a Python list: index -1 is the last entry. */
  function Before(ks: seq<Kline>, i: nat): (j: nat)
    requires i < |ks|
    ensures j < |ks|
  {
    if i == 0 then |ks| - 1 else i - 1
  }

  /** The rule, over the readings at the last bar and the one before. */
  function Rule(pair: string, p: Params, ctx: Context, fNow: Option<real>, fPrev: Option<real>, sNow: Option<real>,
                aNow: Option<real>, atrNow: Option<real>, closeNow: real, closePrev: real): Option<Signal>
  {
    if fNow.None? || fPrev.None? || sNow.None? || aNow.None? || atrNow.None? then None
    else if aNow.value < p.adxThreshold then None
    else
      var crossedUp := closePrev <= fPrev.value && closeNow > fNow.value;
      var crossedDown := closePrev >= fPrev.value && closeNow < fNow.value;
      if fNow.value > sNow.value && crossedUp then
        Some(Build(pair, p, ctx, Long, closeNow, atrNow.value))
      else if fNow.value < sNow.value && crossedDown then
        Some(Build(pair, p, ctx, Short, closeNow, atrNow.value))
      else None
  }

  function SignalOf(ks: seq<Kline>, pair: string, p: Params, ctx: Context): Option<Signal>
    requires p.Periods() && (|ks| >= 1 || p.minBars >= 1)
  {
    if |ks| < p.minBars then None
    else
      var i := |ks| - 1;
      var j := Before(ks, i);
      var fast := EmaSeries(ks, p.fastPeriod);
      Rule(pair, p, ctx, fast[i], fast[j], EmaSeries(ks, p.slowPeriod)[i], Adx.AdxSeries(ks, p.adxPeriod)[i],
           AtrSeries(ks, p.atrPeriod)[i], ks[i].close, ks[j].close)
  }

  /**
   * When the strategy fires, and with what: long if and only if there are enough bars, every value is
   * known, the trend is strong enough and upward, and the close crossed up through the fast EMA; short
   * if and only if the mirror image holds.
   */
  lemma FiresExactly(ks: seq<Kline>, pair: string, p: Params, ctx: Context)
    requires p.Periods() && (|ks| >= 1 || p.minBars >= 1)
    ensures var r, n := SignalOf(ks, pair, p, ctx), |ks|;
      r.Some? && r.value.side == Long <==>
        && p.minBars <= n && 2 <= n && Known(ks, p)
        && p.adxThreshold <= Adx.AdxSeries(ks, p.adxPeriod)[n - 1].value
        && EmaSeries(ks, p.slowPeriod)[n - 1].value < EmaSeries(ks, p.fastPeriod)[n - 1].value
        && ks[n - 2].close <= EmaSeries(ks, p.fastPeriod)[n - 2].value
        && EmaSeries(ks, p.fastPeriod)[n - 1].value < ks[n - 1].close
    ensures var r, n := SignalOf(ks, pair, p, ctx), |ks|;
      r.Some? && r.value.side == Short <==>
        && p.minBars <= n && 2 <= n && Known(ks, p)
        && p.adxThreshold <= Adx.AdxSeries(ks, p.adxPeriod)[n - 1].value
        && EmaSeries(ks, p.fastPeriod)[n - 1].value < EmaSeries(ks, p.slowPeriod)[n - 1].value
        && EmaSeries(ks, p.fastPeriod)[n - 2].value <= ks[n - 2].close
        && ks[n - 1].close < EmaSeries(ks, p.fastPeriod)[n - 1].value
    ensures var r := SignalOf(ks, pair, p, ctx);
      r.Some? ==> IsBracketOf(r.value, pair, p, ctx, ks[|ks| - 1].close, AtrSeries(ks, p.atrPeriod)[|ks| - 1].value)
  {
    hide Adx.AdxSeries, EmaSeries, AtrSeries, Build, IsBracketOf;
    SeriesAreAligned(ks, p);
    if |ks| >= 1 {
      var c, atrNow := ks[|ks| - 1].close, AtrSeries(ks, p.atrPeriod)[|ks| - 1];
      if atrNow.Some? {
        BuildMeaning(pair, p, ctx, Long, c, atrNow.value);
        BuildMeaning(pair, p, ctx, Short, c, atrNow.value);
      }
    }
  }

  /** A signal at the close `c` with its stop and its target at multiples of the ATR. */
  predicate IsBracketOf(s: Signal, pair: string, p: Params, ctx: Context, c: real, atrNow: real) {
    && s.pair == pair && s.strategy == "ema_adx_trend" && s.entry == c && s.leverage == p.leverage
    && s.dedupHash == ctx.dedup("ema_adx_trend", pair, s.side, c, ctx.now) && |s.takeProfits| == 1
    && (s.side == Long ==> s.stopLoss == c - p.atrStopMult * atrNow && s.takeProfits[0] == c + p.atrTpMult * atrNow)
    && (s.side == Short ==> s.stopLoss == c + p.atrStopMult * atrNow && s.takeProfits[0] == c - p.atrTpMult * atrNow)
  }

  lemma BuildMeaning(pair: string, p: Params, ctx: Context, side: Side, c: real, atrNow: real)
    ensures IsBracketOf(Build(pair, p, ctx, side, c, atrNow), pair, p, ctx, c, atrNow)
    ensures Build(pair, p, ctx, side, c, atrNow).side == side
  {
  }

  /** At the last bar all four indicators have a value, and the fast EMA has one at the bar before. */
  predicate Known(ks: seq<Kline>, p: Params)
    requires p.Periods() && |ks| >= 2
    ensures Known(ks, p) <==>
      && |ks| >= p.fastPeriod + 1 && |ks| >= p.slowPeriod && |ks| >= p.atrPeriod
      && Adx.AdxSeries(ks, p.adxPeriod)[|ks| - 1].Some?
  {
    && EmaSeries(ks, p.fastPeriod)[|ks| - 1].Some? && EmaSeries(ks, p.fastPeriod)[|ks| - 2].Some?
    && EmaSeries(ks, p.slowPeriod)[|ks| - 1].Some?
    && Adx.AdxSeries(ks, p.adxPeriod)[|ks| - 1].Some? && AtrSeries(ks, p.atrPeriod)[|ks| - 1].Some?
  }

  lemma SeriesAreAligned(ks: seq<Kline>, p: Params)
    requires p.Periods()
    ensures |EmaSeries(ks, p.fastPeriod)| == |EmaSeries(ks, p.slowPeriod)| == |AtrSeries(ks, p.atrPeriod)| == |ks|
  {
  }

  /** `evaluate`, over the indicator loops. */
  method Evaluate(ks: seq<Kline>, pair: string, p: Params, ctx: Context) returns (r: Option<Signal>)
    requires p.Periods() && (|ks| >= 1 || p.minBars >= 1)
    ensures r == SignalOf(ks, pair, p, ctx)
  {
    if |ks| < p.minBars {
      return None;
    }
    var emaFast := Ema(ks, p.fastPeriod);
    var emaSlow := Ema(ks, p.slowPeriod);
    var adxSeries := Adx.ComputeAdx(ks, p.adxPeriod);
    var atrSeries := Atr(ks, p.atrPeriod);
    SeriesAreAligned(ks, p);
    hide Adx.AdxSeries, EmaSeries, AtrSeries, Build;

    var i := |ks| - 1;
    var j := Before(ks, i);
    var fNow, fPrev, sNow := emaFast.value[i], emaFast.value[j], emaSlow.value[i];
    var aNow, atrNow := adxSeries[i], atrSeries[i];
    var closeNow, closePrev := ks[i].close, ks[j].close;
    assert SignalOf(ks, pair, p, ctx) == Rule(pair, p, ctx, fNow, fPrev, sNow, aNow, atrNow, closeNow, closePrev);
    hide SignalOf;
    if fNow.None? || fPrev.None? || sNow.None? || aNow.None? || atrNow.None? {
      return None;
    }
    if aNow.value < p.adxThreshold {
      return None;
    }
    var crossedUp := closePrev <= fPrev.value && closeNow > fNow.value;
    var crossedDown := closePrev >= fPrev.value && closeNow < fNow.value;
    if fNow.value > sNow.value && crossedUp {
      return Some(Build(pair, p, ctx, Long, closeNow, atrNow.value));
    }
    if fNow.value < sNow.value && crossedDown {
      return Some(Build(pair, p, ctx, Short, closeNow, atrNow.value));
    }
    r := None;
  }

  lemma BlendCross(w: real, c: real, prev: real, pc: real)
    requires 0.0 < w <= 1.0
    ensures pc <= prev && c > Blend(w, c, prev) ==> c > pc
    ensures pc >= prev && c < Blend(w, c, prev) ==> c < pc
  {
    if c <= prev { Between(w, c, prev, c, prev); }
    if c >= prev { Between(w, c, prev, prev, c); }
  }

  /** A close that crosses its EMA has changed, so the newest true range is positive. */
  lemma CrossMeansMove(ks: seq<Kline>, p: nat)
    requires ValidSeries(ks) && 1 <= p && |ks| >= 1
    requires var i := |ks| - 1; var j := Before(ks, i); var e := EmaSeries(ks, p);
      && e[i].Some? && e[j].Some?
      && ((ks[j].close <= e[j].value && ks[i].close > e[i].value)
          || (ks[j].close >= e[j].value && ks[i].close < e[i].value))
    ensures |ks| >= 2 && TrueRangeAt(ks, |ks| - 1) > 0.0
    ensures ks[|ks| - 1].close > ks[|ks| - 2].close
       <==> ks[|ks| - 1].close > EmaSeries(ks, p)[|ks| - 1].value
  {
    hide Blend, EmaWeight;
    var i := |ks| - 1;
    var e := EmaSeries(ks, p);
    assert |ks| >= 2;
    BlendCross(EmaWeight(p), ks[i].close, e[i - 1].value, ks[i - 1].close);
    TrueRangeNonNegative(ks, i);
  }

  /**
   * Every signal of the trend strategy is a strict bracket: a crossing forces a positive
   * true range, hence a positive ATR. The reward-to-risk ratio is exactly the ratio of the
   * two multipliers, and the signal trades with the latest change of close.
   */
  lemma SignalIsStrictBracket(ks: seq<Kline>, pair: string, p: Params, ctx: Context)
    requires ValidSeries(ks) && p.Periods() && (|ks| >= 1 || p.minBars >= 1)
    requires p.atrStopMult > 0.0 && p.atrTpMult > 0.0
    requires SignalOf(ks, pair, p, ctx).Some?
    ensures var s := SignalOf(ks, pair, p, ctx).value;
      && StrictBracket(s) && s.entry == ks[|ks| - 1].close
      && Abs(s.takeProfits[0] - s.entry) * p.atrStopMult == Abs(s.entry - s.stopLoss) * p.atrTpMult
      && |ks| >= 2 && (s.side == Long <==> ks[|ks| - 1].close > ks[|ks| - 2].close)
  {
    hide Adx.AdxSeries, Blend, Average;
    var i := |ks| - 1;
    CrossMeansMove(ks, p.fastPeriod);
    AtrPositive(ks, p.atrPeriod, i, i);
    BracketFromAtr(pair, p, ctx, SignalOf(ks, pair, p, ctx).value.side, ks[i].close,
                   AtrSeries(ks, p.atrPeriod)[i].value);
  }

  lemma BracketFromAtr(pair: string, p: Params, ctx: Context, side: Side, entry: real, atrNow: real)
    requires p.atrStopMult > 0.0 && p.atrTpMult > 0.0 && atrNow > 0.0
    ensures var s := Build(pair, p, ctx, side, entry, atrNow);
      && StrictBracket(s)
      && Abs(s.takeProfits[0] - s.entry) * p.atrStopMult == Abs(s.entry - s.stopLoss) * p.atrTpMult
  {
    var a, b := p.atrStopMult * atrNow, p.atrTpMult * atrNow;
    assert a > 0.0 && b > 0.0;
    assert b * p.atrStopMult == a * p.atrTpMult;
  }
}

/** Mean-reversion strategy: quiet market, close stretched away from VWAP, RSI extreme. */
module VwapRsiMeanRev {
  import opened Shared
  import opened Averages
  import opened Indicators
  import opened IndicatorProperties
  import opened StrategyBase
  import Adx

  datatype Params = Params(adxPeriod: nat, adxCeiling: real, rsiPeriod: nat, rsiOversold: real,
                           rsiOverbought: real, vwapDeviationPct: real, atrPeriod: nat,
                           atrStopMult: real, leverage: real, minBars: nat)
  {
    predicate Periods() { adxPeriod >= 1 && rsiPeriod >= 1 && atrPeriod >= 1 }
  }

  const KEY := "vwap_rsi_meanrev"

  function Above(v: real, d: real): real { v * (1.0 + d) }

  function Below(v: real, d: real): real { v * (1.0 - d) }

  function Build(pair: string, p: Params, ctx: Context, side: Side, close: real, atrNow: real, vwap: real): Signal {
    var stopDist := p.atrStopMult * atrNow;
    MakeSignal(KEY, pair, ctx, side, close, if side == Long then close - stopDist else close + stopDist, vwap, p.leverage)
  }

  function SignalOf(ks: seq<Kline>, pair: string, p: Params, ctx: Context): Option<Signal>
    requires p.Periods() && (|ks| >= 1 || p.minBars >= 1)
  {
    if |ks| < p.minBars then None
    else
      var i := |ks| - 1;
      var a, r := Adx.AdxSeries(ks, p.adxPeriod)[i], RsiSeries(ks, p.rsiPeriod)[i];
      var v, atrNow := VwapSeries(ks)[i], AtrSeries(ks, p.atrPeriod)[i];
      if a.None? || r.None? || v.None? || atrNow.None? then None
      else if a.value >= p.adxCeiling then None
      else
        var close := ks[i].close;
        var upperBand := Above(v.value, p.vwapDeviationPct);
        var lowerBand := Below(v.value, p.vwapDeviationPct);
        if close < lowerBand && r.value < p.rsiOversold then
          Some(Build(pair, p, ctx, Long, close, atrNow.value, v.value))
        else if close > upperBand && r.value > p.rsiOverbought then
          Some(Build(pair, p, ctx, Short, close, atrNow.value, v.value))
        else None
  }

  /**
   * When the strategy fires, and with what: long if and only if there are enough bars, every value is
   * known, the trend is weaker than the ceiling, the close lies below VWAP by more than the deviation
   * and the RSI is below its lower limit; short if and only if the mirror image holds and no long does.
   */
  lemma FiresExactly(ks: seq<Kline>, pair: string, p: Params, ctx: Context)
    requires p.Periods() && (|ks| >= 1 || p.minBars >= 1)
    ensures var r, n := SignalOf(ks, pair, p, ctx), |ks|;
      r.Some? && r.value.side == Long <==>
        && p.minBars <= n && Known(ks, p)
        && Adx.AdxSeries(ks, p.adxPeriod)[n - 1].value < p.adxCeiling
        && ks[n - 1].close < VwapSeries(ks)[n - 1].value * (1.0 - p.vwapDeviationPct)
        && RsiSeries(ks, p.rsiPeriod)[n - 1].value < p.rsiOversold
    ensures var r, n := SignalOf(ks, pair, p, ctx), |ks|;
      r.Some? && r.value.side == Short <==>
        && p.minBars <= n && Known(ks, p)
        && Adx.AdxSeries(ks, p.adxPeriod)[n - 1].value < p.adxCeiling
        && ks[n - 1].close > VwapSeries(ks)[n - 1].value * (1.0 + p.vwapDeviationPct)
        && RsiSeries(ks, p.rsiPeriod)[n - 1].value > p.rsiOverbought
        && (ks[n - 1].close >= VwapSeries(ks)[n - 1].value * (1.0 - p.vwapDeviationPct)
            || RsiSeries(ks, p.rsiPeriod)[n - 1].value >= p.rsiOversold)
    ensures var r, n := SignalOf(ks, pair, p, ctx), |ks|;
      r.Some? ==>
        var side, c, atrNow := r.value.side, ks[n - 1].close, AtrSeries(ks, p.atrPeriod)[n - 1].value;
        var stop := if side == Long then c - p.atrStopMult * atrNow else c + p.atrStopMult * atrNow;
        r.value == Signal(pair, side, "vwap_rsi_meanrev", c, stop, [VwapSeries(ks)[n - 1].value], p.leverage,
                          ctx.dedup("vwap_rsi_meanrev", pair, side, c, ctx.now))
  {
    hide Adx.AdxSeries, RsiSeries, VwapSeries, AtrSeries, Build;
    SeriesAreAligned(ks, p);
    if Known(ks, p) {
      var c, atrNow, v := ks[|ks| - 1].close, AtrSeries(ks, p.atrPeriod)[|ks| - 1].value, VwapSeries(ks)[|ks| - 1].value;
      BuildMeaning(pair, p, ctx, Long, c, atrNow, v);
      BuildMeaning(pair, p, ctx, Short, c, atrNow, v);
    }
  }

  lemma BuildMeaning(pair: string, p: Params, ctx: Context, side: Side, c: real, atrNow: real, vwap: real)
    ensures var stop := if side == Long then c - p.atrStopMult * atrNow else c + p.atrStopMult * atrNow;
      Build(pair, p, ctx, side, c, atrNow, vwap)
        == Signal(pair, side, "vwap_rsi_meanrev", c, stop, [vwap], p.leverage, ctx.dedup("vwap_rsi_meanrev", pair, side, c, ctx.now))
  {
  }

  /** At the last bar all four indicators have a value. */
  predicate Known(ks: seq<Kline>, p: Params)
    requires p.Periods()
    ensures Known(ks, p) <==>
      && |ks| >= 1 && |ks| > p.rsiPeriod && |ks| >= p.atrPeriod
      && Adx.AdxSeries(ks, p.adxPeriod)[|ks| - 1].Some? && VwapSeries(ks)[|ks| - 1].Some?
  {
    && |ks| >= 1
    && Adx.AdxSeries(ks, p.adxPeriod)[|ks| - 1].Some? && RsiSeries(ks, p.rsiPeriod)[|ks| - 1].Some?
    && VwapSeries(ks)[|ks| - 1].Some? && AtrSeries(ks, p.atrPeriod)[|ks| - 1].Some?
  }

  lemma SeriesAreAligned(ks: seq<Kline>, p: Params)
    requires p.Periods()
    ensures |RsiSeries(ks, p.rsiPeriod)| == |VwapSeries(ks)| == |AtrSeries(ks, p.atrPeriod)| == |ks|
  {
  }

  /** `evaluate`, over the indicator loops. */
  method Evaluate(ks: seq<Kline>, pair: string, p: Params, ctx: Context) returns (r: Option<Signal>)
    requires p.Periods() && (|ks| >= 1 || p.minBars >= 1)
    ensures r == SignalOf(ks, pair, p, ctx)
  {
    if |ks| < p.minBars {
      return None;
    }
    var adxSeries := Adx.ComputeAdx(ks, p.adxPeriod);
    var rsiSeries := Rsi(ks, p.rsiPeriod);
    var vwapSeries := Vwap(ks);
    var atrSeries := Atr(ks, p.atrPeriod);
    SeriesAreAligned(ks, p);
    hide Adx.AdxSeries, RsiSeries, VwapSeries, AtrSeries, Build, Above, Below;

    var i := |ks| - 1;
    var a, rsi, v, atrNow := adxSeries[i], rsiSeries[i], vwapSeries[i], atrSeries[i];
    if a.None? || rsi.None? || v.None? || atrNow.None? {
      return None;
    }
    if a.value >= p.adxCeiling {
      return None;
    }
    var close := ks[i].close;
    var upperBand := Above(v.value, p.vwapDeviationPct);
    var lowerBand := Below(v.value, p.vwapDeviationPct);
    if close < lowerBand && rsi.value < p.rsiOversold {
      return Some(Build(pair, p, ctx, Long, close, atrNow.value, v.value));
    }
    if close > upperBand && rsi.value > p.rsiOverbought {
      return Some(Build(pair, p, ctx, Short, close, atrNow.value, v.value));
    }
    r := None;
  }

  lemma VwapPositive(ks: seq<Kline>, i: nat)
    requires ValidSeries(ks) && i < |ks| && VwapSeries(ks)[i].Some?
    ensures VwapSeries(ks)[i].value > 0.0
  {
    var lo, hi := LowestLow(ks, i), HighestHigh(ks, i);
    VwapWithinRange(ks, i, lo, hi);
  }

  function LowestLow(ks: seq<Kline>, i: nat): (lo: real)
    requires ValidSeries(ks) && i < |ks|
    ensures lo > 0.0 && forall j :: 0 <= j <= i ==> lo <= ks[j].low
  {
    if i == 0 then ks[0].low else Min(LowestLow(ks, i - 1), ks[i].low)
  }

  function HighestHigh(ks: seq<Kline>, i: nat): (hi: real)
    requires i < |ks|
    ensures forall j :: 0 <= j <= i ==> ks[j].high <= hi
  {
    if i == 0 then ks[0].high else Max(HighestHigh(ks, i - 1), ks[i].high)
  }

  lemma Band(v: real, d: real)
    requires v >= 0.0 && d >= 0.0
    ensures v * (1.0 - d) <= v <= v * (1.0 + d)
  {
    assert v * d >= 0.0;
  }

  /**
   * Every signal is a strict bracket around the close whose target is VWAP: the RSI
   * condition forces a change of close, hence a positive true range, and an ATR period of
   * at least 2 keeps it in the ATR.
   */
  lemma SignalIsStrictBracket(ks: seq<Kline>, pair: string, p: Params, ctx: Context)
    requires ValidSeries(ks) && p.Periods() && (|ks| >= 1 || p.minBars >= 1)
    requires p.atrPeriod >= 2 && p.atrStopMult > 0.0 && p.vwapDeviationPct >= 0.0
    requires p.rsiOversold <= 50.0 <= p.rsiOverbought
    requires SignalOf(ks, pair, p, ctx).Some?
    ensures var s := SignalOf(ks, pair, p, ctx).value;
      && StrictBracket(s) && s.entry == ks[|ks| - 1].close
      && VwapSeries(ks)[|ks| - 1] == Some(s.takeProfits[0])
  {
    hide Adx.AdxSeries, Blend, Average, RsiAt, VwapAt;
    var i := |ks| - 1;
    var t := RsiOffCentreMeansMove(ks, p.rsiPeriod, i);
    TrueRangeNonNegative(ks, t);
    AtrPositive(ks, p.atrPeriod, i, t);
    VwapPositive(ks, i);
    Band(VwapSeries(ks)[i].value, p.vwapDeviationPct);
    assert p.atrStopMult * AtrSeries(ks, p.atrPeriod)[i].value > 0.0;
  }
}

/** Structure strategy: price returning into the most recent fair value gap. */
module FvgOb {
  import opened Shared
  import opened StrategyBase

  datatype Params = Params(lookback: int, minGapBps: real, minImpulseBps: real, leverage: real, minBars: nat)

  datatype Gap = Gap(third: nat, low: real, high: real)

  const KEY := "fvg_ob"

  function Bps(part: real, whole: real): real
    requires whole != 0.0
  {
    part / whole * BPS
  }

  /** Bars j, j+1, j+2 leave a bullish gap: bar j's high is below bar j+2's low, after a rise. */
  predicate BullishAt(ks: seq<Kline>, p: Params, j: nat)
    requires ValidSeries(ks) && j + 2 < |ks|
  {
    var b1, b3 := ks[j], ks[j + 2];
    assert ValidCandle(b1);
    && b1.high < b3.low && b3.close > b1.close
    && Bps(b3.low - b1.high, b1.high) >= p.minGapBps
    && Bps(b3.close - b1.close, b1.close) >= p.minImpulseBps
  }

  predicate BearishAt(ks: seq<Kline>, p: Params, j: nat)
    requires ValidSeries(ks) && j + 2 < |ks|
  {
    var b1, b3 := ks[j], ks[j + 2];
    assert ValidCandle(b1) && ValidCandle(b3);
    && b1.low > b3.high && b3.close < b1.close
    && Bps(b1.low - b3.high, b3.high) >= p.minGapBps
    && Bps(b1.close - b3.close, b1.close) >= p.minImpulseBps
  }

  /** A gap, without the program's divisions. */
  lemma GapMeaning(ks: seq<Kline>, p: Params, j: nat)
    requires ValidSeries(ks) && j + 2 < |ks|
    ensures BullishAt(ks, p, j) <==>
      && ks[j].high < ks[j + 2].low && ks[j].close < ks[j + 2].close
      && (ks[j + 2].low - ks[j].high) * 10000.0 >= p.minGapBps * ks[j].high
      && (ks[j + 2].close - ks[j].close) * 10000.0 >= p.minImpulseBps * ks[j].close
    ensures BearishAt(ks, p, j) <==>
      && ks[j + 2].high < ks[j].low && ks[j + 2].close < ks[j].close
      && (ks[j].low - ks[j + 2].high) * 10000.0 >= p.minGapBps * ks[j + 2].high
      && (ks[j].close - ks[j + 2].close) * 10000.0 >= p.minImpulseBps * ks[j].close
  {
    hide Bps, ValidSeries;
    var b1, b3 := ks[j], ks[j + 2];
    PositiveCandle(ks, j);
    PositiveCandle(ks, j + 2);
    BpsLimit(b3.low - b1.high, b1.high, p.minGapBps);
    BpsLimit(b3.close - b1.close, b1.close, p.minImpulseBps);
    BpsLimit(b1.low - b3.high, b3.high, p.minGapBps);
    BpsLimit(b1.close - b3.close, b1.close, p.minImpulseBps);
  }

  lemma PositiveCandle(ks: seq<Kline>, j: nat)
    requires ValidSeries(ks) && j < |ks|
    ensures ks[j].low > 0.0 && ks[j].high > 0.0 && ks[j].close > 0.0
  {
    assert ValidCandle(ks[j]);
  }

  lemma BpsLimit(part: real, whole: real, limit: real)
    requires whole > 0.0
    ensures Bps(part, whole) >= limit <==> part * 10000.0 >= limit * whole
  {
    var x := part / whole;
    assert x * whole == part;
    assert Bps(part, whole) * whole == part * 10000.0;
    ScaleOrder(limit, Bps(part, whole), whole);
  }

  /** The first of the last `lookback` starting bars of a three-bar pattern, or the first bar of all. */
  function ScanStart(ks: seq<Kline>, p: Params): nat {
    if |ks| - p.lookback - 3 < 0 then 0 else |ks| - p.lookback - 3
  }

  /** The newest bullish gap among the patterns that start in `[from, to)`. */
  function NewestBullish(ks: seq<Kline>, p: Params, from: nat, to: int): (g: Option<Gap>)
    requires ValidSeries(ks) && to + 2 <= |ks|
    ensures g.None? ==> forall j: int :: from <= j < to ==> !BullishAt(ks, p, j)
    ensures g.Some? ==> from + 2 <= g.value.third < to + 2 && BullishAt(ks, p, g.value.third - 2)
    ensures g.Some? ==> g.value.low == ks[g.value.third - 2].high && g.value.high == ks[g.value.third].low
    ensures g.Some? ==> forall j: int :: g.value.third - 1 <= j < to ==> !BullishAt(ks, p, j)
    decreases if to > from then to - from else 0
  {
    if to <= from then None
    else if BullishAt(ks, p, to - 1) then Some(Gap(to + 1, ks[to - 1].high, ks[to + 1].low))
    else NewestBullish(ks, p, from, to - 1)
  }

  function NewestBearish(ks: seq<Kline>, p: Params, from: nat, to: int): (g: Option<Gap>)
    requires ValidSeries(ks) && to + 2 <= |ks|
    ensures g.None? ==> forall j: int :: from <= j < to ==> !BearishAt(ks, p, j)
    ensures g.Some? ==> from + 2 <= g.value.third < to + 2 && BearishAt(ks, p, g.value.third - 2)
    ensures g.Some? ==> g.value.low == ks[g.value.third].high && g.value.high == ks[g.value.third - 2].low
    ensures g.Some? ==> forall j: int :: g.value.third - 1 <= j < to ==> !BearishAt(ks, p, j)
    decreases if to > from then to - from else 0
  {
    if to <= from then None
    else if BearishAt(ks, p, to - 1) then Some(Gap(to + 1, ks[to + 1].high, ks[to - 1].low))
    else NewestBearish(ks, p, from, to - 1)
  }

  /** Highest high of the three bars of a gap. */
  function SwingHigh(ks: seq<Kline>, third: nat): real
    requires 2 <= third < |ks|
  {
    Max(Max(ks[third - 2].high, ks[third - 1].high), ks[third].high)
  }

  function SwingLow(ks: seq<Kline>, third: nat): real
    requires 2 <= third < |ks|
  {
    Min(Min(ks[third - 2].low, ks[third - 1].low), ks[third].low)
  }

  /** The last bar dips into the gap, closes above its bottom, and leaves room on both sides. */
  predicate LongSetup(ks: seq<Kline>, g: Option<Gap>)
    requires |ks| >= 1 && (g.Some? ==> 2 <= g.value.third < |ks|)
  {
    g.Some? &&
    var last, gap := ks[|ks| - 1], g.value;
    last.low <= gap.high && last.close > gap.low && SwingHigh(ks, gap.third) > last.close > gap.low * (1.0 - 0.001)
  }

  predicate ShortSetup(ks: seq<Kline>, g: Option<Gap>)
    requires |ks| >= 1 && (g.Some? ==> 2 <= g.value.third < |ks|)
  {
    g.Some? &&
    var last, gap := ks[|ks| - 1], g.value;
    last.high >= gap.low && last.close < gap.high && gap.high * (1.0 + 0.001) > last.close > SwingLow(ks, gap.third)
  }

  /** One pass over the lookback window that overwrites the gap of each kind it finds. */
  method ScanGaps(ks: seq<Kline>, p: Params) returns (bullish: Option<Gap>, bearish: Option<Gap>)
    requires ValidSeries(ks)
    ensures bullish == NewestBullish(ks, p, ScanStart(ks, p), |ks| - 2)
    ensures bearish == NewestBearish(ks, p, ScanStart(ks, p), |ks| - 2)
  {
    hide Bps;
    bullish, bearish := None, None;
    var start := ScanStart(ks, p);
    if start >= |ks| - 2 {
      return;
    }
    for j := start to |ks| - 2
      invariant bullish == NewestBullish(ks, p, start, j) && bearish == NewestBearish(ks, p, start, j)
    {
      assert ValidCandle(ks[j]) && ValidCandle(ks[j + 2]);
      var b1, b3 := ks[j], ks[j + 2];
      if b1.high < b3.low && b3.close > b1.close {
        var gapSizeBps := Bps(b3.low - b1.high, b1.high);
        var impulseBps := Bps(b3.close - b1.close, b1.close);
        if gapSizeBps >= p.minGapBps && impulseBps >= p.minImpulseBps {
          bullish := Some(Gap(j + 2, b1.high, b3.low));
        }
      }
      if b1.low > b3.high && b3.close < b1.close {
        var gapSizeBps := Bps(b1.low - b3.high, b3.high);
        var impulseBps := Bps(b1.close - b3.close, b1.close);
        if gapSizeBps >= p.minGapBps && impulseBps >= p.minImpulseBps {
          bearish := Some(Gap(j + 2, b3.high, b1.low));
        }
      }
    }
  }

  /**
   * A long fires exactly when the newest bullish gap is a long setup, a short exactly when no
   * long does and the newest bearish gap is a short setup.
   */
  function SignalOf(ks: seq<Kline>, pair: string, p: Params, ctx: Context): Option<Signal>
    requires ValidSeries(ks) && (|ks| >= 1 || p.minBars >= 1)
  {
    if |ks| < p.minBars then None
    else
      var bull := NewestBullish(ks, p, ScanStart(ks, p), |ks| - 2);
      var bear := NewestBearish(ks, p, ScanStart(ks, p), |ks| - 2);
      var close := ks[|ks| - 1].close;
      if LongSetup(ks, bull) then
        Some(MakeSignal(KEY, pair, ctx, Long, close, bull.value.low * (1.0 - 0.001), SwingHigh(ks, bull.value.third), p.leverage))
      else if ShortSetup(ks, bear) then
        Some(MakeSignal(KEY, pair, ctx, Short, close, bear.value.high * (1.0 + 0.001), SwingLow(ks, bear.value.third), p.leverage))
      else None
  }

  /** The scan and the setup tests decide as specified, and every signal is a strict bracket around the close. */
  method Evaluate(ks: seq<Kline>, pair: string, p: Params, ctx: Context) returns (r: Option<Signal>)
    requires ValidSeries(ks) && (|ks| >= 1 || p.minBars >= 1)
    ensures r == SignalOf(ks, pair, p, ctx)
    ensures r.Some? ==> |ks| >= 1 && StrictBracket(r.value) && r.value.entry == ks[|ks| - 1].close
  {
    if |ks| < p.minBars {
      return None;
    }
    var last := ks[|ks| - 1];
    var bullish, bearish := ScanGaps(ks, p);
    if bullish.Some? {
      var g := bullish.value;
      if last.low <= g.high && last.close > g.low {
        var sl, tp := g.low * (1.0 - 0.001), SwingHigh(ks, g.third);
        if tp > last.close > sl {
          return Some(MakeSignal(KEY, pair, ctx, Long, last.close, sl, tp, p.leverage));
        }
      }
    }
    if bearish.Some? {
      var g := bearish.value;
      if last.high >= g.low && last.close < g.high {
        var sl, tp := g.high * (1.0 + 0.001), SwingLow(ks, g.third);
        if sl > last.close > tp {
          return Some(MakeSignal(KEY, pair, ctx, Short, last.close, sl, tp, p.leverage));
        }
      }
    }
    r := None;
  }

  /** `h` is the largest high, `l` the smallest low, of three bars from `j` on. */
  predicate Extremes(ks: seq<Kline>, j: nat, h: real, l: real)
    requires j + 2 < |ks|
  {
    && (forall b :: j <= b <= j + 2 ==> l <= ks[b].low && ks[b].high <= h)
    && (exists b :: j <= b <= j + 2 && ks[b].high == h) && (exists b :: j <= b <= j + 2 && ks[b].low == l)
  }

  lemma SwingMeaning(ks: seq<Kline>, third: nat)
    requires 2 <= third < |ks|
    ensures Extremes(ks, third - 2, SwingHigh(ks, third), SwingLow(ks, third))
  {
    var a, b, c := ks[third - 2], ks[third - 1], ks[third];
    assert SwingHigh(ks, third) == a.high || SwingHigh(ks, third) == b.high || SwingHigh(ks, third) == c.high;
    assert SwingLow(ks, third) == a.low || SwingLow(ks, third) == b.low || SwingLow(ks, third) == c.low;
  }

  predicate LongFires(ks: seq<Kline>, p: Params)
    requires ValidSeries(ks) && |ks| >= 1
  {
    var n, g := |ks|, NewestBullish(ks, p, ScanStart(ks, p), |ks| - 2);
    && p.minBars <= n && g.Some?
    && ks[n - 1].low <= ks[g.value.third].low && ks[g.value.third - 2].high < ks[n - 1].close < SwingHigh(ks, g.value.third)
  }

  /**
   * When the strategy fires, and with what: long if and only if the last bar reached down to the
   * newest bullish gap of the window and closed above its bottom and below the highest high of its
   * three bars; short if and only if no long fires and the mirror image holds. The stop lies 0.1 %
   * outside the gap, the target is that extreme.
   */
  lemma FiresExactly(ks: seq<Kline>, pair: string, p: Params, ctx: Context)
    requires ValidSeries(ks) && |ks| >= 1
    ensures var r := SignalOf(ks, pair, p, ctx);
      r.Some? && r.value.side == Long <==> LongFires(ks, p)
    ensures var r, n, g := SignalOf(ks, pair, p, ctx), |ks|, NewestBearish(ks, p, ScanStart(ks, p), |ks| - 2);
      r.Some? && r.value.side == Short <==>
        && p.minBars <= n && g.Some? && !LongFires(ks, p)
        && ks[g.value.third].high <= ks[n - 1].high && SwingLow(ks, g.value.third) < ks[n - 1].close < ks[g.value.third - 2].low
    ensures var r, n, g := SignalOf(ks, pair, p, ctx), |ks|, NewestBullish(ks, p, ScanStart(ks, p), |ks| - 2);
      r.Some? && r.value.side == Long ==>
        var c := ks[n - 1].close;
        r.value == Signal(pair, Long, "fvg_ob", c, ks[g.value.third - 2].high * 0.999, [SwingHigh(ks, g.value.third)],
                          p.leverage, ctx.dedup("fvg_ob", pair, Long, c, ctx.now))
    ensures var r, n, g := SignalOf(ks, pair, p, ctx), |ks|, NewestBearish(ks, p, ScanStart(ks, p), |ks| - 2);
      r.Some? && r.value.side == Short ==>
        var c := ks[n - 1].close;
        r.value == Signal(pair, Short, "fvg_ob", c, ks[g.value.third - 2].low * 1.001, [SwingLow(ks, g.value.third)],
                          p.leverage, ctx.dedup("fvg_ob", pair, Short, c, ctx.now))
  {
    hide Bps, NewestBullish, NewestBearish, SwingHigh, SwingLow;
    var bull := NewestBullish(ks, p, ScanStart(ks, p), |ks| - 2);
    var bear := NewestBearish(ks, p, ScanStart(ks, p), |ks| - 2);
    if bull.Some? { assert ValidCandle(ks[bull.value.third - 2]); }
    if bear.Some? { assert ValidCandle(ks[bear.value.third - 2]); }
  }

  /** The window starts at most `lookback` patterns before the last one. */
  lemma WindowMeaning(ks: seq<Kline>, p: Params)
    ensures ScanStart(ks, p) + 3 + p.lookback >= |ks|
    ensures ScanStart(ks, p) == 0 || ScanStart(ks, p) + 3 + p.lookback == |ks|
  {
  }

  /** The stop of a long lies below the whole gap it trades, and the target above the close. */
  lemma LongStopBelowGap(ks: seq<Kline>, p: Params)
    requires ValidSeries(ks) && |ks| >= 1
    ensures var bull := NewestBullish(ks, p, ScanStart(ks, p), |ks| - 2);
      LongSetup(ks, bull) ==>
        bull.value.low * (1.0 - 0.001) < bull.value.low < Min(bull.value.high, ks[|ks| - 1].close)
  {
    var bull := NewestBullish(ks, p, ScanStart(ks, p), |ks| - 2);
    if LongSetup(ks, bull) {
      assert ValidCandle(ks[bull.value.third - 2]);
    }
  }
}
