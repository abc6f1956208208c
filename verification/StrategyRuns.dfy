/** The three strategies in the backtester: each emits only strict brackets, so its runs behave. */
module StrategyRuns {
  import opened Shared
  import opened StrategyBase
  import opened Runner
  import EmaAdxTrend
  import VwapRsiMeanRev
  import FvgOb

  type Dedup = (string, string, Side, real, int) -> string

  /** The backtester evaluates at the close time of the last bar. */
  function At(bars: seq<Kline>, dedup: Dedup): Context
    requires |bars| >= 1
  {
    Context(bars[|bars| - 1].closeTime, dedup)
  }

  function Trend(pair: string, p: EmaAdxTrend.Params, dedup: Dedup): Strategy
    requires p.Periods()
  {
    bars => if |bars| >= 1 then EmaAdxTrend.SignalOf(bars, pair, p, At(bars, dedup)) else None
  }

  function MeanReversion(pair: string, p: VwapRsiMeanRev.Params, dedup: Dedup): Strategy
    requires p.Periods()
  {
    bars => if |bars| >= 1 then VwapRsiMeanRev.SignalOf(bars, pair, p, At(bars, dedup)) else None
  }

  function Structure(pair: string, p: FvgOb.Params, dedup: Dedup): Strategy {
    bars => if |bars| >= 1 && ValidSeries(bars) then FvgOb.SignalOf(bars, pair, p, At(bars, dedup)) else None
  }

  lemma PrefixIsValid(ks: seq<Kline>, n: nat)
    requires ValidSeries(ks) && n <= |ks|
    ensures ValidSeries(ks[..n])
  {
  }

  lemma TrendEmitsBrackets(ks: seq<Kline>, pair: string, p: EmaAdxTrend.Params, dedup: Dedup)
    requires ValidSeries(ks) && p.Periods() && p.atrStopMult > 0.0 && p.atrTpMult > 0.0
    ensures SignalsAreBrackets(ks, Trend(pair, p, dedup))
  {
    hide EmaAdxTrend.SignalOf;
    var strat := Trend(pair, p, dedup);
    forall i | 0 <= i < |ks| ensures BracketAt(ks, strat, i) {
      var bars := ks[..i + 1];
      PrefixIsValid(ks, i + 1);
      if strat(bars).Some? {
        assert ValidCandle(ks[i]) && bars[|bars| - 1] == ks[i];
        EmaAdxTrend.SignalIsStrictBracket(bars, pair, p, At(bars, dedup));
      }
    }
  }

  lemma MeanReversionEmitsBrackets(ks: seq<Kline>, pair: string, p: VwapRsiMeanRev.Params, dedup: Dedup)
    requires ValidSeries(ks) && p.Periods() && p.atrPeriod >= 2 && p.atrStopMult > 0.0 && p.vwapDeviationPct >= 0.0
    requires p.rsiOversold <= 50.0 <= p.rsiOverbought
    ensures SignalsAreBrackets(ks, MeanReversion(pair, p, dedup))
  {
    hide VwapRsiMeanRev.SignalOf;
    var strat := MeanReversion(pair, p, dedup);
    forall i | 0 <= i < |ks| ensures BracketAt(ks, strat, i) {
      var bars := ks[..i + 1];
      PrefixIsValid(ks, i + 1);
      if strat(bars).Some? {
        assert ValidCandle(ks[i]) && bars[|bars| - 1] == ks[i];
        VwapRsiMeanRev.SignalIsStrictBracket(bars, pair, p, At(bars, dedup));
      }
    }
  }

  lemma StructureEmitsBrackets(ks: seq<Kline>, pair: string, p: FvgOb.Params, dedup: Dedup)
    requires ValidSeries(ks)
    ensures SignalsAreBrackets(ks, Structure(pair, p, dedup))
  {
    var strat := Structure(pair, p, dedup);
    forall i | 0 <= i < |ks| ensures BracketAt(ks, strat, i) {
      var bars := ks[..i + 1];
      PrefixIsValid(ks, i + 1);
      assert ValidCandle(ks[i]) && bars[|bars| - 1] == ks[i];
      hide FvgOb.NewestBullish, FvgOb.NewestBearish;
    }
  }

  /** The key of every signal names strategy, pair, side, entry and the close time of the last bar seen. */
  lemma SignalsAreDated(bars: seq<Kline>, pair: string, t: EmaAdxTrend.Params, v: VwapRsiMeanRev.Params, f: FvgOb.Params, dedup: Dedup)
    requires |bars| >= 1 && ValidSeries(bars) && t.Periods() && v.Periods()
    ensures DatedBy(Trend(pair, t, dedup)(bars), "ema_adx_trend", pair, dedup, bars)
    ensures DatedBy(MeanReversion(pair, v, dedup)(bars), "vwap_rsi_meanrev", pair, dedup, bars)
    ensures DatedBy(Structure(pair, f, dedup)(bars), "fvg_ob", pair, dedup, bars)
  {
    hide EmaAdxTrend.SignalOf, VwapRsiMeanRev.SignalOf, FvgOb.SignalOf, FvgOb.LongFires;
    EmaAdxTrend.FiresExactly(bars, pair, t, At(bars, dedup));
    VwapRsiMeanRev.FiresExactly(bars, pair, v, At(bars, dedup));
    FvgOb.FiresExactly(bars, pair, f, At(bars, dedup));
  }

  predicate DatedBy(r: Option<Signal>, key: string, pair: string, dedup: Dedup, bars: seq<Kline>)
    requires |bars| >= 1
  {
    r.Some? ==>
      var last := bars[|bars| - 1];
      && r.value.strategy == key && r.value.entry == last.close
      && r.value.dedupHash == dedup(key, pair, r.value.side, last.close, last.closeTime)
  }
}
