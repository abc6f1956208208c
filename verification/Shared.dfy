/** Records and small helpers shared by every part of the trading engine. */
module Shared {
  datatype Option<+T> = None | Some(value: T)

  /** `Err` stands for the exception the program raises, with its message. */
  datatype Result<+T> = Ok(value: T) | Err(error: string)

  datatype Side = Long | Short

  datatype Mode = Backtest | Paper | SemiAuto | FullAuto | BreakevenProtection | ManualOverride

  function ModeText(m: Mode): string {
    match m
    case Backtest => "backtest"
    case Paper => "paper"
    case SemiAuto => "semi_auto"
    case FullAuto => "full_auto"
    case BreakevenProtection => "breakeven_protection"
    case ManualOverride => "manual_override"
  }

  /** How the program prints a truth value. */
  function BoolText(b: bool): string { if b then "True" else "False" }

  datatype OrderType = Market | Limit | StopMarket | StopLimit | ReduceOnlyMarket | ReduceOnlyLimit

  datatype Kline = Kline(openTime: int, open: real, high: real, low: real, close: real,
                         volume: real, closeTime: int)

  datatype FeeSchedule = FeeSchedule(makerBps: real, takerBps: real)

  datatype Signal = Signal(pair: string, side: Side, strategy: string, entry: real, stopLoss: real,
                           takeProfits: seq<real>, leverage: real, dedupHash: string)

  datatype OrderRequest = OrderRequest(pair: string, side: Side, orderType: OrderType, qty: real,
                                       reduceOnly: bool, leverage: Option<real>, idempotencyKey: string,
                                       stopLossPrice: Option<real>, takeProfitPrice: Option<real>)

  const BPS := 10000.0

  function Abs(x: real): real { if x < 0.0 then -x else x }

  function Min(x: real, y: real): real { if y < x then y else x }

  function Max(x: real, y: real): real { if y > x then y else x }

  function Opposite(s: Side): Side { if s == Long then Short else Long }

  /** The text `dedup_hash` feeds to SHA-256: the parts joined by `|`. */
  function DedupHash(parts: seq<string>): string {
    if |parts| == 0 then ""
    else if |parts| == 1 then parts[0]
    else parts[0] + "|" + DedupHash(parts[1..])
  }

  /** A candle with positive prices whose open and close lie in its range. */
  predicate ValidCandle(k: Kline) {
    0.0 < k.low && k.low <= k.open <= k.high && k.low <= k.close <= k.high && 0.0 <= k.volume
  }

  predicate ValidSeries(ks: seq<Kline>) {
    forall i :: 0 <= i < |ks| ==> ValidCandle(ks[i])
  }

  /** Long: stop < entry < target; short: the mirror image. */
  predicate StrictBracket(s: Signal) {
    && |s.takeProfits| > 0
    && match s.side
       case Long => s.stopLoss < s.entry < s.takeProfits[0]
       case Short => s.takeProfits[0] < s.entry < s.stopLoss
  }

  // ---- Arithmetic of real numbers ---------------------------------------------------------

  lemma ScaleBetween(lo: real, x: real, hi: real, v: real)
    requires lo <= x <= hi && 0.0 <= v
    ensures lo * v <= x * v <= hi * v
  {
  }

  lemma ScaleOrder(a: real, b: real, v: real)
    requires 0.0 < v
    ensures a < b <==> a * v < b * v
    ensures a <= b <==> a * v <= b * v
  {
    if a < b { assert (b - a) * v > 0.0; }
    if b < a { assert (a - b) * v > 0.0; }
  }

  lemma SignOfProduct(a: real, b: real)
    requires a > 0.0
    ensures (a * b > 0.0 <==> b > 0.0) && (a * b < 0.0 <==> b < 0.0)
  {
    ScaleOrder(0.0, b, a);
    ScaleOrder(b, 0.0, a);
  }

  function Times(k: real, x: real): real { k * x }

  /** Scaling by a positive factor keeps order, sign and distance. */
  lemma TimesKeepsOrder(k: real, x: real, y: real)
    requires k > 0.0
    ensures Times(k, x) < Times(k, y) <==> x < y
    ensures Times(k, x) - Times(k, y) == Times(k, x - y) && -Times(k, x) == Times(k, -x) && Times(k, 0.0) == 0.0
    ensures (Times(k, x) > 0.0 <==> x > 0.0) && (Times(k, x) < 0.0 <==> x < 0.0)
    ensures Abs(Times(k, x)) == Times(k, Abs(x))
  {
    ScaleOrder(x, y, k);
    ScaleOrder(x, 0.0, k);
    ScaleOrder(0.0, x, k);
  }

  lemma TimesKeepsRatio(k: real, x: real, y: real)
    requires k > 0.0 && y > 0.0
    ensures Times(k, y) > 0.0 && Times(k, x) / Times(k, y) == x / y
  {
    var r := x / y;
    ScaleOrder(0.0, y, k);
    assert r * y == x;
    var n, d := k * x, k * y;
    assert r * d == n;
    var q := n / d;
    assert q * d == n;
    Cancel(q, r, d);
  }

  lemma Distribute(a: real, b: real, q: real)
    ensures (a + b) * q == a * q + b * q
  {
  }

  lemma Cancel(a: real, b: real, q: real)
    requires q != 0.0 && a * q == b * q
    ensures a == b
  {
  }

  lemma DivideBelow(a: real, b: real, m: real)
    requires a <= b && m > 0.0
    ensures a / m <= b / m
  {
    assert (b - a) / m >= 0.0;
  }

  lemma QuotientBetween(lo: real, x: real, hi: real, v: real)
    requires v > 0.0 && lo * v <= x <= hi * v
    ensures lo <= x / v <= hi
  {
    DivideBelow(lo * v, x, v);
    DivideBelow(x, hi * v, v);
    assert lo * v / v == lo && hi * v / v == hi;
  }

  lemma QuotientNonNegative(g: real, l: real)
    requires 0.0 <= g && 0.0 < l
    ensures 0.0 <= g / l
  {
  }

  /** Sum of the first `n` entries. */
  function Total(x: seq<real>, n: nat): real
    requires n <= |x|
  {
    if n == 0 then 0.0 else Total(x, n - 1) + x[n - 1]
  }

  lemma NextMultiple(x: real, m: real)
    ensures x * (m + 1.0) == x * m + x
  {
  }

  lemma {:induction false} TotalBounds(x: seq<real>, n: nat, lo: real, hi: real)
    requires n <= |x|
    requires forall j :: 0 <= j < n ==> lo <= x[j] <= hi
    ensures lo * n as real <= Total(x, n) <= hi * n as real
  {
    if n == 0 {
      assert lo * 0.0 == 0.0 == hi * 0.0;
    } else {
      TotalBounds(x, n - 1, lo, hi);
      var m := (n - 1) as real;
      assert n as real == m + 1.0;
      NextMultiple(lo, m);
      NextMultiple(hi, m);
      assert lo * n as real == lo * m + lo && hi * n as real == hi * m + hi;
    }
  }

  lemma {:induction false} TotalNonNegative(x: seq<real>, n: nat)
    requires n <= |x|
    requires forall j :: 0 <= j < n ==> 0.0 <= x[j]
    ensures 0.0 <= Total(x, n)
    ensures (exists t :: 0 <= t < n && x[t] > 0.0) ==> Total(x, n) > 0.0
  {
    if n == 0 {
    } else {
      TotalNonNegative(x, n - 1);
    }
  }

  lemma {:induction false} TotalCausal(x: seq<real>, y: seq<real>, n: nat)
    requires n <= |x| && n <= |y| && x[..n] == y[..n]
    ensures Total(x, n) == Total(y, n)
  {
    if n == 0 {
    } else {
      assert x[n - 1] == x[..n][n - 1] == y[..n][n - 1] == y[n - 1];
      assert x[..n - 1] == x[..n][..n - 1] == y[..n][..n - 1] == y[..n - 1];
      TotalCausal(x, y, n - 1);
    }
  }
}
