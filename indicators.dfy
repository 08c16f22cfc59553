/**
 * The indicator calculator: closed-form indicators over the close series of a
 * price history (oldest bar first).  A value that pandas leaves as NaN,
 * because the history is shorter than the indicator's window or a division
 * has a zero divisor, is `None`; every comparison against it is false.
 */
module Indicators {
  import opened Wrappers

  const SmaShortWindow: nat := 20
  const SmaMidWindow: nat := 50
  const SmaLongWindow: nat := 200
  /** The Bollinger window: the middle band is a 25-bar mean. */
  const BollingerWindow: nat := 25
  const RsiWindow: nat := 14
  const VolatilityWindow: nat := 20
  const MacdFastSpan: nat := 12
  const MacdSlowSpan: nat := 26

  /** A standard deviation, left abstract: any function that is never negative. */
  type Deviation = f: seq<real> -> real | forall w :: f(w) >= 0.0
    witness (w: seq<real>) => 0.0

  /** `x > t` in Python, where `x` may be NaN. */
  predicate Gt(x: Option<real>, t: real) {
    x.Some? && x.value > t
  }

  /** `x < t` in Python, where `x` may be NaN. */
  predicate Lt(x: Option<real>, t: real) {
    x.Some? && x.value < t
  }

  /** `t > x` in Python, where `x` may be NaN. */
  predicate Exceeds(t: real, x: Option<real>) {
    x.Some? && t > x.value
  }

  function Sum(s: seq<real>): real {
    if s == [] then 0.0 else Sum(s[..|s| - 1]) + s[|s| - 1]
  }

  function Mean(s: seq<real>): real
    requires |s| > 0
  {
    Sum(s) / |s| as real
  }

  /** The last `w` entries of `s`: the window a rolling statistic reads at the last bar. */
  function Tail(s: seq<real>, w: nat): (t: seq<real>)
    requires w <= |s|
    ensures |t| == w
    ensures forall i :: 0 <= i < w ==> t[i] == s[|s| - w + i]
  {
    s[|s| - w..]
  }

  /** `series.rolling(window=w).mean().iloc[-1]`. */
  function RollingMean(s: seq<real>, w: nat): (r: Option<real>)
    requires w > 0
    ensures r.Some? <==> |s| >= w
  {
    if |s| >= w then Some(Mean(Tail(s, w))) else None
  }

  /** `series.rolling(window=w).std().iloc[-1]`. */
  function RollingStd(s: seq<real>, w: nat, std: Deviation): (r: Option<real>)
    ensures r.Some? <==> |s| >= w
    ensures r.Some? ==> r.value >= 0.0
  {
    if |s| >= w then Some(std(Tail(s, w))) else None
  }

  /** `close / sma - 1`: the distance of the last close from a moving average. */
  function RelativeTo(close: real, sma: Option<real>): (r: Option<real>)
    ensures r.Some? <==> sma.Some? && sma.value != 0.0
    ensures r.Some? && sma.value > 0.0 ==> (r.value > 0.0 <==> close > sma.value)
    ensures r.Some? && sma.value > 0.0 ==> (r.value < 0.0 <==> close < sma.value)
  {
    if sma.Some? && sma.value != 0.0 then
      var q := close / sma.value;
      assert sma.value > 0.0 ==> (q > 1.0 <==> close > sma.value) && (q < 1.0 <==> close < sma.value) by {
        if sma.value > 0.0 {
          assert close == q * sma.value;
        }
      }
      Some(q - 1.0)
    else None
  }

  /** The Bollinger bands of the last bar: middle = 25-bar mean, upper/lower = middle +/- 2 std. */
  datatype Bands = Bands(upper: real, middle: real, lower: real)

  function Bollinger(closes: seq<real>, std: Deviation): (b: Option<Bands>)
    ensures b.Some? <==> |closes| >= BollingerWindow
    ensures b.Some? ==> b.value.middle == Mean(Tail(closes, BollingerWindow))
    ensures b.Some? ==> b.value.lower <= b.value.middle <= b.value.upper
    ensures b.Some? ==> b.value.upper - b.value.middle == b.value.middle - b.value.lower
  {
    if |closes| >= BollingerWindow then
      var middle := Mean(Tail(closes, BollingerWindow));
      var d := std(Tail(closes, BollingerWindow));
      Some(Bands(middle + d * 2.0, middle, middle - d * 2.0))
    else None
  }

  /** `(upper - lower) / middle`. */
  function BandWidth(b: Option<Bands>): (r: Option<real>)
    ensures r.Some? <==> b.Some? && b.value.middle != 0.0
    ensures r.Some? && b.value.lower <= b.value.upper && b.value.middle > 0.0 ==> r.value >= 0.0
  {
    if b.Some? && b.value.middle != 0.0 then Some((b.value.upper - b.value.lower) / b.value.middle) else None
  }

  /** `(close - lower) / (upper - lower)`: 0 at the lower band, 1 at the upper band. */
  function BandPosition(close: real, b: Option<Bands>): (r: Option<real>)
    ensures r.Some? <==> b.Some? && b.value.upper != b.value.lower
    ensures r.Some? && b.value.lower < b.value.upper ==>
      (r.value > 1.0 <==> close > b.value.upper) && (r.value < 0.0 <==> close < b.value.lower)
  {
    if b.Some? && b.value.upper != b.value.lower then
      var width := b.value.upper - b.value.lower;
      var p := (close - b.value.lower) / width;
      assert width > 0.0 ==> (p > 1.0 <==> close > b.value.upper) && (p < 0.0 <==> close < b.value.lower) by {
        if width > 0.0 {
          assert close - b.value.lower == p * width;
        }
      }
      Some(p)
    else None
  }

  /**
   * `delta.where(delta > 0, 0)`: the rise into each bar, 0 for a fall and
   * for the first bar (whose NaN delta fails the test and is replaced).
   */
  function Gains(c: seq<real>): (g: seq<real>)
    ensures |g| == |c|
    ensures forall i :: 0 <= i < |g| ==> g[i] >= 0.0
  {
    seq(|c|, i requires 0 <= i < |c| => if i > 0 && c[i] - c[i - 1] > 0.0 then c[i] - c[i - 1] else 0.0)
  }

  /** `-delta.where(delta < 0, 0)`: the fall into each bar, 0 otherwise. */
  function Losses(c: seq<real>): (l: seq<real>)
    ensures |l| == |c|
    ensures forall i :: 0 <= i < |l| ==> l[i] >= 0.0
  {
    seq(|c|, i requires 0 <= i < |c| => if i > 0 && c[i] - c[i - 1] < 0.0 then c[i - 1] - c[i] else 0.0)
  }

  /**
   * `100 - 100 / (1 + gain / loss)` at the last bar, from 14-bar means of
   * gains and losses.  A zero mean loss makes `gain / loss` infinite (RSI 100)
   * when the mean gain is positive and NaN when it is zero too.
   */
  function Rsi(c: seq<real>): (r: Option<real>)
    ensures r.Some? ==> 0.0 <= r.value <= 100.0
    ensures r.Some? ==> |c| >= RsiWindow
    ensures |c| >= RsiWindow && r.None? ==> Sum(Tail(Gains(c), RsiWindow)) == 0.0 && Sum(Tail(Losses(c), RsiWindow)) == 0.0
  {
    if |c| < RsiWindow then None
    else
      var g := Tail(Gains(c), RsiWindow);
      var l := Tail(Losses(c), RsiWindow);
      SumNonNegative(g);
      SumNonNegative(l);
      var gain := Mean(g);
      var loss := Mean(l);
      if loss == 0.0 then
        (if gain == 0.0 then None else Some(100.0))
      else
        var rs := gain / loss;
        assert rs >= 0.0;
        assert 100.0 / (1.0 + rs) <= 100.0 by {
          assert 100.0 == 100.0 / (1.0 + rs) * (1.0 + rs);
        }
        Some(100.0 - 100.0 / (1.0 + rs))
  }

  lemma {:induction false} SumNonNegative(s: seq<real>)
    requires forall i :: 0 <= i < |s| ==> s[i] >= 0.0
    ensures Sum(s) >= 0.0
  {
    if s != [] {
      SumNonNegative(s[..|s| - 1]);
    }
  }

  /** `series.ewm(span=span, adjust=False).mean().iloc[-1]`. */
  function Ema(xs: seq<real>, span: nat): real
    requires |xs| > 0
  {
    var alpha := 2.0 / (span as real + 1.0);
    if |xs| == 1 then xs[0] else alpha * xs[|xs| - 1] + (1.0 - alpha) * Ema(xs[..|xs| - 1], span)
  }

  /** The MACD line at the last bar: fast EMA minus slow EMA. */
  function Macd(xs: seq<real>): real
    requires |xs| > 0
  {
    Ema(xs, MacdFastSpan) - Ema(xs, MacdSlowSpan)
  }

  /** What `_calculate_technical_indicators` returns, key by key. */
  datatype IndicatorSet = IndicatorSet(
    sma20: Option<real>,
    sma50: Option<real>,
    sma200: Option<real>,
    priceVsSma200: Option<real>,
    bbUpper: Option<real>,
    bbMiddle: Option<real>,
    bbLower: Option<real>,
    bbWidth: Option<real>,
    bbPosition: Option<real>,
    rsi: Option<real>,
    volatility: Option<real>,
    macd: Option<real>)

  /** The keys of the indicator dictionary, in the order they are filled in. */
  const IndicatorKeys: seq<string> := ["SMA_20", "SMA_50", "SMA_200", "Price_vs_SMA200",
    "BB_Upper", "BB_Middle", "BB_Lower", "BB_Width", "BB_Position", "RSI", "Volatility", "MACD"]

  /** `key in indicators` and `indicators[key]`: `None` for an absent key. */
  function Lookup(ind: IndicatorSet, key: string): (r: Option<Option<real>>)
    ensures r.Some? <==> key in IndicatorKeys
  {
    match key
    case "SMA_20" => Some(ind.sma20)
    case "SMA_50" => Some(ind.sma50)
    case "SMA_200" => Some(ind.sma200)
    case "Price_vs_SMA200" => Some(ind.priceVsSma200)
    case "BB_Upper" => Some(ind.bbUpper)
    case "BB_Middle" => Some(ind.bbMiddle)
    case "BB_Lower" => Some(ind.bbLower)
    case "BB_Width" => Some(ind.bbWidth)
    case "BB_Position" => Some(ind.bbPosition)
    case "RSI" => Some(ind.rsi)
    case "Volatility" => Some(ind.volatility)
    case "MACD" => Some(ind.macd)
    case _ => None
  }

  /**
   * `_calculate_technical_indicators`: every indicator at the last bar of a
   * non-empty close series (an empty one makes `iloc[-1]` raise).
   */
  function Compute(closes: seq<real>, std: Deviation): (ind: IndicatorSet)
    requires |closes| > 0
    ensures ind.sma20.Some? <==> |closes| >= SmaShortWindow
    ensures ind.sma50.Some? <==> |closes| >= SmaMidWindow
    ensures ind.sma200.Some? <==> |closes| >= SmaLongWindow
    ensures ind.priceVsSma200.Some? ==> |closes| >= SmaLongWindow
    ensures ind.sma200.Some? && ind.sma200.value > 0.0 ==>
      (Gt(ind.priceVsSma200, 0.0) <==> closes[|closes| - 1] > ind.sma200.value)
    ensures ind.bbMiddle.Some? <==> |closes| >= BollingerWindow
    ensures ind.bbUpper.Some? == ind.bbMiddle.Some? && ind.bbLower.Some? == ind.bbMiddle.Some?
    ensures ind.bbMiddle.Some? ==> ind.bbLower.value <= ind.bbMiddle.value <= ind.bbUpper.value
    ensures ind.bbPosition.Some? ==> ind.bbMiddle.Some? && ind.bbUpper.value != ind.bbLower.value
    ensures ind.bbWidth.Some? ==> ind.bbMiddle.Some? && (ind.bbMiddle.value > 0.0 ==> ind.bbWidth.value >= 0.0)
    ensures ind.rsi.Some? ==> |closes| >= RsiWindow && 0.0 <= ind.rsi.value <= 100.0
    ensures ind.volatility.Some? <==> |closes| >= VolatilityWindow
    ensures ind.volatility.Some? ==> ind.volatility.value >= 0.0
    ensures ind.macd.Some?
  {
    var close := closes[|closes| - 1];
    var sma200 := RollingMean(closes, SmaLongWindow);
    var bands := Bollinger(closes, std);
    IndicatorSet(
      sma20 := RollingMean(closes, SmaShortWindow),
      sma50 := RollingMean(closes, SmaMidWindow),
      sma200 := sma200,
      priceVsSma200 := RelativeTo(close, sma200),
      bbUpper := if bands.Some? then Some(bands.value.upper) else None,
      bbMiddle := if bands.Some? then Some(bands.value.middle) else None,
      bbLower := if bands.Some? then Some(bands.value.lower) else None,
      bbWidth := BandWidth(bands),
      bbPosition := BandPosition(close, bands),
      rsi := Rsi(closes),
      volatility := RollingStd(closes, VolatilityWindow, std),
      macd := Some(Macd(closes)))
  }

  // ----- Properties of the indicators -----

  lemma {:induction false} SumBounds(s: seq<real>, lo: real, hi: real)
    requires forall i :: 0 <= i < |s| ==> lo <= s[i] <= hi
    ensures |s| as real * lo <= Sum(s) <= |s| as real * hi
  {
    if s != [] {
      SumBounds(s[..|s| - 1], lo, hi);
    }
  }

  /** A mean lies between any lower and upper bound of its window. */
  lemma MeanBounds(s: seq<real>, lo: real, hi: real)
    requires |s| > 0
    requires forall i :: 0 <= i < |s| ==> lo <= s[i] <= hi
    ensures lo <= Mean(s) <= hi
  {
    SumBounds(s, lo, hi);
    var n := |s| as real;
    assert Sum(s) == Mean(s) * n;
  }

  /** If every entry is at most `hi` and the first is below it, the sum is below `|s| * hi`. */
  lemma {:induction false} SumBelow(s: seq<real>, hi: real)
    requires |s| > 0
    requires forall i :: 0 <= i < |s| ==> s[i] <= hi
    requires s[0] < hi
    ensures Sum(s) < |s| as real * hi
  {
    if |s| == 1 {
      assert Sum(s) == Sum(s[..0]) + s[0];
    } else {
      SumBelow(s[..|s| - 1], hi);
    }
  }

  /**
   * On a history of at least 200 positive, strictly rising closes, the last
   * close lies above its 200-bar mean, so `Price_vs_SMA200 > 0`.
   */
  lemma RisingSeriesIsAboveSma200(closes: seq<real>, std: Deviation)
    requires |closes| >= SmaLongWindow
    requires forall i :: 0 <= i < |closes| ==> closes[i] > 0.0
    requires forall i, j :: 0 <= i < j < |closes| ==> closes[i] < closes[j]
    ensures Gt(Compute(closes, std).priceVsSma200, 0.0)
  {
    var w := Tail(closes, SmaLongWindow);
    var last := closes[|closes| - 1];
    assert w[0] < last;
    SumBelow(w, last);
    SumBounds(w, 0.0, last);
    var n := SmaLongWindow as real;
    assert Sum(w) == Mean(w) * n;
    assert Mean(w) < last;
    assert Mean(w) > 0.0 by {
      assert w[0] > 0.0;
      assert forall i :: 0 <= i < |w| ==> 0.0 <= w[i];
      SumPositive(w);
    }
  }

  lemma {:induction false} SumPositive(s: seq<real>)
    requires |s| > 0
    requires forall i :: 0 <= i < |s| ==> s[i] >= 0.0
    requires s[0] > 0.0
    ensures Sum(s) > 0.0
  {
    if |s| == 1 {
      assert Sum(s) == Sum(s[..0]) + s[0];
    } else {
      SumPositive(s[..|s| - 1]);
    }
  }

  /** An EMA is a running convex combination: it stays within the range of its inputs. */
  lemma {:induction false} EmaBounds(xs: seq<real>, span: nat, lo: real, hi: real)
    requires |xs| > 0 && span > 0
    requires forall i :: 0 <= i < |xs| ==> lo <= xs[i] <= hi
    ensures lo <= Ema(xs, span) <= hi
  {
    if |xs| > 1 {
      EmaBounds(xs[..|xs| - 1], span, lo, hi);
      var alpha := 2.0 / (span as real + 1.0);
      assert alpha <= 1.0 by {
        assert alpha * (span as real + 1.0) == 2.0;
      }
      Convex(alpha, xs[|xs| - 1], Ema(xs[..|xs| - 1], span), lo, hi);
    }
  }

  lemma Convex(a: real, x: real, y: real, lo: real, hi: real)
    requires 0.0 <= a <= 1.0 && lo <= x <= hi && lo <= y <= hi
    ensures lo <= a * x + (1.0 - a) * y <= hi
  {
    MulNonNegative(a, x - lo);
    MulNonNegative(a, hi - x);
    MulNonNegative(1.0 - a, y - lo);
    MulNonNegative(1.0 - a, hi - y);
  }

  lemma MulNonNegative(a: real, b: real)
    requires a >= 0.0 && b >= 0.0
    ensures a * b >= 0.0
  {
  }

  /** On a flat history the MACD line is zero. */
  lemma FlatSeriesHasZeroMacd(closes: seq<real>, price: real)
    requires |closes| > 0
    requires forall i :: 0 <= i < |closes| ==> closes[i] == price
    ensures Macd(closes) == 0.0
  {
    EmaBounds(closes, MacdFastSpan, price, price);
    EmaBounds(closes, MacdSlowSpan, price, price);
  }
}
