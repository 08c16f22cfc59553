/**
 * `AIService.analyze_time_series` and its rule analysis: a five-day linear
 * price projection, support and resistance levels from the last ten bars,
 * moving averages and MACD at the last bar, and a trend call.
 */
module TimeSeries {
  import opened Wrappers
  import opened Indicators
  import opened Market

  /** One entry of `price_trend`. */
  datatype Forecast = Forecast(day: int, price: real)

  /** The `indicators` part of the result, NaN averages already replaced by 0. */
  datatype SeriesIndicators = SeriesIndicators(ma5: real, ma10: real, ma20: real, macd: real, signal: real, histogram: real)

  /** The `analysis` part: bullish or bearish, strong or weak (the summary text is built from these two). */
  datatype TrendCall = TrendCall(bullish: bool, strong: bool)

  datatype SeriesAnalysis = SeriesAnalysis(
    priceTrend: seq<Forecast>,
    support: seq<real>,
    resistance: seq<real>,
    indicators: SeriesIndicators,
    call: TrendCall)

  const ForecastDays: nat := 5
  const LevelWindow: nat := 10
  const SignalSpan: nat := 9

  // ----- Projection -----

  /** The average daily move over the last five closes: a quarter of their first-to-last change. */
  function Slope(closes: seq<real>): real
    requires |closes| >= 5
  {
    (closes[|closes| - 1] - closes[|closes| - 5]) / 4.0
  }

  /** `price_trend`: for days 1 to 5, the last close plus that many average moves; empty below five bars. */
  function Projection(closes: seq<real>): (p: seq<Forecast>)
    requires |closes| > 0
    ensures |closes| < 5 ==> p == []
    ensures |closes| >= 5 ==> |p| == ForecastDays
    ensures forall i :: 0 <= i < |p| ==> p[i].day == i + 1
  {
    if |closes| < 5 then []
    else
      seq(ForecastDays, i requires 0 <= i < ForecastDays =>
        Forecast(i + 1, closes[|closes| - 1] + Slope(closes) * (i + 1) as real))
  }

  /** The forecasts lie on a line through the last close: consecutive days differ by the same average move. */
  lemma ProjectionIsLinear(closes: seq<real>)
    requires |closes| >= 5
    ensures var p := Projection(closes);
      p[0].price == closes[|closes| - 1] + Slope(closes)
      && forall i :: 0 <= i < |p| - 1 ==> p[i + 1].price - p[i].price == Slope(closes)
  {
    var p := Projection(closes);
    forall i | 0 <= i < |p| - 1 ensures p[i + 1].price - p[i].price == Slope(closes) {
      assert p[i + 1].price == closes[|closes| - 1] + Slope(closes) * (i + 2) as real;
      assert p[i].price == closes[|closes| - 1] + Slope(closes) * (i + 1) as real;
    }
  }

  /** A rise over the last five closes projects strictly rising prices, all above the last close. */
  lemma RisingCloseProjectsRisingPrices(closes: seq<real>)
    requires |closes| >= 5 && closes[|closes| - 1] > closes[|closes| - 5]
    ensures var p := Projection(closes);
      (forall i :: 0 <= i < |p| ==> p[i].price > closes[|closes| - 1])
      && forall i :: 0 <= i < |p| - 1 ==> p[i].price < p[i + 1].price
  {
    var p := Projection(closes);
    var s := Slope(closes);
    assert s > 0.0;
    forall i | 0 <= i < |p| ensures p[i].price > closes[|closes| - 1] {
      assert p[i].price == closes[|closes| - 1] + s * (i + 1) as real;
      MulPositive(s, (i + 1) as real);
    }
    ProjectionIsLinear(closes);
  }

  lemma MulPositive(a: real, b: real)
    requires a > 0.0 && b > 0.0
    ensures a * b > 0.0
  {
  }

  /** The `for` loop over days 1 to 5, appending a forecast when there are at least five bars. */
  method ProjectPrices(closes: seq<real>) returns (trend: seq<Forecast>)
    requires |closes| > 0
    ensures trend == Projection(closes)
  {
    trend := [];
    var lastClose := closes[|closes| - 1];
    ghost var p := Projection(closes);
    for i := 1 to 6
      invariant |closes| >= 5 ==> |p| == 5 && trend == p[..i - 1]
      invariant |closes| < 5 ==> trend == []
    {
      if |closes| >= 5 {
        var recent := closes[|closes| - 5..];
        assert recent[4] == lastClose && recent[0] == closes[|closes| - 5];
        var averageChange := (recent[4] - recent[0]) / 4.0;
        assert averageChange == Slope(closes);
        var forecast := Forecast(i, lastClose + averageChange * i as real);
        assert p[i - 1] == forecast;
        assert p[..i] == p[..i - 1] + [forecast];
        trend := trend + [forecast];
      }
    }
    if |closes| >= 5 {
      assert p[..5] == p;
    }
  }

  // ----- Support and resistance -----

  datatype Levels = Levels(support: seq<real>, resistance: seq<real>)

  /**
   * The lowest low and the highest high of the last ten bars, each followed by
   * a level 2 percent beyond it; no levels below ten bars.
   */
  function KeyLevels(history: seq<Bar>): (l: Levels)
    ensures |history| < LevelWindow ==> l.support == [] && l.resistance == []
    ensures |history| >= LevelWindow ==>
      (|l.support| == 2 && |l.resistance| == 2 && l.support[1] == l.support[0] * 0.98 && l.resistance[1] == l.resistance[0] * 1.02)
    ensures |history| >= LevelWindow ==>
      (forall i :: |history| - LevelWindow <= i < |history| ==> l.support[0] <= history[i].low)
    ensures |history| >= LevelWindow ==>
      (forall i :: |history| - LevelWindow <= i < |history| ==> history[i].high <= l.resistance[0])
    ensures |history| >= LevelWindow ==>
      (exists i :: |history| - LevelWindow <= i < |history| && l.support[0] == history[i].low)
    ensures |history| >= LevelWindow ==>
      (exists i :: |history| - LevelWindow <= i < |history| && l.resistance[0] == history[i].high)
  {
    if |history| < LevelWindow then Levels([], [])
    else
      var recent := history[|history| - LevelWindow..];
      var low := Min(Lows(recent));
      var high := Max(Highs(recent));
      assert forall i :: |history| - LevelWindow <= i < |history| ==>
        low <= Lows(recent)[i - (|history| - LevelWindow)] == history[i].low;
      assert forall i :: |history| - LevelWindow <= i < |history| ==>
        history[i].high == Highs(recent)[i - (|history| - LevelWindow)] <= high;
      LevelsAttained(history);
      Levels([low, low * 0.98], [high, high * 1.02])
  }

  /** The lowest low and the highest high of the last ten bars are each the price of one of those bars. */
  lemma LevelsAttained(history: seq<Bar>)
    requires |history| >= LevelWindow
    ensures var recent := history[|history| - LevelWindow..];
      exists i :: |history| - LevelWindow <= i < |history| && history[i].low == Min(Lows(recent))
    ensures var recent := history[|history| - LevelWindow..];
      exists i :: |history| - LevelWindow <= i < |history| && history[i].high == Max(Highs(recent))
  {
    var offset := |history| - LevelWindow;
    var recent := history[offset..];
    assert |Lows(recent)| == |Highs(recent)| == |recent| == LevelWindow;
    var j :| 0 <= j < |Lows(recent)| && Lows(recent)[j] == Min(Lows(recent));
    assert history[offset + j].low == recent[j].low;
    var k :| 0 <= k < |Highs(recent)| && Highs(recent)[k] == Max(Highs(recent));
    assert history[offset + k].high == recent[k].high;
  }

  /** On ten bars of positive prices the levels come in order: lower support, support, resistance, upper resistance. */
  lemma LevelsAreOrdered(history: seq<Bar>)
    requires |history| >= LevelWindow
    requires forall i :: 0 <= i < |history| ==> 0.0 < history[i].low <= history[i].high
    ensures var l := KeyLevels(history);
      l.support[1] < l.support[0] <= l.resistance[0] < l.resistance[1]
  {
    var l := KeyLevels(history);
    var last := |history| - 1;
    assert l.support[0] <= history[last].low && history[last].high <= l.resistance[0];
  }

  // ----- Indicators -----

  /** The MACD line at every bar. */
  function MacdLine(closes: seq<real>): (m: seq<real>)
    ensures |m| == |closes|
    ensures forall k :: 0 <= k < |closes| ==> m[k] == Macd(closes[..k + 1])
  {
    seq(|closes|, k requires 0 <= k < |closes| => Macd(closes[..k + 1]))
  }

  /** The moving averages (0 where undefined), the MACD line, its 9-span signal and their difference, at the last bar. */
  function SeriesIndicatorsOf(closes: seq<real>): (s: SeriesIndicators)
    requires |closes| > 0
    ensures s.macd == Macd(closes)
    ensures s.signal == Ema(MacdLine(closes), SignalSpan)
    ensures s.histogram == s.macd - s.signal
    ensures s.ma5 == RollingMean(closes, 5).GetOr(0.0)
    ensures s.ma10 == RollingMean(closes, 10).GetOr(0.0)
    ensures s.ma20 == RollingMean(closes, 20).GetOr(0.0)
    ensures |closes| < 5 ==> s.ma5 == 0.0 && s.ma10 == 0.0 && s.ma20 == 0.0
  {
    var line := MacdLine(closes);
    assert closes[..|closes|] == closes;
    var signal := Ema(line, SignalSpan);
    SeriesIndicators(
      RollingMean(closes, 5).GetOr(0.0),
      RollingMean(closes, 10).GetOr(0.0),
      RollingMean(closes, 20).GetOr(0.0),
      line[|line| - 1], signal, line[|line| - 1] - signal)
  }

  /** On a flat history the averages equal the price and MACD, signal and histogram are all zero. */
  lemma FlatSeriesIndicators(closes: seq<real>, price: real)
    requires |closes| >= 20
    requires forall i :: 0 <= i < |closes| ==> closes[i] == price
    ensures var s := SeriesIndicatorsOf(closes);
      s.ma5 == price && s.ma10 == price && s.ma20 == price && s.macd == 0.0 && s.signal == 0.0 && s.histogram == 0.0
  {
    MeanBounds(Tail(closes, 5), price, price);
    MeanBounds(Tail(closes, 10), price, price);
    MeanBounds(Tail(closes, 20), price, price);
    var line := MacdLine(closes);
    forall k | 0 <= k < |closes| ensures line[k] == 0.0 {
      FlatSeriesHasZeroMacd(closes[..k + 1], price);
    }
    EmaBounds(line, SignalSpan, 0.0, 0.0);
  }

  // ----- Trend call -----

  /** Bullish above 50, strong more than 15 away from 50; NaN is bearish and weak. */
  function CallFromRsi(rsi: Option<real>): (c: TrendCall)
    ensures c.bullish <==> Gt(rsi, 50.0)
    ensures c.strong <==> rsi.Some? && (rsi.value > 65.0 || rsi.value < 35.0)
  {
    TrendCall(Gt(rsi, 50.0), rsi.Some? && (rsi.value - 50.0 > 15.0 || 50.0 - rsi.value > 15.0))
  }

  /** `technical_indicators.get(key, 50)`. */
  function IndicatorOr50(ind: IndicatorSet, key: string): (r: Option<real>)
    ensures key in IndicatorKeys ==> r == Lookup(ind, key).value
    ensures key !in IndicatorKeys ==> r == Some(50.0)
  {
    match Lookup(ind, key)
    case Some(v) => v
    case None => Some(50.0)
  }

  /**
   * The call as written: it looks up `'rsi'`, a key the indicator dictionary
   * does not have, so the default 50 decides and every series is called
   * bearish and weak, whatever its RSI.
   */
  function TrendAsWritten(ind: IndicatorSet): (c: TrendCall)
    ensures c == TrendCall(false, false)
  {
    assert "rsi" !in IndicatorKeys;
    CallFromRsi(IndicatorOr50(ind, "rsi"))
  }

  /** The intended call reads the `'RSI'` entry. */
  function Trend(ind: IndicatorSet): (c: TrendCall)
    ensures c.bullish <==> Gt(ind.rsi, 50.0)
    ensures c.strong <==> ind.rsi.Some? && (ind.rsi.value > 65.0 || ind.rsi.value < 35.0)
  {
    CallFromRsi(IndicatorOr50(ind, "RSI"))
  }

  /** An RSI of 80 is called bearish and weak as written, bullish and strong as intended. */
  lemma OverboughtSeriesCalledBearish(ind: IndicatorSet)
    requires ind.rsi == Some(80.0)
    ensures TrendAsWritten(ind) == TrendCall(false, false)
    ensures Trend(ind) == TrendCall(true, true)
  {
  }

  // ----- The analysis -----

  /** `_analyze_time_series_with_rule` on a history already in date order, with the trend call as written. */
  function RuleSeriesAnalysis(history: seq<Bar>, ind: IndicatorSet): (a: SeriesAnalysis)
    requires |history| > 0
    ensures a.priceTrend == Projection(Closes(history))
    ensures Levels(a.support, a.resistance) == KeyLevels(history)
    ensures a.indicators == SeriesIndicatorsOf(Closes(history))
    ensures a.call == TrendCall(false, false)
  {
    var closes := Closes(history);
    var levels := KeyLevels(history);
    SeriesAnalysis(Projection(closes), levels.support, levels.resistance, SeriesIndicatorsOf(closes), TrendAsWritten(ind))
  }

  /** The same analysis with the intended call, which reads the computed RSI. */
  function IntendedSeriesAnalysis(history: seq<Bar>, ind: IndicatorSet): (a: SeriesAnalysis)
    requires |history| > 0
    ensures a.priceTrend == Projection(Closes(history))
    ensures Levels(a.support, a.resistance) == KeyLevels(history)
    ensures a.call.bullish <==> Gt(ind.rsi, 50.0)
    ensures a.call.strong <==> ind.rsi.Some? && (ind.rsi.value > 65.0 || ind.rsi.value < 35.0)
  {
    RuleSeriesAnalysis(history, ind).(call := Trend(ind))
  }

  /** The two level lists, filled by appends when there are at least ten bars. */
  method SupportAndResistance(history: seq<Bar>) returns (support: seq<real>, resistance: seq<real>)
    ensures Levels(support, resistance) == KeyLevels(history)
  {
    support := [];
    resistance := [];
    if |history| >= LevelWindow {
      var recent := history[|history| - LevelWindow..];
      var low := Min(Lows(recent));
      var high := Max(Highs(recent));
      support := support + [low];
      support := support + [low * 0.98];
      resistance := resistance + [high];
      resistance := resistance + [high * 1.02];
    }
  }

  /** The rule analysis, step by step: the projection loop, the level lists, the indicators, the call. */
  method AnalyzeSeriesWithRule(history: seq<Bar>, ind: IndicatorSet) returns (a: SeriesAnalysis)
    requires |history| > 0
    ensures a == RuleSeriesAnalysis(history, ind)
  {
    var closes := Closes(history);
    var priceTrend := ProjectPrices(closes);
    var support, resistance := SupportAndResistance(history);
    a := SeriesAnalysis(priceTrend, support, resistance, SeriesIndicatorsOf(closes), TrendAsWritten(ind));
  }

  /** What the data source returns for the time-series request. */
  datatype SeriesSource = SeriesSource(stockInfoFound: bool, priceHistory: Option<seq<Bar>>)

  /** The result of `analyze_time_series`: the rule analysis whenever there is stock info and a non-empty history. */
  function SeriesResult(source: Option<SeriesSource>, std: Deviation): (r: Option<SeriesAnalysis>)
    ensures r.Some? <==>
      (source.Some? && source.value.stockInfoFound && source.value.priceHistory.Some? && source.value.priceHistory.value != [])
    ensures r.Some? ==>
      var history := source.value.priceHistory.value;
      r.value == RuleSeriesAnalysis(history, Compute(Closes(history), std))
    ensures r.Some? ==> r.value.call == TrendCall(false, false)
  {
    if source.None? || !source.value.stockInfoFound || source.value.priceHistory.None?
       || source.value.priceHistory.value == [] then None
    else
      var history := source.value.priceHistory.value;
      Some(RuleSeriesAnalysis(history, Compute(Closes(history), std)))
  }

  /**
   * `analyze_time_series`. The mode only chooses which attempt runs first:
   * `MLService` has no `predict_time_series` and `OpenAIService` no
   * `analyze_stock_time_series`, so both attempts raise inside their `try`
   * and return the rule analysis, which is also what any other mode gets.
   */
  method AnalyzeTimeSeries(requested: Option<string>, defaultMode: string, source: Option<SeriesSource>,
                           std: Deviation) returns (r: Option<SeriesAnalysis>)
    ensures r == SeriesResult(source, std)
  {
    if source.None? || !source.value.stockInfoFound {
      return None;
    }
    var history := source.value.priceHistory;
    if history.None? || history.value == [] {
      return None;
    }
    var ind := Compute(Closes(history.value), std);
    // The mode only picks the attempt: the "ml" and "llm" attempts raise `AttributeError`
    // inside their `try`, and the handler returns the rule analysis, so every mode ends here.
    var analysis := AnalyzeSeriesWithRule(history.value, ind);
    r := Some(analysis);
  }
}
