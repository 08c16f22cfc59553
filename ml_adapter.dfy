/**
 * The machine-learning service (`MLService`): it turns the indicator set and
 * the last history row into the feature vector the trained artifact expects,
 * and turns the artifact's predictions into an analysis record.
 *
 * The scaler and the three classifiers are not modelled: the artifact is
 * represented by its feature list and an oracle from feature vectors to
 * predictions, where `None` stands for any exception the artifact raises.
 */
module MLAdapter {
  import opened Wrappers
  import opened Indicators
  import opened Market
  import opened Analysis
  import RuleAnalyzer

  /** The first row of each `predict` and `predict_proba` result. */
  datatype Prediction = Prediction(
    trend: int, risk: int, sentiment: int,
    trendProba: seq<real>, riskProba: seq<real>, sentimentProba: seq<real>)

  /** The loaded artifact: `features`, and scaler plus models as one oracle. */
  datatype ModelData = ModelData(features: seq<string>, predict: seq<Option<real>> -> Option<Prediction>)

  /** Lower-case feature names and the indicator each one stands for. */
  const Aliases: map<string, string> :=
    map["sma_20" := "SMA_20", "sma_50" := "SMA_50", "rsi" := "RSI", "volatility" := "Volatility", "macd" := "MACD"]

  /**
   * The value `_prepare_features` puts in the vector for one feature name:
   * an indicator of that exact name, else the last close or volume, else the
   * indicator an alias names, else 0. The outer `None` is the `IndexError`
   * of reading the last row of an empty history; the inner one is NaN.
   */
  function FeatureValue(name: string, history: seq<Bar>, ind: IndicatorSet): (v: Option<Option<real>>)
    ensures name in IndicatorKeys ==> v == Lookup(ind, name)
    ensures name !in IndicatorKeys && name in Aliases ==> v == Lookup(ind, Aliases[name]) && v.Some?
    ensures name == "close" && history != [] ==> v == Some(Some(history[|history| - 1].close))
    ensures name == "volume" && history != [] ==> v == Some(Some(history[|history| - 1].volume))
    ensures v.None? <==> (name == "close" || name == "volume") && history == []
    ensures name !in IndicatorKeys && name !in Aliases && name != "close" && name != "volume" ==> v == Some(Some(0.0))
  {
    if Lookup(ind, name).Some? then Lookup(ind, name)
    else if name == "close" then (if history == [] then None else Some(Some(history[|history| - 1].close)))
    else if name == "volume" then (if history == [] then None else Some(Some(history[|history| - 1].volume)))
    else if name == "sma_20" then Lookup(ind, "SMA_20")
    else if name == "sma_50" then Lookup(ind, "SMA_50")
    else if name == "rsi" then Lookup(ind, "RSI")
    else if name == "volatility" then Lookup(ind, "Volatility")
    else if name == "macd" then Lookup(ind, "MACD")
    else Some(Some(0.0))
  }

  /** An alias yields the same value as the indicator it names. */
  lemma AliasMatchesIndicator(alias: string, history: seq<Bar>, ind: IndicatorSet)
    requires alias in Aliases
    ensures FeatureValue(alias, history, ind) == FeatureValue(Aliases[alias], history, ind)
  {
    assert alias !in IndicatorKeys;
    assert Aliases[alias] in IndicatorKeys;
  }

  /** The feature vector: one value per feature name, in the same order; `None` when any lookup raises. */
  function FeatureVector(names: seq<string>, history: seq<Bar>, ind: IndicatorSet): (r: Option<seq<Option<real>>>)
    ensures r.Some? <==> forall i :: 0 <= i < |names| ==> FeatureValue(names[i], history, ind).Some?
    ensures r.Some? ==> |r.value| == |names|
    ensures r.Some? ==> forall i :: 0 <= i < |names| ==> r.value[i] == FeatureValue(names[i], history, ind).value
  {
    if names == [] then Some([])
    else
      var front := FeatureVector(names[..|names| - 1], history, ind);
      var last := FeatureValue(names[|names| - 1], history, ind);
      assert forall i :: 0 <= i < |names| - 1 ==> names[..|names| - 1][i] == names[i];
      if front.Some? && last.Some? then Some(front.value + [last.value]) else None
  }

  /** `_prepare_features`: the loop over the artifact's feature names. */
  method PrepareFeatures(names: seq<string>, history: seq<Bar>, ind: IndicatorSet) returns (r: Option<seq<Option<real>>>)
    ensures r == FeatureVector(names, history, ind)
  {
    var features: seq<Option<real>> := [];
    var k := 0;
    while k < |names|
      invariant 0 <= k <= |names|
      invariant FeatureVector(names[..k], history, ind) == Some(features)
    {
      var name := names[k];
      var value: Option<real>;
      if Lookup(ind, name).Some? {
        value := Lookup(ind, name).value;
      } else if name == "close" {
        if history == [] {
          assert names[..k + 1][..k] == names[..k];
          return None;
        }
        value := Some(history[|history| - 1].close);
      } else if name == "volume" {
        if history == [] {
          assert names[..k + 1][..k] == names[..k];
          return None;
        }
        value := Some(history[|history| - 1].volume);
      } else if name in Aliases {
        value := Lookup(ind, Aliases[name]).value;
      } else {
        value := Some(0.0);
      }
      assert names[..k + 1][..k] == names[..k];
      features := features + [value];
      k := k + 1;
    }
    assert names[..k] == names;
    r := Some(features);
  }

  /** A failed lookup stops the whole vector. */
  lemma MissingRowFailsVector(names: seq<string>, history: seq<Bar>, ind: IndicatorSet)
    requires history == []
    ensures FeatureVector(names, history, ind).None? <==> "close" in names || "volume" in names
  {
    if "close" in names || "volume" in names {
      var i :| 0 <= i < |names| && (names[i] == "close" || names[i] == "volume");
      assert FeatureValue(names[i], history, ind).None?;
    }
  }

  /** `sentiment_map`: `None` is the `KeyError` of any other class index. */
  function SentimentOfClass(c: int): (s: Option<Sentiment>)
    ensures s.Some? <==> 0 <= c <= 2
    ensures s == Some(Negative) <==> c == 0
    ensures s == Some(Neutral) <==> c == 1
    ensures s == Some(Positive) <==> c == 2
  {
    if c == 0 then Some(Negative) else if c == 1 then Some(Neutral) else if c == 2 then Some(Positive) else None
  }

  /** `risk_map`: `None` is the `KeyError` of any other class index. */
  function RiskOfClass(c: int): (r: Option<RiskLevel>)
    ensures r.Some? <==> 0 <= c <= 2
    ensures r == Some(Low) <==> c == 0
    ensures r == Some(Medium) <==> c == 1
    ensures r == Some(High) <==> c == 2
  {
    if c == 0 then Some(Low) else if c == 1 then Some(Medium) else if c == 2 then Some(High) else None
  }

  /** Buy when up and positive, sell when down and negative, else hold. */
  function ModelRecommendation(trend: int, sentiment: int): (r: Recommendation)
    ensures r == ModelBuy <==> trend == 1 && sentiment == 2
    ensures r == ModelSell <==> trend == 0 && sentiment == 0
    ensures r == ModelHold <==> !(trend == 1 && sentiment == 2) && !(trend == 0 && sentiment == 0)
  {
    if trend == 1 && sentiment == 2 then ModelBuy
    else if trend == 0 && sentiment == 0 then ModelSell
    else ModelHold
  }

  /**
   * `_generate_analysis`. `None` where the source raises: fewer than two
   * closes (`iloc[-2]`), a class index outside the label maps, an empty trend
   * probability list (`max`), or a risk class beyond its probability list.
   */
  function GenerateAnalysis(symbol: string, history: seq<Bar>, fundamentals: RuleAnalyzer.Fundamentals,
                            ind: IndicatorSet, p: Prediction): (r: Option<AIAnalysis>)
    ensures r.None? <==>
      (|history| < 2 || !(0 <= p.sentiment <= 2) || !(0 <= p.risk <= 2) || p.trendProba == [] || p.risk >= |p.riskProba|)
    ensures r.Some? ==> |r.value.keyPoints| == 4
    ensures r.Some? ==> r.value.keyPoints[0] == PredictedTrend(p.trend == 1, Max(p.trendProba) * 100.0)
    ensures r.Some? ==> r.value.keyPoints[1] == (if Exceeds(history[|history| - 1].close, ind.sma50) then ModelAboveSma50 else ModelBelowSma50)
    ensures r.Some? ==> r.value.keyPoints[2] == RsiReading(ZoneOf(ind.rsi), ind.rsi)
    ensures r.Some? ==> r.value.keyPoints[3] == ModelRisk(r.value.riskLevel, p.riskProba[p.risk] * 100.0)
    ensures r.Some? ==> Some(r.value.sentiment) == SentimentOfClass(p.sentiment)
    ensures r.Some? ==> Some(r.value.riskLevel) == RiskOfClass(p.risk)
    ensures r.Some? ==> r.value.recommendation == ModelRecommendation(p.trend, p.sentiment)
    ensures r.Some? ==> r.value.analysisType.None?
  {
    if |history| < 2 then None
    else
      var sentiment := SentimentOfClass(p.sentiment);
      var risk := RiskOfClass(p.risk);
      if sentiment.None? || risk.None? || p.trendProba == [] || p.risk >= |p.riskProba| then None
      else
        var price := history[|history| - 1].close;
        var change := ChangePercent(price, history[|history| - 2].close);
        var keyPoints := [
          PredictedTrend(p.trend == 1, Max(p.trendProba) * 100.0),
          if Exceeds(price, ind.sma50) then ModelAboveSma50 else ModelBelowSma50,
          RsiReading(ZoneOf(ind.rsi), ind.rsi),
          ModelRisk(risk.value, p.riskProba[p.risk] * 100.0)];
        var summary := ModelSummary(RuleAnalyzer.CompanyName(fundamentals, symbol), price, change,
                                    p.trend == 1, sentiment.value, risk.value);
        Some(AIAnalysis(summary, sentiment.value, keyPoints, ModelRecommendation(p.trend, p.sentiment),
                        risk.value, None))
  }

  /** `MLService.analyze_stock` as a function of the artifact: `None` without one, or on any exception. */
  function ModelAnalysis(data: Option<ModelData>, symbol: string, history: seq<Bar>,
                         fundamentals: RuleAnalyzer.Fundamentals, ind: IndicatorSet): (r: Option<AIAnalysis>)
    ensures data.None? ==> r.None?
    ensures r.Some? ==> |history| >= 2 && |r.value.keyPoints| == 4 && r.value.analysisType.None?
    ensures r.Some? ==> FeatureVector(data.value.features, history, ind).Some?
    ensures r.None? <==>
      (|| data.None?
       || FeatureVector(data.value.features, history, ind).None?
       || data.value.predict(FeatureVector(data.value.features, history, ind).value).None?
       || GenerateAnalysis(symbol, history, fundamentals, ind,
                           data.value.predict(FeatureVector(data.value.features, history, ind).value).value).None?)
    ensures r.Some? ==>
      r == GenerateAnalysis(symbol, history, fundamentals, ind,
                            data.value.predict(FeatureVector(data.value.features, history, ind).value).value)
  {
    if data.None? then None
    else
      var features := FeatureVector(data.value.features, history, ind);
      if features.None? then None
      else
        var prediction := data.value.predict(features.value);
        if prediction.None? then None
        else GenerateAnalysis(symbol, history, fundamentals, ind, prediction.value)
  }

  /** The service object: the artifact it loaded at construction, if any. */
  class MLService {
    var modelData: Option<ModelData>

    /** `__init__` and `load_model`: `artifact` is what loading produced (`None` when the file is missing or unreadable). */
    constructor(artifact: Option<ModelData>)
      ensures modelData == artifact
    {
      modelData := artifact;
    }

    /** `analyze_stock`: the guard, the feature loop, the oracle, then `_generate_analysis`. */
    method AnalyzeStock(symbol: string, history: seq<Bar>, fundamentals: RuleAnalyzer.Fundamentals,
                        ind: IndicatorSet) returns (r: Option<AIAnalysis>)
      ensures r == ModelAnalysis(modelData, symbol, history, fundamentals, ind)
    {
      if modelData.None? {
        return None;
      }
      var features := PrepareFeatures(modelData.value.features, history, ind);
      if features.None? {
        return None;
      }
      var prediction := modelData.value.predict(features.value);
      if prediction.None? {
        return None;
      }
      r := GenerateAnalysis(symbol, history, fundamentals, ind, prediction.value);
    }
  }
}
