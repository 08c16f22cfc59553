/**
 * `AIService.analyze_stock`: resolve the analysis mode, fetch the market data
 * for the symbol (stopping at the first missing piece), compute the indicator
 * set, and dispatch to the rule, model or language-model analyzer, where the
 * last two fall back to the rule analyzer.
 *
 * As written the pass never reaches the indicators: it asks the source for
 * `get_sector_linkage`, which no source class defines, and the handler turns
 * the `AttributeError` into `None`. `StockAnalysisAsWritten` is that result;
 * `StockAnalysis` is the intended one, reached when the source has the lookups.
 *
 * The data source, the trained artifact and the language-model reply are
 * inputs: what they return is given, not computed.
 */
module Orchestrator {
  import opened Wrappers
  import opened Indicators
  import opened Market
  import opened Analysis
  import opened RuleAnalyzer
  import MLAdapter
  import DataSources

  /** `DEFAULT_ANALYSIS_MODE` as shipped. */
  const DefaultAnalysisMode: string := "rule"

  datatype Mode = Rule | Ml | Llm

  /** The `_analysis_modes` table: `None` for a name it lacks. */
  function ModeOf(name: string): (m: Option<Mode>)
    ensures m.Some? <==> name in {"rule", "ml", "llm"}
  {
    if name == "rule" then Some(Rule)
    else if name == "ml" then Some(Ml)
    else if name == "llm" then Some(Llm)
    else None
  }

  /**
   * The mode `analyze_stock` dispatches on: the requested one when the table
   * has it, else the configured default; `None` when neither is in the table
   * (the `KeyError` of the dispatch).
   */
  function ResolveMode(requested: Option<string>, defaultMode: string): (m: Option<Mode>)
    ensures requested.Some? && ModeOf(requested.value).Some? ==> m == ModeOf(requested.value)
    ensures requested.None? || ModeOf(requested.value).None? ==> m == ModeOf(defaultMode)
    ensures m.None? <==> (requested.None? || ModeOf(requested.value).None?) && ModeOf(defaultMode).None?
  {
    if requested.Some? && ModeOf(requested.value).Some? then ModeOf(requested.value)
    else ModeOf(defaultMode)
  }

  /** Everything the data source returns for the symbol; `None` marks a missing history or stock info. */
  datatype MarketData = MarketData(
    history: Option<seq<Bar>>,
    stockInfoFound: bool,
    fundamentals: Fundamentals,
    news: NewsSentiment,
    sector: SectorLinkage,
    concepts: ConceptDistribution)

  /** The source answered both the history and the stock-info fetch, so the pass goes on. */
  predicate Complete(source: Option<MarketData>) {
    source.Some? && source.value.history.Some? && source.value.stockInfoFound
  }

  /**
   * Whether the class behind the source defines `get_sector_linkage` and
   * `get_concept_distribution`. None does: the base class and the three
   * registered adapters declare neither.
   */
  predicate DefinesSectorLookups(kind: DataSources.SourceKind) {
    match kind
    case AlphaVantage => false
    case Tushare => false
    case AKShare => false
  }

  /** The data-source calls, in the order they are awaited. */
  datatype Fetch = FetchHistory | FetchStockInfo | FetchFundamentals | FetchNews | FetchSector | FetchConcepts

  /** Every call, in order, of a pass that nothing stops. */
  const AllFetches: seq<Fetch> := [FetchHistory, FetchStockInfo, FetchFundamentals, FetchNews, FetchSector, FetchConcepts]

  /**
   * The calls made: none when the factory raises, none after a missing
   * history or stock info, and none after the news fetch when the source
   * lacks the sector lookups (the attribute lookup raises before any call).
   * `lookups` says whether the source object defines them.
   */
  function FetchTrace(lookups: bool, source: Option<MarketData>): (t: seq<Fetch>)
    ensures t <= AllFetches
    ensures source.None? ==> t == []
    ensures source.Some? && source.value.history.None? ==> t == [FetchHistory]
    ensures source.Some? && source.value.history.Some? && !source.value.stockInfoFound ==> t == [FetchHistory, FetchStockInfo]
    ensures Complete(source) ==> |t| >= 4 && (|t| == 6 <==> lookups)
    ensures FetchSector in t <==> Complete(source) && lookups
  {
    if source.None? then []
    else if source.value.history.None? then AllFetches[..1]
    else if !source.value.stockInfoFound then AllFetches[..2]
    else if !lookups then AllFetches[..4]
    else AllFetches
  }

  // ----- The language-model reply -----

  /** A parsed JSON reply. */
  datatype Json =
    | JNull
    | JBool(b: bool)
    | JNumber(n: real)
    | JString(s: string)
    | JArray(items: seq<Json>)
    | JObject(fields: map<string, Json>)

  /** What `OpenAIService.analyze_stock` returns: the parsed reply, or its fallback after an error with that message. */
  datatype LlmReply = Reply(json: Json) | ServiceError(message: string)

  /** The dictionary `OpenAIService.analyze_stock` returns when the call or the parse fails. */
  function ServiceFallback(message: string): (j: Json)
    ensures j.JObject? && j.fields.Keys == {"summary", "sentiment", "keyPoints", "recommendation", "riskLevel"}
  {
    JObject(map[
      "summary" := JString("无法生成分析: " + message),
      "sentiment" := JString("neutral"),
      "keyPoints" := JArray([JString("分析生成失败")]),
      "recommendation" := JString("无法提供建议"),
      "riskLevel" := JString("medium")])
  }

  function ReplyJson(reply: LlmReply): Json {
    match reply
    case Reply(j) => j
    case ServiceError(m) => ServiceFallback(m)
  }

  /** `result.get(key, default)` validated as a string; `None` when the value is not one. */
  function TextField(fields: map<string, Json>, key: string, default: string): (r: Option<string>)
    ensures key !in fields ==> r == Some(default)
    ensures key in fields ==> (r.Some? <==> fields[key].JString?)
  {
    if key !in fields then Some(default)
    else if fields[key].JString? then Some(fields[key].s)
    else None
  }

  predicate AllStrings(items: seq<Json>) {
    forall i :: 0 <= i < |items| ==> items[i].JString?
  }

  /** `result.get('keyPoints', default)` validated as a list of strings. */
  function TextListField(fields: map<string, Json>, key: string, default: seq<string>): (r: Option<seq<string>>)
    ensures key !in fields ==> r == Some(default)
    ensures key in fields ==> (r.Some? <==> fields[key].JArray? && AllStrings(fields[key].items))
    ensures key in fields && r.Some? ==> |r.value| == |fields[key].items|
  {
    if key !in fields then Some(default)
    else if fields[key].JArray? && AllStrings(fields[key].items) then
      Some(seq(|fields[key].items|, i requires 0 <= i < |fields[key].items| && AllStrings(fields[key].items) =>
        fields[key].items[i].s))
    else None
  }

  /** The record accepts the reply's fields: the four text fields are strings and `keyPoints` a list of strings, where present. */
  predicate WellTyped(fields: map<string, Json>) {
    && ("summary" in fields ==> fields["summary"].JString?)
    && ("sentiment" in fields ==> fields["sentiment"].JString?)
    && ("keyPoints" in fields ==> fields["keyPoints"].JArray? && AllStrings(fields["keyPoints"].items))
    && ("recommendation" in fields ==> fields["recommendation"].JString?)
    && ("riskLevel" in fields ==> fields["riskLevel"].JString?)
  }

  /**
   * The `AIAnalysis` built from the reply, stamped "llm"; `None` where the
   * source raises: a reply that is not an object (`.get`), or a field whose
   * type the record rejects.
   */
  function LanguageModelAnalysis(reply: Json): (r: Option<AIAnalysis>)
    ensures r.Some? <==> reply.JObject? && WellTyped(reply.fields)
    ensures r.Some? ==> r.value.analysisType == Some(LanguageModel)
    ensures r.Some? && "keyPoints" in reply.fields ==>
      (|r.value.keyPoints| == |reply.fields["keyPoints"].items|
       && forall i :: 0 <= i < |r.value.keyPoints| ==> r.value.keyPoints[i] == Remark(reply.fields["keyPoints"].items[i].s))
    ensures reply == JObject(map[]) ==>
      (r.Some? && r.value.sentiment == Neutral && r.value.riskLevel == Medium && r.value.keyPoints == [Remark("无法生成关键点")])
  {
    if !reply.JObject? then None
    else
      var f := reply.fields;
      var summary := TextField(f, "summary", "无法生成分析");
      var sentiment := TextField(f, "sentiment", "neutral");
      var keyPoints := TextListField(f, "keyPoints", ["无法生成关键点"]);
      var recommendation := TextField(f, "recommendation", "无法提供建议");
      var risk := TextField(f, "riskLevel", "medium");
      if summary.None? || sentiment.None? || keyPoints.None? || recommendation.None? || risk.None? then None
      else
        Some(AIAnalysis(
          SummaryText(summary.value),
          ParseSentiment(sentiment.value),
          seq(|keyPoints.value|, i requires 0 <= i < |keyPoints.value| => Remark(keyPoints.value[i])),
          AdviceText(recommendation.value),
          ParseRisk(risk.value),
          Some(LanguageModel)))
  }

  /** A failed service call still yields a language-model analysis: neutral, medium risk, one key point. */
  lemma ServiceErrorStillStampsLanguageModel(message: string)
    ensures var r := LanguageModelAnalysis(ServiceFallback(message));
      r.Some? && r.value.analysisType == Some(LanguageModel) && r.value.sentiment == Neutral
      && r.value.riskLevel == Medium && r.value.keyPoints == [Remark("分析生成失败")]
      && r.value.summary == SummaryText("无法生成分析: " + message)
  {
    var f := ServiceFallback(message).fields;
    var items := f["keyPoints"].items;
    assert items == [JString("分析生成失败")] && AllStrings(items);
    var texts := TextListField(f, "keyPoints", ["无法生成关键点"]).value;
    assert |texts| == 1 && texts[0] == "分析生成失败";
    assert texts == ["分析生成失败"];
  }

  // ----- Dispatch -----

  function RuleInputsOf(symbol: string, history: seq<Bar>, d: MarketData): RuleInputs {
    RuleInputs(symbol, Closes(history), d.fundamentals, d.news, d.sector, d.concepts)
  }

  /** `_analyze_with_ml`: the model's analysis stamped "ml", or the rule analysis when the service returns `None`. */
  function ModelOrRule(model: Option<MLAdapter.ModelData>, symbol: string, history: seq<Bar>, d: MarketData,
                       ind: IndicatorSet): (r: Option<AIAnalysis>)
    ensures MLAdapter.ModelAnalysis(model, symbol, history, d.fundamentals, ind).None? ==>
      r == RuleAnalysis(RuleInputsOf(symbol, history, d), ind)
    ensures MLAdapter.ModelAnalysis(model, symbol, history, d.fundamentals, ind).Some? ==>
      r.Some? && r.value.analysisType == Some(ModelBased)
      && r.value.keyPoints == MLAdapter.ModelAnalysis(model, symbol, history, d.fundamentals, ind).value.keyPoints
    ensures MLAdapter.ModelAnalysis(model, symbol, history, d.fundamentals, ind).Some? ==>
      r == Some(MLAdapter.ModelAnalysis(model, symbol, history, d.fundamentals, ind).value.(analysisType := Some(ModelBased)))
  {
    var m := MLAdapter.ModelAnalysis(model, symbol, history, d.fundamentals, ind);
    if m.None? then RuleAnalysis(RuleInputsOf(symbol, history, d), ind)
    else Some(m.value.(analysisType := Some(ModelBased)))
  }

  /** `_analyze_with_llm`: the reply's analysis, or the rule analysis when building it raises. */
  function LanguageModelOrRule(reply: LlmReply, symbol: string, history: seq<Bar>, d: MarketData,
                               ind: IndicatorSet): (r: Option<AIAnalysis>)
    ensures LanguageModelAnalysis(ReplyJson(reply)).Some? ==> r == LanguageModelAnalysis(ReplyJson(reply))
    ensures LanguageModelAnalysis(ReplyJson(reply)).None? ==> r == RuleAnalysis(RuleInputsOf(symbol, history, d), ind)
  {
    var l := LanguageModelAnalysis(ReplyJson(reply));
    if l.Some? then l else RuleAnalysis(RuleInputsOf(symbol, history, d), ind)
  }

  /**
   * The intended result of `analyze_stock`, for a source that answers the
   * sector lookups; `None` for every path that returns `None` or raises.
   */
  function StockAnalysis(symbol: string, mode: Option<Mode>, source: Option<MarketData>,
                         model: Option<MLAdapter.ModelData>, reply: LlmReply, std: Deviation): (r: Option<AIAnalysis>)
    ensures r.Some? ==> Complete(source) && source.value.history.value != [] && mode.Some?
    ensures Complete(source) && source.value.history.value != [] && mode == Some(Rule) ==>
      r == RuleAnalysis(RuleInputsOf(symbol, source.value.history.value, source.value),
                        Compute(Closes(source.value.history.value), std))
    ensures Complete(source) && source.value.history.value != [] && mode == Some(Ml) ==>
      r == ModelOrRule(model, symbol, source.value.history.value, source.value,
                       Compute(Closes(source.value.history.value), std))
    ensures Complete(source) && source.value.history.value != [] && mode == Some(Llm) ==>
      r == LanguageModelOrRule(reply, symbol, source.value.history.value, source.value,
                               Compute(Closes(source.value.history.value), std))
    ensures r.Some? ==> r.value.analysisType.Some?
    ensures r.Some? && mode == Some(Rule) ==> r.value.analysisType == Some(RuleBased)
    ensures r.Some? && mode == Some(Ml) ==> r.value.analysisType != Some(LanguageModel)
    ensures r.Some? && mode == Some(Llm) ==> r.value.analysisType != Some(ModelBased)
  {
    if !Complete(source) then None
    else
      var d := source.value;
      var history := d.history.value;
      if history == [] || mode.None? then None
      else
        var ind := Compute(Closes(history), std);
        match mode.value
        case Rule => RuleAnalysis(RuleInputsOf(symbol, history, d), ind)
        case Ml => ModelOrRule(model, symbol, history, d, ind)
        case Llm => LanguageModelOrRule(reply, symbol, history, d, ind)
  }

  /**
   * `analyze_stock` as written: a pass that gets past the stock-info check
   * raises at the sector lookup unless the source defines it (`lookups`), and
   * the handler returns `None`; only a source with the lookups reaches the
   * analyzers.
   */
  function StockAnalysisAsWritten(lookups: bool, symbol: string, mode: Option<Mode>,
                                  source: Option<MarketData>, model: Option<MLAdapter.ModelData>,
                                  reply: LlmReply, std: Deviation): (r: Option<AIAnalysis>)
    ensures !lookups ==> r.None?
    ensures lookups ==> r == StockAnalysis(symbol, mode, source, model, reply, std)
  {
    if Complete(source) && !lookups then None
    else StockAnalysis(symbol, mode, source, model, reply, std)
  }

  /** No registered source ever gets an analysis from `analyze_stock` as written, whatever the mode and the data. */
  lemma NoRegisteredSourceGetsAnAnalysis(kind: DataSources.SourceKind, symbol: string, mode: Option<Mode>,
                                         source: Option<MarketData>, model: Option<MLAdapter.ModelData>,
                                         reply: LlmReply, std: Deviation)
    ensures StockAnalysisAsWritten(DefinesSectorLookups(kind), symbol, mode, source, model, reply, std).None?
    ensures Complete(source) ==>
      FetchTrace(DefinesSectorLookups(kind), source) == [FetchHistory, FetchStockInfo, FetchFundamentals, FetchNews]
  {
    assert !DefinesSectorLookups(kind);
  }

  /**
   * The discrepancy on one input family: with a history and stock info, the
   * language-model mode answers in the intended pass even on a service error,
   * while as written every registered source gets `None`.
   */
  lemma SectorLookupHidesTheAnalysis(kind: DataSources.SourceKind, symbol: string, d: MarketData,
                                     model: Option<MLAdapter.ModelData>, message: string, std: Deviation)
    requires d.history.Some? && d.history.value != [] && d.stockInfoFound
    ensures StockAnalysis(symbol, Some(Llm), Some(d), model, ServiceError(message), std).Some?
    ensures StockAnalysisAsWritten(DefinesSectorLookups(kind), symbol, Some(Llm), Some(d), model, ServiceError(message), std).None?
  {
    ServiceErrorStillStampsLanguageModel(message);
  }

  /**
   * In rule mode a one-bar history yields no analysis (`iloc[-2]`), while the
   * language-model path still answers in the intended pass; as written
   * neither answers.
   */
  lemma OneBarHistoryOnlyAnswersWithLanguageModel(kind: DataSources.SourceKind, symbol: string, d: MarketData,
                                                 model: Option<MLAdapter.ModelData>, message: string, std: Deviation)
    requires d.history.Some? && |d.history.value| == 1 && d.stockInfoFound
    ensures StockAnalysis(symbol, Some(Rule), Some(d), model, ServiceError(message), std).None?
    ensures StockAnalysis(symbol, Some(Llm), Some(d), model, ServiceError(message), std).Some?
    ensures StockAnalysisAsWritten(DefinesSectorLookups(kind), symbol, Some(Rule), Some(d), model, ServiceError(message), std).None?
    ensures StockAnalysisAsWritten(DefinesSectorLookups(kind), symbol, Some(Llm), Some(d), model, ServiceError(message), std).None?
  {
    ServiceErrorStillStampsLanguageModel(message);
  }

  /**
   * `analyze_stock`, step by step: resolve the mode, ask the factory for the
   * source, await each fetch in order, stop where the sector lookup raises,
   * compute the indicators, dispatch. `lookups` says whether the source
   * object defines the sector lookups; for a registered source it is
   * `DefinesSectorLookups` of its class, which is false.
   */
  method AnalyzeStock(lookups: bool, symbol: string, requested: Option<string>, defaultMode: string,
                      source: Option<MarketData>, ml: MLAdapter.MLService, reply: LlmReply, std: Deviation)
    returns (r: Option<AIAnalysis>, fetches: seq<Fetch>)
    ensures r == StockAnalysisAsWritten(lookups, symbol, ResolveMode(requested, defaultMode), source, ml.modelData, reply, std)
    ensures fetches == FetchTrace(lookups, source)
  {
    var mode := ResolveMode(requested, defaultMode);
    fetches := [];
    if source.None? {
      return None, fetches;
    }
    var d := source.value;
    fetches := fetches + [FetchHistory];
    assert fetches == AllFetches[..1];
    if d.history.None? {
      return None, fetches;
    }
    fetches := fetches + [FetchStockInfo];
    assert fetches == AllFetches[..2];
    if !d.stockInfoFound {
      return None, fetches;
    }
    fetches := fetches + [FetchFundamentals, FetchNews];
    assert fetches == AllFetches[..4];
    if !lookups {
      return None, fetches;
    }
    fetches := fetches + [FetchSector, FetchConcepts];
    assert fetches == AllFetches;
    var history := d.history.value;
    if history == [] {
      return None, fetches;
    }
    var ind := Compute(Closes(history), std);
    if mode.None? {
      return None, fetches;
    }
    var inputs := RuleInputsOf(symbol, history, d);
    match mode.value {
      case Rule =>
        r := AnalyzeWithRule(inputs, ind);
      case Ml =>
        var m := ml.AnalyzeStock(symbol, history, d.fundamentals, ind);
        if m.None? {
          r := AnalyzeWithRule(inputs, ind);
        } else {
          r := Some(m.value.(analysisType := Some(ModelBased)));
        }
      case Llm =>
        r := LanguageModelAnalysis(ReplyJson(reply));
        if r.None? {
          r := AnalyzeWithRule(inputs, ind);
        }
    }
  }
}
