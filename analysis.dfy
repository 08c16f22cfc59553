/**
 * The analysis record every analyzer returns (`AIAnalysis`), with the text
 * templates of the analyzers as tags that keep the numbers they print.
 */
module Analysis {
  import opened Wrappers
  import opened Indicators

  /** The `sentiment` field: one of the three labels, or any other text an LLM reply carries. */
  datatype Sentiment = Positive | Neutral | Negative | OtherSentiment(text: string)

  /** The `riskLevel` field: one of the three tiers, or any other text an LLM reply carries. */
  datatype RiskLevel = Low | Medium | High | OtherRisk(text: string)

  /** The `analysisType` field: "rule", "ml" or "llm". */
  datatype AnalysisType = RuleBased | ModelBased | LanguageModel

  function SentimentLabel(s: Sentiment): string {
    match s
    case Positive => "positive"
    case Neutral => "neutral"
    case Negative => "negative"
    case OtherSentiment(t) => t
  }

  /** Reads a sentiment string; every string reads back to itself. */
  function ParseSentiment(t: string): (s: Sentiment)
    ensures SentimentLabel(s) == t
    ensures s.OtherSentiment? <==> t !in {"positive", "neutral", "negative"}
  {
    if t == "positive" then Positive
    else if t == "neutral" then Neutral
    else if t == "negative" then Negative
    else OtherSentiment(t)
  }

  function RiskLabel(r: RiskLevel): string {
    match r
    case Low => "low"
    case Medium => "medium"
    case High => "high"
    case OtherRisk(t) => t
  }

  /** Reads a risk-level string; every string reads back to itself. */
  function ParseRisk(t: string): (r: RiskLevel)
    ensures RiskLabel(r) == t
    ensures r.OtherRisk? <==> t !in {"low", "medium", "high"}
  {
    if t == "low" then Low
    else if t == "medium" then Medium
    else if t == "high" then High
    else OtherRisk(t)
  }

  /** A three-step grade used by several notes (leader/member/follower, strong/moderate/weak, high/moderate/low). */
  datatype Tier = Strong | Moderate | Weak

  /** The price-earnings grade: below 15, above 30, or in between. */
  datatype Valuation = Cheap | Expensive | FairlyValued

  datatype RsiZone = OverboughtZone | OversoldZone | NeutralZone

  /** The RSI zones shared by the rule analyzer and the model adapter: above 70, below 30, else neutral (NaN included). */
  function ZoneOf(rsi: Option<real>): (z: RsiZone)
    ensures z == OverboughtZone <==> Gt(rsi, 70.0)
    ensures z == OversoldZone <==> Lt(rsi, 30.0)
  {
    if Gt(rsi, 70.0) then OverboughtZone
    else if Lt(rsi, 30.0) then OversoldZone
    else NeutralZone
  }

  /** One entry of `keyPoints`: a text template and the values it prints. */
  datatype KeyPoint =
    // Notes of the rule analyzer, in the order it may emit them.
    | AboveSma200(percent: real)
    | BelowSma200(distance: Option<real>)
    | NearUpperBand
    | NearLowerBand
    | WideBands(width: real)
    | NarrowBands(width: real)
    | SectorRole(sector: string, role: Tier, force: real)
    | SectorRank(sector: string, rank: int, total: int)
    | SectorCorrelation(sector: string, linkage: Tier, correlation: real)
    | ConceptStrength(grade: Tier, strength: real)
    | ActiveConcepts(names: seq<string>)
    | LaggingConcepts(names: seq<string>)
    | AboveSma50
    | BelowSma50
    | RsiReading(zone: RsiZone, rsi: Option<real>)
    | PolicyResonance(grade: Tier, coefficient: real)
    | RelatedPolicies(titles: seq<string>)
    | PriceEarnings(valuation: Valuation, pe: real)
    | DividendYield(percent: real)
    // Notes of the model adapter.
    | PredictedTrend(up: bool, confidence: real)
    | ModelAboveSma50
    | ModelBelowSma50
    | ModelRisk(level: RiskLevel, confidence: real)
    // A note written by a language model.
    | Remark(text: string)

  /** Where the bands and the momentum put the price. */
  datatype Setup = Overbought | Oversold | TightBands | Steady

  /** What qualifies a rule recommendation: the policy and sector flags, or the sector leadership test. */
  datatype Backing = PolicyAndSector | PolicyOnly | SectorOnly | Unbacked | SectorLeader | NotLeader

  datatype Recommendation =
    | TrendAdvice(bullish: bool, setup: Setup, backing: Backing)
    | ModelBuy
    | ModelSell
    | ModelHold
    | AdviceText(text: string)

  datatype PolicyNote = PolicyNote(coefficient: real, grade: Tier)

  datatype Summary =
    | RuleSummary(company: string, price: real, changePercent: Option<real>, sentiment: Sentiment,
                  longTermBullish: bool, bbPosition: Option<real>, sector: string, role: Tier,
                  force: real, conceptsStrong: bool, conceptStrength: real,
                  policy: Option<PolicyNote>, risk: RiskLevel)
    | ModelSummary(company: string, price: real, changePercent: Option<real>, trendUp: bool,
                   sentiment: Sentiment, risk: RiskLevel)
    | SummaryText(text: string)

  datatype AIAnalysis = AIAnalysis(
    summary: Summary,
    sentiment: Sentiment,
    keyPoints: seq<KeyPoint>,
    recommendation: Recommendation,
    riskLevel: RiskLevel,
    analysisType: Option<AnalysisType>)

  /** `(last - previous) / previous * 100`; NaN or infinite (here `None`) when the previous close is 0. */
  function ChangePercent(last: real, previous: real): (r: Option<real>)
    ensures r.Some? <==> previous != 0.0
    ensures r.Some? && previous > 0.0 ==> (r.value > 0.0 <==> last > previous)
  {
    if previous == 0.0 then None
    else
      var q := (last - previous) / previous;
      assert previous > 0.0 ==> (q > 0.0 <==> last > previous) by {
        if previous > 0.0 {
          assert last - previous == q * previous;
        }
      }
      Some(q * 100.0)
  }
}
