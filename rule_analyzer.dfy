/**
 * The rule-based analyzer (`AIService._analyze_with_rule`): a sentiment
 * label, an ordered list of key points, a risk tier, a recommendation and a
 * summary, all derived from the close series, the indicator set and the
 * auxiliary features fetched for the symbol.
 *
 * The functions below state what each part of the analysis is; the method
 * `AnalyzeWithRule` builds the analysis the way the source does (a sentiment
 * variable reassigned by sequential tests, a key-point list grown by appends,
 * a risk variable adjusted in place) and is proved to produce exactly
 * `RuleAnalysis`.
 */
module RuleAnalyzer {
  import opened Wrappers
  import opened Indicators
  import opened Analysis

  /** The sector name used when the linkage data names none. */
  const UnknownSector: string := "未知板块"

  /** `overall_sentiment_score` of one feed article: absent, a number, or a value `float()` rejects. */
  datatype ArticleScore = Unscored | Scored(value: real) | Malformed

  /** The news-sentiment dictionary: its feed and its policy-resonance part (0 and no policies when absent). */
  datatype NewsSentiment = NewsSentiment(feed: seq<ArticleScore>, policyCoefficient: real, policyTitles: seq<string>)

  /** The sector-linkage dictionary, with absent keys at their defaults. */
  datatype SectorLinkage = SectorLinkage(sectorName: string, correlation: real, drivingForce: real, rank: int, total: int)

  /** The concept-distribution dictionary: overall strength and the names of leading and lagging concepts. */
  datatype ConceptDistribution = ConceptDistribution(strength: real, leading: seq<string>, lagging: seq<string>)

  /** A fundamentals entry: absent or 'N/A', the text '0', a number, or a value `float()` rejects. */
  datatype Metric = NotAvailable | ZeroText | Number(value: real) | NotANumber

  /** The fundamentals dictionary: empty, or with its name, P/E ratio and dividend yield entries. */
  datatype Fundamentals = NoFundamentals | Fundamentals(name: Option<string>, peRatio: Metric, dividendYield: Metric)

  /** The values each dictionary's lookups fall back to when the data source returns an empty one. */
  const NoNews := NewsSentiment([], 0.0, [])
  const NoLinkage := SectorLinkage(UnknownSector, 0.0, 0.0, 0, 0)
  const NoConcepts := ConceptDistribution(0.0, [], [])

  /** Everything the analyzer reads besides the indicator set. */
  datatype RuleInputs = RuleInputs(
    symbol: string,
    closes: seq<real>,
    fundamentals: Fundamentals,
    news: NewsSentiment,
    sector: SectorLinkage,
    concepts: ConceptDistribution)

  // ----- Sentiment -----

  /** The label from the day-over-day change alone. */
  function PriceSentiment(change: Option<real>): (s: Sentiment)
    ensures s == Positive <==> Gt(change, 2.0)
    ensures s == Negative <==> Lt(change, -2.0)
    ensures s == Positive || s == Neutral || s == Negative
  {
    if Gt(change, 2.0) then Positive
    else if Lt(change, -2.0) then Negative
    else Neutral
  }

  /** Some article carries a score that `float()` rejects. */
  predicate HasMalformedScore(feed: seq<ArticleScore>): (b: bool)
    ensures b <==> Malformed in feed
  {
    exists i :: 0 <= i < |feed| && feed[i].Malformed?
  }

  /** The scores of the articles that carry one, in feed order. */
  function Scores(feed: seq<ArticleScore>): (s: seq<real>)
    ensures |s| <= |feed|
    ensures (exists i :: 0 <= i < |feed| && feed[i].Scored?) ==> |s| > 0
  {
    if feed == [] then []
    else
      var rest := Scores(feed[1..]);
      assert forall i :: 1 <= i < |feed| ==> feed[i] == feed[1..][i - 1];
      if feed[0].Scored? then [feed[0].value] + rest else rest
  }

  /** The mean score of the feed, when at least one article has a score. */
  function NewsAverage(feed: seq<ArticleScore>): (r: Option<real>)
    ensures r.Some? <==> Scores(feed) != []
  {
    var s := Scores(feed);
    if s == [] then None else Some(Mean(s))
  }

  /** The news average overrides the price label when it is beyond +/-0.2. */
  function SentimentOf(change: Option<real>, feed: seq<ArticleScore>): (s: Sentiment)
    ensures Gt(NewsAverage(feed), 0.2) ==> s == Positive
    ensures Lt(NewsAverage(feed), -0.2) ==> s == Negative
    ensures !Gt(NewsAverage(feed), 0.2) && !Lt(NewsAverage(feed), -0.2) ==> s == PriceSentiment(change)
    ensures s == Positive || s == Neutral || s == Negative
  {
    var avg := NewsAverage(feed);
    if Gt(avg, 0.2) then Positive
    else if Lt(avg, -0.2) then Negative
    else PriceSentiment(change)
  }

  // ----- Grades -----

  /** Sector role by driving force: leader above 0.7, important member above 0.4, else follower. */
  function RoleOf(force: real): (t: Tier)
    ensures t == Strong <==> force > 0.7
    ensures t == Weak <==> force <= 0.4
  {
    if force > 0.7 then Strong else if force > 0.4 then Moderate else Weak
  }

  /** Linkage with the sector: strong above 0.8, moderate above 0.5, else weak. */
  function LinkageOf(correlation: real): (t: Tier)
    ensures t == Strong <==> correlation > 0.8
    ensures t == Weak <==> correlation <= 0.5
  {
    if correlation > 0.8 then Strong else if correlation > 0.5 then Moderate else Weak
  }

  /** Concept grade: strong above 0.7, moderate above 0.4, else weak. */
  function ConceptGradeOf(strength: real): (t: Tier)
    ensures t == Strong <==> strength > 0.7
    ensures t == Weak <==> strength <= 0.4
  {
    if strength > 0.7 then Strong else if strength > 0.4 then Moderate else Weak
  }

  /** Policy-resonance grade: high above 0.7, moderate above 0.3, else low. */
  function PolicyGradeOf(coefficient: real): (t: Tier)
    ensures t == Strong <==> coefficient > 0.7
    ensures t == Weak <==> coefficient <= 0.3
  {
    if coefficient > 0.7 then Strong else if coefficient > 0.3 then Moderate else Weak
  }

  /** P/E grade: below 15 low, above 30 high, else fair. */
  function ValuationOf(pe: real): (v: Valuation)
    ensures v == Cheap <==> pe < 15.0
    ensures v == Expensive <==> pe > 30.0
  {
    if pe < 15.0 then Cheap else if pe > 30.0 then Expensive else FairlyValued
  }

  /** `float(value)` of a fundamentals entry that is not 'N/A'; `None` when it raises (and is ignored). */
  function Parsed(m: Metric): Option<real> {
    match m
    case ZeroText => Some(0.0)
    case Number(v) => Some(v)
    case _ => None
  }

  function Abs(x: real): real {
    if x < 0.0 then -x else x
  }

  function FirstTwo(names: seq<string>): (r: seq<string>)
    ensures |r| <= 2 && r <= names
    ensures |names| >= 2 ==> |r| == 2
  {
    if |names| <= 2 then names else names[..2]
  }

  // ----- Key points, section by section -----

  /** The long-term trend note: above or below the 200-bar mean, by how many percent. */
  function TrendNote(ind: IndicatorSet): (k: KeyPoint)
    ensures k.AboveSma200? <==> Gt(ind.priceVsSma200, 0.0)
    ensures k.AboveSma200? ==> k.percent > 0.0
    ensures k.BelowSma200? ==> (k.distance.Some? <==> ind.priceVsSma200.Some?)
  {
    if Gt(ind.priceVsSma200, 0.0) then AboveSma200(ind.priceVsSma200.value * 100.0)
    else BelowSma200(if ind.priceVsSma200.Some? then Some(Abs(ind.priceVsSma200.value) * 100.0) else None)
  }

  /** Band-position extremes (above 0.95, below 0.05), then band-width extremes (above 0.2, below 0.05). */
  function BandNotes(ind: IndicatorSet): (ks: seq<KeyPoint>)
    ensures |ks| <= 2
    ensures NearUpperBand in ks <==> Gt(ind.bbPosition, 0.95)
    ensures NearLowerBand in ks <==> Lt(ind.bbPosition, 0.05)
    ensures Gt(ind.bbWidth, 0.2) ==> WideBands(ind.bbWidth.value) in ks
    ensures Lt(ind.bbWidth, 0.05) ==> NarrowBands(ind.bbWidth.value) in ks
    ensures forall k :: k in ks && k.WideBands? ==> Gt(ind.bbWidth, 0.2) && k.width == ind.bbWidth.value
    ensures forall k :: k in ks && k.NarrowBands? ==> Lt(ind.bbWidth, 0.05) && k.width == ind.bbWidth.value
    ensures |ks| == 2 ==> (ks[0] == NearUpperBand || ks[0] == NearLowerBand) && (ks[1].WideBands? || ks[1].NarrowBands?)
  {
    (if Gt(ind.bbPosition, 0.95) then [NearUpperBand]
     else if Lt(ind.bbPosition, 0.05) then [NearLowerBand]
     else [])
    + (if Gt(ind.bbWidth, 0.2) then [WideBands(ind.bbWidth.value)]
       else if Lt(ind.bbWidth, 0.05) then [NarrowBands(ind.bbWidth.value)]
       else [])
  }

  /** The sector-role note, followed for a leader ranked in the top 3 of a non-empty sector by its rank. */
  function SectorNotes(s: SectorLinkage): (ks: seq<KeyPoint>)
    ensures 1 <= |ks| <= 2
    ensures ks[0] == SectorRole(s.sectorName, RoleOf(s.drivingForce), s.drivingForce)
    ensures |ks| == 2 <==> s.drivingForce > 0.7 && s.rank <= 3 && s.total > 0
  {
    [SectorRole(s.sectorName, RoleOf(s.drivingForce), s.drivingForce)]
    + (if s.drivingForce > 0.7 && s.rank <= 3 && s.total > 0 then [SectorRank(s.sectorName, s.rank, s.total)] else [])
  }

  /** The sector-linkage note, graded by correlation. */
  function CorrelationNote(s: SectorLinkage): (k: KeyPoint)
    ensures k.SectorCorrelation? && k.sector == s.sectorName && k.correlation == s.correlation
    ensures k.linkage == Strong <==> s.correlation > 0.8
    ensures k.linkage == Weak <==> s.correlation <= 0.5
  {
    SectorCorrelation(s.sectorName, LinkageOf(s.correlation), s.correlation)
  }

  /** The concept-grade note, followed by up to two leading names (strong) or lagging names (weak). */
  function ConceptNotes(c: ConceptDistribution): (ks: seq<KeyPoint>)
    ensures 1 <= |ks| <= 2
    ensures ks[0] == ConceptStrength(ConceptGradeOf(c.strength), c.strength)
    ensures |ks| == 2 <==> (c.strength > 0.7 && c.leading != []) || (c.strength <= 0.4 && c.lagging != [])
  {
    [ConceptStrength(ConceptGradeOf(c.strength), c.strength)]
    + (if c.strength > 0.7 then (if c.leading != [] then [ActiveConcepts(FirstTwo(c.leading))] else [])
       else if c.strength > 0.4 then []
       else if c.lagging != [] then [LaggingConcepts(FirstTwo(c.lagging))]
       else [])
  }

  /** The mid-term note (price against the 50-bar mean) and the RSI zone note. */
  function MomentumNotes(price: real, ind: IndicatorSet): (ks: seq<KeyPoint>)
    ensures |ks| == 2
    ensures ks[0] == AboveSma50 <==> Exceeds(price, ind.sma50)
    ensures ks[1] == RsiReading(ZoneOf(ind.rsi), ind.rsi)
  {
    [if Exceeds(price, ind.sma50) then AboveSma50 else BelowSma50, RsiReading(ZoneOf(ind.rsi), ind.rsi)]
  }

  /** Policy notes, only for a positive coefficient; a high one lists up to two related policy titles. */
  function PolicyNotes(news: NewsSentiment): (ks: seq<KeyPoint>)
    ensures |ks| <= 2
    ensures ks == [] <==> news.policyCoefficient <= 0.0
    ensures ks != [] ==> ks[0] == PolicyResonance(PolicyGradeOf(news.policyCoefficient), news.policyCoefficient)
    ensures |ks| == 2 <==> news.policyCoefficient > 0.7 && news.policyTitles != []
  {
    var c := news.policyCoefficient;
    if c > 0.0 then
      [PolicyResonance(PolicyGradeOf(c), c)]
      + (if c > 0.7 && news.policyTitles != [] then [RelatedPolicies(FirstTwo(news.policyTitles))] else [])
    else []
  }

  /**
   * Valuation notes, only for non-empty fundamentals: the P/E grade when the
   * ratio parses, then the dividend yield in percent unless it is 'N/A', the
   * text '0' or unparsable.
   */
  function FundamentalNotes(f: Fundamentals): (ks: seq<KeyPoint>)
    ensures |ks| <= 2
    ensures f.NoFundamentals? ==> ks == []
    ensures (exists i :: 0 <= i < |ks| && ks[i].PriceEarnings?) <==> f.Fundamentals? && Parsed(f.peRatio).Some?
    ensures (exists i :: 0 <= i < |ks| && ks[i].DividendYield?) <==> f.Fundamentals? && f.dividendYield.Number?
    ensures forall i :: 0 <= i < |ks| && ks[i].PriceEarnings? ==> ks[i].valuation == ValuationOf(ks[i].pe)
  {
    match f
    case NoFundamentals => []
    case Fundamentals(_, pe, dividend) =>
      var peNote := if Parsed(pe).Some? then [PriceEarnings(ValuationOf(Parsed(pe).value), Parsed(pe).value)] else [];
      var dividendNote := if dividend.Number? then [DividendYield(dividend.value * 100.0)] else [];
      var ks := peNote + dividendNote;
      assert Parsed(pe).Some? ==> ks[0].PriceEarnings?;
      assert dividend.Number? ==> ks[|ks| - 1].DividendYield?;
      ks
  }

  /** The notes before the policy notes: trend, bands, sector, correlation, concepts, momentum. */
  function MarketNotes(price: real, x: RuleInputs, ind: IndicatorSet): (ks: seq<KeyPoint>)
    ensures 6 <= |ks| <= 10
    ensures ks[0] == TrendNote(ind)
  {
    [TrendNote(ind)] + BandNotes(ind) + SectorNotes(x.sector) + [CorrelationNote(x.sector)]
      + ConceptNotes(x.concepts) + MomentumNotes(price, ind)
  }

  /** All key points in the order the analyzer appends them: the market notes, then the policy and valuation notes. */
  function KeyPoints(price: real, x: RuleInputs, ind: IndicatorSet): (ks: seq<KeyPoint>)
    ensures 6 <= |ks| <= 14
    ensures ks[0] == TrendNote(ind)
    ensures MarketNotes(price, x, ind) <= ks
  {
    MarketNotes(price, x, ind) + PolicyNotes(x.news) + FundamentalNotes(x.fundamentals)
  }

  /** The role, correlation, concept-strength, 50-bar and RSI notes are always among the key points. */
  lemma KeyPointsHoldCoreNotes(price: real, x: RuleInputs, ind: IndicatorSet)
    ensures var ks := KeyPoints(price, x, ind);
      && SectorRole(x.sector.sectorName, RoleOf(x.sector.drivingForce), x.sector.drivingForce) in ks
      && CorrelationNote(x.sector) in ks
      && ConceptStrength(ConceptGradeOf(x.concepts.strength), x.concepts.strength) in ks
      && (if Exceeds(price, ind.sma50) then AboveSma50 else BelowSma50) in ks
      && RsiReading(ZoneOf(ind.rsi), ind.rsi) in ks
  {
    var bands := BandNotes(ind);
    var sector := SectorNotes(x.sector);
    var concepts := ConceptNotes(x.concepts);
    var momentum := MomentumNotes(price, ind);
    var front := [TrendNote(ind)] + bands + sector + [CorrelationNote(x.sector)] + concepts + momentum;
    assert MarketNotes(price, x, ind) == front;
    var ks := KeyPoints(price, x, ind);
    var m := |front| - 2;
    assert ks[1 + |bands|] == front[1 + |bands|] == sector[0];
    assert ks[1 + |bands| + |sector|] == front[1 + |bands| + |sector|] == CorrelationNote(x.sector);
    assert ks[2 + |bands| + |sector|] == front[2 + |bands| + |sector|] == concepts[0];
    assert ks[m] == front[m] == momentum[0];
    assert ks[m + 1] == front[m + 1] == momentum[1];
  }

  /** A policy-resonance note appears exactly when the resonance coefficient is positive. */
  lemma PolicyNoteIffPositiveCoefficient(price: real, x: RuleInputs, ind: IndicatorSet)
    ensures (exists i :: 0 <= i < |KeyPoints(price, x, ind)| && KeyPoints(price, x, ind)[i].PolicyResonance?)
      <==> x.news.policyCoefficient > 0.0
  {
    var front := MarketNotes(price, x, ind);
    var policy := PolicyNotes(x.news);
    var tail := FundamentalNotes(x.fundamentals);
    var ks := KeyPoints(price, x, ind);
    if x.news.policyCoefficient > 0.0 {
      assert ks[|front|] == policy[0];
    } else {
      assert ks == front + tail;
      forall i | 0 <= i < |ks| ensures !ks[i].PolicyResonance? {
        if i < |front| {
          assert ks[i] == front[i];
          NoPolicyNoteInMarketNotes(price, x, ind, i);
        } else {
          assert ks[i] == tail[i - |front|];
        }
      }
    }
  }

  lemma NoPolicyNoteInMarketNotes(price: real, x: RuleInputs, ind: IndicatorSet, i: int)
    requires 0 <= i < |MarketNotes(price, x, ind)|
    ensures !MarketNotes(price, x, ind)[i].PolicyResonance?
  {
    var b := BandNotes(ind);
    assert forall j :: 0 <= j < |b| ==> !b[j].PolicyResonance?;
    var s := SectorNotes(x.sector);
    assert forall j :: 0 <= j < |s| ==> !s[j].PolicyResonance?;
    var c := ConceptNotes(x.concepts);
    assert forall j :: 0 <= j < |c| ==> !c[j].PolicyResonance?;
    var m := MomentumNotes(price, ind);
    assert !m[0].PolicyResonance? && !m[1].PolicyResonance?;
    var front := [TrendNote(ind)] + b + s + [CorrelationNote(x.sector)];
    assert forall j :: 0 <= j < |front| ==> !front[j].PolicyResonance?;
    var ks := front + c + m;
    assert MarketNotes(price, x, ind) == ks;
    assert forall j :: 0 <= j < |ks| ==> !ks[j].PolicyResonance?;
  }

  // ----- Risk -----

  /** `Volatility / price * 100`; undefined when the volatility is NaN or the price is 0. */
  function VolatilityRatio(volatility: Option<real>, price: real): (r: Option<real>)
    ensures r.Some? <==> volatility.Some? && price != 0.0
  {
    if volatility.Some? && price != 0.0 then Some(volatility.value / price * 100.0) else None
  }

  /** The base tier: high above 3 percent, low below 1 percent, else (NaN included) medium. */
  function BaseRisk(ratio: Option<real>): (r: RiskLevel)
    ensures r == High <==> Gt(ratio, 3.0)
    ensures r == Low <==> Lt(ratio, 1.0)
    ensures r == Low || r == Medium || r == High
  {
    if Gt(ratio, 3.0) then High else if Lt(ratio, 1.0) then Low else Medium
  }

  /** A resonance above 0.5 softens high to medium in an uptrend and hardens low to medium otherwise. */
  function PolicyAdjusted(r: RiskLevel, coefficient: real, bullish: bool): (a: RiskLevel)
    ensures a == r || a == Medium
    ensures coefficient > 0.5 && bullish ==> a != High
    ensures coefficient > 0.5 && !bullish ==> a != Low
    ensures coefficient <= 0.5 ==> a == r
  {
    if coefficient > 0.5 then
      if bullish then (if r == High then Medium else r)
      else (if r == Low then Medium else r)
    else r
  }

  /** A driving force above 0.6, or (failing that) a correlation above 0.8 with concept strength below 0.3, hardens low to medium. */
  function SectorAdjusted(r: RiskLevel, s: SectorLinkage, conceptStrength: real): (a: RiskLevel)
    ensures a == r || (r == Low && a == Medium)
    ensures s.drivingForce > 0.6 || (s.correlation > 0.8 && conceptStrength < 0.3) ==> a != Low
  {
    if s.drivingForce > 0.6 then (if r == Low then Medium else r)
    else if s.correlation > 0.8 && conceptStrength < 0.3 then (if r == Low then Medium else r)
    else r
  }

  /** The final tier: the base tier after the policy and then the sector adjustment. */
  function RiskOf(price: real, x: RuleInputs, ind: IndicatorSet): (r: RiskLevel)
    ensures r == Low || r == Medium || r == High
    ensures r == BaseRisk(VolatilityRatio(ind.volatility, price)) || r == Medium
    ensures x.sector.drivingForce > 0.6 ==> r != Low
    ensures x.news.policyCoefficient > 0.5 && Gt(ind.priceVsSma200, 0.0) ==> r != High
  {
    var base := BaseRisk(VolatilityRatio(ind.volatility, price));
    var afterPolicy := PolicyAdjusted(base, x.news.policyCoefficient, Gt(ind.priceVsSma200, 0.0));
    SectorAdjusted(afterPolicy, x.sector, x.concepts.strength)
  }

  /** The adjustments never move the tier from low to high or back: only towards medium. */
  lemma RiskMovesAtMostOneStep(price: real, x: RuleInputs, ind: IndicatorSet)
    ensures var base := BaseRisk(VolatilityRatio(ind.volatility, price));
      var r := RiskOf(price, x, ind);
      (base == Low ==> r != High) && (base == High ==> r != Low) && (base == Medium ==> r == Medium)
  {
  }

  // ----- Recommendation -----

  /** The short-term setup, tested in priority order overbought, oversold, tight bands. */
  function SetupOf(ind: IndicatorSet): (s: Setup)
    ensures s == Overbought <==> Gt(ind.bbPosition, 0.9) && Gt(ind.rsi, 70.0)
    ensures s == Oversold <==> Lt(ind.bbPosition, 0.1) && Lt(ind.rsi, 30.0)
    ensures s == TightBands <==>
      !(Gt(ind.bbPosition, 0.9) && Gt(ind.rsi, 70.0)) && !(Lt(ind.bbPosition, 0.1) && Lt(ind.rsi, 30.0)) && Lt(ind.bbWidth, 0.05)
  {
    if Gt(ind.bbPosition, 0.9) && Gt(ind.rsi, 70.0) then Overbought
    else if Lt(ind.bbPosition, 0.1) && Lt(ind.rsi, 30.0) then Oversold
    else if Lt(ind.bbWidth, 0.05) then TightBands
    else Steady
  }

  /** Resonance above 0.5. */
  predicate PolicyBullish(coefficient: real) {
    coefficient > 0.5
  }

  /** Driving force above 0.5, or correlation above 0.7 with concept strength above 0.6. */
  predicate SectorBullish(s: SectorLinkage, conceptStrength: real) {
    s.drivingForce > 0.5 || (s.correlation > 0.7 && conceptStrength > 0.6)
  }

  function BackingOf(policy: bool, sector: bool): (b: Backing)
    ensures b == PolicyAndSector <==> policy && sector
    ensures b == Unbacked <==> !policy && !sector
    ensures b != SectorLeader && b != NotLeader
  {
    if policy && sector then PolicyAndSector
    else if policy then PolicyOnly
    else if sector then SectorOnly
    else Unbacked
  }

  /** The template table: the tight-band branch and the downtrend-overbought branch look only at a driving force above 0.7. */
  function Recommend(bullish: bool, setup: Setup, policy: bool, sector: bool, force: real): (r: Recommendation)
    ensures r.TrendAdvice? && r.bullish == bullish && r.setup == setup
    ensures setup == TightBands || (!bullish && setup == Overbought) ==>
      r.backing == (if force > 0.7 then SectorLeader else NotLeader)
    ensures !(setup == TightBands || (!bullish && setup == Overbought)) ==> r.backing == BackingOf(policy, sector)
  {
    if setup == TightBands || (!bullish && setup == Overbought) then
      TrendAdvice(bullish, setup, if force > 0.7 then SectorLeader else NotLeader)
    else
      TrendAdvice(bullish, setup, BackingOf(policy, sector))
  }

  /** The recommendation for the inputs: the template chosen by trend, setup and backing. */
  function RecommendationOf(x: RuleInputs, ind: IndicatorSet): (r: Recommendation)
    ensures r.TrendAdvice? && (r.bullish <==> Gt(ind.priceVsSma200, 0.0)) && r.setup == SetupOf(ind)
    ensures r.backing == PolicyAndSector <==>
      !(r.setup == TightBands || (!r.bullish && r.setup == Overbought)) &&
      x.news.policyCoefficient > 0.5 && SectorBullish(x.sector, x.concepts.strength)
    ensures r.backing == SectorLeader <==>
      (r.setup == TightBands || (!r.bullish && r.setup == Overbought)) && x.sector.drivingForce > 0.7
  {
    Recommend(Gt(ind.priceVsSma200, 0.0), SetupOf(ind), PolicyBullish(x.news.policyCoefficient),
              SectorBullish(x.sector, x.concepts.strength), x.sector.drivingForce)
  }

  /** The opening verdict of each recommendation template. */
  datatype Verdict =
    | HoldAndWatch         // 持有观望
    | BuyActively          // 积极买入
    | ConsiderBuying       // 考虑买入
    | WatchClosely         // 密切关注
    | HoldOrBuyModerately  // 持有或适量买入
    | HoldOrBuySlightly    // 持有或小幅买入
    | HoldCautiously       // 谨慎持有
    | ConsiderTrimming     // 考虑减仓
    | WaitOrProbe          // 观望或试探性买入
    | WaitOrProbeLightly   // 观望或小幅试探
    | Wait                 // 观望
    | WaitOrTrim           // 观望或减仓

  predicate IsBuyVerdict(v: Verdict) {
    v == BuyActively || v == ConsiderBuying
  }

  /** The verdict the template for a trend, setup and backing opens with. */
  function VerdictOf(bullish: bool, setup: Setup, backing: Backing): (v: Verdict)
    ensures IsBuyVerdict(v) <==> bullish && setup == Oversold
    ensures v == WatchClosely <==> setup == TightBands
    ensures bullish && setup == Overbought ==> v == HoldAndWatch
  {
    match setup
    case Overbought =>
      if bullish then HoldAndWatch
      else if backing == SectorLeader then HoldCautiously else ConsiderTrimming
    case Oversold =>
      if bullish then (if backing == PolicyAndSector || backing == PolicyOnly then BuyActively else ConsiderBuying)
      else (if backing == PolicyAndSector || backing == PolicyOnly then WaitOrProbe else WaitOrProbeLightly)
    case TightBands => WatchClosely
    case Steady =>
      if bullish then (if backing == PolicyAndSector || backing == PolicyOnly then HoldOrBuyModerately else HoldOrBuySlightly)
      else if backing == Unbacked then WaitOrTrim else Wait
  }

  /** A buy verdict is given only in a long-term uptrend that is short-term oversold. */
  lemma BuyOnlyWhenOversoldInUptrend(x: RuleInputs, ind: IndicatorSet)
    requires RecommendationOf(x, ind).TrendAdvice?
    ensures var r := RecommendationOf(x, ind);
      IsBuyVerdict(VerdictOf(r.bullish, r.setup, r.backing)) <==>
        Gt(ind.priceVsSma200, 0.0) && Lt(ind.bbPosition, 0.1) && Lt(ind.rsi, 30.0)
  {
  }

  // ----- Summary -----

  /** `fundamentals.get('Name', symbol)`. */
  function CompanyName(f: Fundamentals, symbol: string): (n: string)
    ensures f.Fundamentals? && f.name.Some? ==> n == f.name.value
    ensures !(f.Fundamentals? && f.name.Some?) ==> n == symbol
  {
    if f.Fundamentals? && f.name.Some? then f.name.value else symbol
  }

  /** The summary paragraph's facts: company, price and change, trend, sector role, concepts, policy and risk. */
  function SummaryOf(price: real, change: Option<real>, sentiment: Sentiment, x: RuleInputs,
                     ind: IndicatorSet, risk: RiskLevel): (s: Summary)
    ensures s.RuleSummary?
    ensures s.company == CompanyName(x.fundamentals, x.symbol)
    ensures s.price == price && s.changePercent == change && s.sentiment == sentiment && s.risk == risk
    ensures s.longTermBullish <==> Gt(ind.priceVsSma200, 0.0)
    ensures s.role == Strong <==> x.sector.drivingForce > 0.7
    ensures s.conceptsStrong <==> x.concepts.strength > 0.6
    ensures s.policy.Some? <==> x.news.policyCoefficient > 0.0
  {
    var c := x.news.policyCoefficient;
    RuleSummary(CompanyName(x.fundamentals, x.symbol), price, change, sentiment,
                Gt(ind.priceVsSma200, 0.0), ind.bbPosition, x.sector.sectorName,
                RoleOf(x.sector.drivingForce), x.sector.drivingForce,
                x.concepts.strength > 0.6, x.concepts.strength,
                if c > 0.0 then Some(PolicyNote(c, PolicyGradeOf(c))) else None, risk)
  }

  // ----- The whole analysis -----

  /**
   * The rule analysis, or `None` where the source raises: fewer than two
   * bars (`iloc[-2]`), or a feed score `float()` rejects.
   */
  function RuleAnalysis(x: RuleInputs, ind: IndicatorSet): (r: Option<AIAnalysis>)
    ensures r.None? <==> |x.closes| < 2 || HasMalformedScore(x.news.feed)
    ensures r.Some? ==> r.value.analysisType == Some(RuleBased)
    ensures r.Some? ==> 6 <= |r.value.keyPoints| <= 14
    ensures r.Some? ==> r.value.sentiment in {Positive, Neutral, Negative}
    ensures r.Some? ==> r.value.riskLevel in {Low, Medium, High}
    ensures r.Some? ==> r.value.recommendation.TrendAdvice?
    ensures r.Some? ==>
      var price := x.closes[|x.closes| - 1];
      var change := ChangePercent(price, x.closes[|x.closes| - 2]);
      && r.value.sentiment == SentimentOf(change, x.news.feed)
      && r.value.riskLevel == RiskOf(price, x, ind)
      && r.value.keyPoints == KeyPoints(price, x, ind)
      && r.value.recommendation == RecommendationOf(x, ind)
      && r.value.summary == SummaryOf(price, change, r.value.sentiment, x, ind, r.value.riskLevel)
  {
    if |x.closes| < 2 || HasMalformedScore(x.news.feed) then None
    else
      var price := x.closes[|x.closes| - 1];
      var change := ChangePercent(price, x.closes[|x.closes| - 2]);
      var sentiment := SentimentOf(change, x.news.feed);
      var risk := RiskOf(price, x, ind);
      Some(AIAnalysis(
        SummaryOf(price, change, sentiment, x, ind, risk),
        sentiment,
        KeyPoints(price, x, ind),
        RecommendationOf(x, ind),
        risk,
        Some(RuleBased)))
  }

  /** The sentiment step: the price label, overridden by the news average; `None` where `float()` raises. */
  method ScoreSentiment(change: Option<real>, feed: seq<ArticleScore>) returns (s: Option<Sentiment>)
    ensures s.None? <==> HasMalformedScore(feed)
    ensures s.Some? ==> s.value == SentimentOf(change, feed)
  {
    var sentiment := Neutral;
    if Gt(change, 2.0) {
      sentiment := Positive;
    } else if Lt(change, -2.0) {
      sentiment := Negative;
    }
    if feed != [] {
      if HasMalformedScore(feed) {
        return None;
      }
      var scores := Scores(feed);
      if scores != [] {
        var average := Mean(scores);
        if average > 0.2 {
          sentiment := Positive;
        } else if average < -0.2 {
          sentiment := Negative;
        }
      }
    }
    return Some(sentiment);
  }

  /** The trend and band notes, appended in order. */
  method AppendTrendNotes(keyPoints: seq<KeyPoint>, ind: IndicatorSet) returns (ks: seq<KeyPoint>)
    ensures ks == keyPoints + [TrendNote(ind)] + BandNotes(ind)
  {
    ks := keyPoints;
    if Gt(ind.priceVsSma200, 0.0) {
      ks := ks + [AboveSma200(ind.priceVsSma200.value * 100.0)];
    } else {
      ks := ks + [BelowSma200(if ind.priceVsSma200.Some? then Some(Abs(ind.priceVsSma200.value) * 100.0) else None)];
    }
    ghost var front := ks;
    assert front == keyPoints + [TrendNote(ind)];
    if Gt(ind.bbPosition, 0.95) {
      ks := ks + [NearUpperBand];
    } else if Lt(ind.bbPosition, 0.05) {
      ks := ks + [NearLowerBand];
    }
    ghost var position := ks[|front|..];
    assert ks == front + position;
    if Gt(ind.bbWidth, 0.2) {
      ks := ks + [WideBands(ind.bbWidth.value)];
    } else if Lt(ind.bbWidth, 0.05) {
      ks := ks + [NarrowBands(ind.bbWidth.value)];
    }
    assert ks == front + (position + ks[|front| + |position|..]);
  }

  /** The sector-role, sector-rank and correlation notes, appended in order. */
  method AppendSectorNotes(keyPoints: seq<KeyPoint>, s: SectorLinkage) returns (ks: seq<KeyPoint>)
    ensures ks == keyPoints + SectorNotes(s) + [CorrelationNote(s)]
  {
    ks := keyPoints;
    if s.drivingForce > 0.7 {
      ks := ks + [SectorRole(s.sectorName, Strong, s.drivingForce)];
      if s.rank <= 3 && s.total > 0 {
        ks := ks + [SectorRank(s.sectorName, s.rank, s.total)];
      }
    } else if s.drivingForce > 0.4 {
      ks := ks + [SectorRole(s.sectorName, Moderate, s.drivingForce)];
    } else {
      ks := ks + [SectorRole(s.sectorName, Weak, s.drivingForce)];
    }
    if s.correlation > 0.8 {
      ks := ks + [SectorCorrelation(s.sectorName, Strong, s.correlation)];
    } else if s.correlation > 0.5 {
      ks := ks + [SectorCorrelation(s.sectorName, Moderate, s.correlation)];
    } else {
      ks := ks + [SectorCorrelation(s.sectorName, Weak, s.correlation)];
    }
  }

  /** The concept-strength note and the leading or lagging names, appended in order. */
  method AppendConceptNotes(keyPoints: seq<KeyPoint>, c: ConceptDistribution) returns (ks: seq<KeyPoint>)
    ensures ks == keyPoints + ConceptNotes(c)
  {
    ks := keyPoints;
    if c.strength > 0.7 {
      ks := ks + [ConceptStrength(Strong, c.strength)];
      if c.leading != [] {
        ks := ks + [ActiveConcepts(FirstTwo(c.leading))];
      }
    } else if c.strength > 0.4 {
      ks := ks + [ConceptStrength(Moderate, c.strength)];
    } else {
      ks := ks + [ConceptStrength(Weak, c.strength)];
      if c.lagging != [] {
        ks := ks + [LaggingConcepts(FirstTwo(c.lagging))];
      }
    }
  }

  /** The concept, mid-term and RSI notes, appended in order. */
  method AppendMomentumNotes(keyPoints: seq<KeyPoint>, price: real, x: RuleInputs, ind: IndicatorSet) returns (ks: seq<KeyPoint>)
    ensures ks == keyPoints + ConceptNotes(x.concepts) + MomentumNotes(price, ind)
  {
    ks := AppendConceptNotes(keyPoints, x.concepts);
    ghost var front := ks;
    if Exceeds(price, ind.sma50) {
      ks := ks + [AboveSma50];
    } else {
      ks := ks + [BelowSma50];
    }
    if Gt(ind.rsi, 70.0) {
      ks := ks + [RsiReading(OverboughtZone, ind.rsi)];
    } else if Lt(ind.rsi, 30.0) {
      ks := ks + [RsiReading(OversoldZone, ind.rsi)];
    } else {
      ks := ks + [RsiReading(NeutralZone, ind.rsi)];
    }
    assert ks == front + MomentumNotes(price, ind);
  }

  /** The policy and valuation notes, appended in order. */
  method AppendPolicyAndValuationNotes(keyPoints: seq<KeyPoint>, x: RuleInputs) returns (ks: seq<KeyPoint>)
    ensures ks == keyPoints + PolicyNotes(x.news) + FundamentalNotes(x.fundamentals)
  {
    ks := keyPoints;
    var coefficient := x.news.policyCoefficient;
    if coefficient > 0.0 {
      if coefficient > 0.7 {
        ks := ks + [PolicyResonance(Strong, coefficient)];
        if x.news.policyTitles != [] {
          ks := ks + [RelatedPolicies(FirstTwo(x.news.policyTitles))];
        }
      } else if coefficient > 0.3 {
        ks := ks + [PolicyResonance(Moderate, coefficient)];
      } else {
        ks := ks + [PolicyResonance(Weak, coefficient)];
      }
    }
    assert ks == keyPoints + PolicyNotes(x.news);
    ks := AppendValuationNotes(ks, x.fundamentals);
  }

  /** The valuation notes, appended in order: the P/E grade, then the dividend yield. */
  method AppendValuationNotes(keyPoints: seq<KeyPoint>, f: Fundamentals) returns (ks: seq<KeyPoint>)
    ensures ks == keyPoints + FundamentalNotes(f)
  {
    ks := keyPoints;
    if f.Fundamentals? {
      var pe := Parsed(f.peRatio);
      if pe.Some? {
        if pe.value < 15.0 {
          ks := ks + [PriceEarnings(Cheap, pe.value)];
        } else if pe.value > 30.0 {
          ks := ks + [PriceEarnings(Expensive, pe.value)];
        } else {
          ks := ks + [PriceEarnings(FairlyValued, pe.value)];
        }
      }
      var dividend := f.dividendYield;
      if dividend.Number? {
        ks := ks + [DividendYield(dividend.value * 100.0)];
      }
    }
  }

  /** The risk step: the base tier, then the policy and the sector adjustments applied in place. */
  method AssessRisk(price: real, x: RuleInputs, ind: IndicatorSet) returns (risk: RiskLevel)
    ensures risk == RiskOf(price, x, ind)
  {
    risk := Medium;
    var ratio := VolatilityRatio(ind.volatility, price);
    if Gt(ratio, 3.0) {
      risk := High;
    } else if Lt(ratio, 1.0) {
      risk := Low;
    }
    if x.news.policyCoefficient > 0.5 {
      if Gt(ind.priceVsSma200, 0.0) {
        if risk == High {
          risk := Medium;
        }
      } else {
        if risk == Low {
          risk := Medium;
        }
      }
    }
    if x.sector.drivingForce > 0.6 {
      if risk == Low {
        risk := Medium;
      }
    } else if x.sector.correlation > 0.8 && x.concepts.strength < 0.3 {
      if risk == Low {
        risk := Medium;
      }
    }
  }

  /** `_analyze_with_rule`: the steps above in the source's order. */
  method AnalyzeWithRule(x: RuleInputs, ind: IndicatorSet) returns (r: Option<AIAnalysis>)
    ensures r == RuleAnalysis(x, ind)
  {
    if |x.closes| < 2 {
      return None;
    }
    var price := x.closes[|x.closes| - 1];
    var change := ChangePercent(price, x.closes[|x.closes| - 2]);
    var sentiment := ScoreSentiment(change, x.news.feed);
    if sentiment.None? {
      return None;
    }
    var keyPoints := AppendTrendNotes([], ind);
    assert keyPoints == [TrendNote(ind)] + BandNotes(ind);
    keyPoints := AppendSectorNotes(keyPoints, x.sector);
    keyPoints := AppendMomentumNotes(keyPoints, price, x, ind);
    assert keyPoints == MarketNotes(price, x, ind);
    keyPoints := AppendPolicyAndValuationNotes(keyPoints, x);
    assert keyPoints == KeyPoints(price, x, ind);
    var risk := AssessRisk(price, x, ind);
    var recommendation := Recommend(Gt(ind.priceVsSma200, 0.0), SetupOf(ind), PolicyBullish(x.news.policyCoefficient),
                                    SectorBullish(x.sector, x.concepts.strength), x.sector.drivingForce);
    var summary := SummaryOf(price, change, sentiment.value, x, ind, risk);
    r := Some(AIAnalysis(summary, sentiment.value, keyPoints, recommendation, risk, Some(RuleBased)));
  }
}
