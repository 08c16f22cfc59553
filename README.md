# AI stock assistant backend: a verified model of its analysis core

This project models the analysis core of the AI stock assistant backend in Dafny.

- **Analysis service (`AIService`).** It resolves the analysis mode and fetches market data from a data source. As written, the pass then asks the source for its sector linkage, a method no source class defines, so every stock analysis ends in `None` (see "## Findings"). The intended pass, modelled beside it, computes the technical indicators and analyses the stock in one of three ways:
  - by rules: sentiment, key points, risk and a recommendation;
  - with a trained model, falling back to the rules;
  - with a language model, also falling back to the rules.

  It also analyses a price series: a five-day linear projection, support and resistance, moving averages and MACD, and a trend call.
- **Machine-learning service (`MLService`).** It turns indicators into a feature vector and model predictions into an analysis.
- **Rate limiter.** A sliding one-minute window per client, chosen by path prefix, and the client's identity from `X-Forwarded-For`.
- **Task scheduler (`SchedulerService`).** A table of periodic tasks and the pass of its scheduling loop.
- **Data-source factory.** Name resolution with a default and one cached instance per source.
- **Uniform API response.** The `api_response` dictionary.

A pandas `NaN` (an undefined rolling mean, a division by zero) is `Option<real>.None`. Every comparison against it is false, as in Python (`Indicators.Gt`, `Lt`, `Exceeds`). Code that would raise an exception becomes a `None` result where the caller catches it.

External services become parameters:
- the data source's answers (`Orchestrator.MarketData`, `TimeSeries.SeriesSource`);
- the loaded model artifact (`MLAdapter.ModelData`, an oracle from feature vectors to predictions);
- the language model's reply (`Orchestrator.LlmReply`);
- the clock (`now`);
- each task function's outcome (`Scheduling.Outcome`);
- the sample standard deviation (`Indicators.Deviation`, only known to be non-negative).

Functions that build text for people are modelled by what they contain, not by their wording:
- key points are the `Analysis.KeyPoint` constructors;
- recommendations are the `Analysis.Recommendation` constructors, with `RuleAnalyzer.Verdict` for the opening verdicts;
- summaries are the `Analysis.Summary` constructors.

Where the source's work is a loop or a state change, the model is imperative and each such method is proved equal to a specification function:
- `RuleAnalyzer.AnalyzeWithRule`
- `MLAdapter.PrepareFeatures`
- `TimeSeries.ProjectPrices`
- `RateLimiting.RateLimiter`
- `RateLimiting.GetLimiter`
- `Scheduling.SchedulerService`
- `DataSources.DataSourceFactory`

## Model

| member | source | states |
|---|---|---|
| Indicators.Tail | backend/app/services/ai_service.py:581-583 | the last `w` closes, in order, are the window a rolling statistic reads |
| Indicators.RollingMean | backend/app/services/ai_service.py:581-583 | a rolling mean is defined exactly when the series is at least as long as its window |
| Indicators.RollingStd | backend/app/services/ai_service.py:591 | a rolling deviation is defined exactly when the window fits, and is never negative |
| Indicators.RelativeTo | backend/app/services/ai_service.py:586-587 | price versus SMA200 is undefined for an undefined or zero average; for a positive average it is positive iff the close is above it, negative iff below |
| Indicators.Bollinger | backend/app/services/ai_service.py:590-595 | bands exist iff there are 25 closes; the middle is the 25-close mean; lower ≤ middle ≤ upper, symmetric around the middle |
| Indicators.BandWidth | backend/app/services/ai_service.py:596 | the width is defined iff the bands exist with a non-zero middle, and is non-negative for a positive middle |
| Indicators.BandPosition | backend/app/services/ai_service.py:597 | the position is defined iff the bands are not collapsed; above 1 iff the close is above the upper band, below 0 iff below the lower band |
| Indicators.Gains | backend/app/services/ai_service.py:600-601 | one non-negative gain per close |
| Indicators.Losses | backend/app/services/ai_service.py:600-602 | one non-negative loss per close |
| Indicators.Rsi | backend/app/services/ai_service.py:600-604 | RSI lies in [0, 100] when defined; it is undefined (0/0) only with 14 closes and no gain and no loss in the window |
| Indicators.Lookup | backend/app/services/ai_service.py:578-616 | exactly the twelve indicator keys the dictionary has are found |
| Indicators.Compute | backend/app/services/ai_service.py:578-616 | which indicators exist for a series of each length; band order; RSI bounds; non-negative volatility; MACD always defined; above SMA200 iff the close is above the average |
| Indicators.SumNonNegative | backend/app/services/ai_service.py:600-604 | a window of non-negative gains or losses sums to a non-negative value |
| Indicators.SumBounds | backend/app/services/ai_service.py:581-583 | a sum of values between two bounds lies between the bounds scaled by the length |
| Indicators.MeanBounds | backend/app/services/ai_service.py:581-583 | a rolling mean lies between the least and the greatest close of its window |
| Indicators.SumBelow | backend/app/services/ai_service.py:583-587 | a window whose first value is below a bound and the rest at most it sums below the scaled bound |
| Indicators.SumPositive | backend/app/services/ai_service.py:600-604 | a non-negative window with a positive first value has a positive sum |
| Indicators.RisingSeriesIsAboveSma200 | backend/app/services/ai_service.py:583-587 | a strictly rising positive series of 200 or more closes is above its 200-day average |
| Indicators.EmaBounds | backend/app/services/ai_service.py:610-612 | an exponential moving average stays between the least and greatest value averaged |
| Indicators.Convex | backend/app/services/ai_service.py:610-611 | one smoothing step keeps the average inside the bounds of its inputs |
| Indicators.FlatSeriesHasZeroMacd | backend/app/services/ai_service.py:610-613 | a constant series has MACD 0 |
| Market.Closes | backend/app/services/ai_service.py:124-126 | the close column: one value per bar, in order |
| Market.Highs | backend/app/services/ai_service.py:723-726 | the high column: one value per bar, in order |
| Market.Lows | backend/app/services/ai_service.py:723-725 | the low column: one value per bar, in order |
| Market.Max | backend/app/services/ai_service.py:726 | the maximum is an element of the series and no element exceeds it |
| Market.Min | backend/app/services/ai_service.py:725 | the minimum is an element of the series and no element is below it |
| Analysis.ParseSentiment | backend/app/services/ai_service.py:556 | any sentiment string reads back to itself; only the three known labels are known sentiments |
| Analysis.ParseRisk | backend/app/services/ai_service.py:560 | any risk-level string reads back to itself; only the three known labels are known levels |
| Analysis.ZoneOf | backend/app/services/ai_service.py:223-228 | overbought iff RSI > 70, oversold iff RSI < 30 (NaN is neutral) |
| Analysis.ChangePercent | backend/app/services/ai_service.py:125-126 | the change is defined iff the previous close is non-zero; for a positive previous close it is positive iff the price rose |
| RuleAnalyzer.PriceSentiment | backend/app/services/ai_service.py:129-133 | positive iff the change exceeds 2 %, negative iff it is below −2 %, otherwise neutral |
| RuleAnalyzer.HasMalformedScore | backend/app/services/ai_service.py:137-141 | the feed holds an article whose score `float()` rejects |
| RuleAnalyzer.Scores | backend/app/services/ai_service.py:137-141 | only articles with a score contribute; any scored article makes the list non-empty |
| RuleAnalyzer.NewsAverage | backend/app/services/ai_service.py:142-143 | the news average exists iff some article carries a score |
| RuleAnalyzer.SentimentOf | backend/app/services/ai_service.py:129-147 | a news average above 0.2 or below −0.2 overrides the price sentiment; otherwise the price decides |
| RuleAnalyzer.RoleOf | backend/app/services/ai_service.py:181-188 | the leader tier iff driving force > 0.7, the weak tier iff ≤ 0.4 |
| RuleAnalyzer.LinkageOf | backend/app/services/ai_service.py:191-196 | strong linkage iff correlation > 0.8, weak iff ≤ 0.5 |
| RuleAnalyzer.ConceptGradeOf | backend/app/services/ai_service.py:204-215 | strong concepts iff strength > 0.7, weak iff ≤ 0.4 |
| RuleAnalyzer.PolicyGradeOf | backend/app/services/ai_service.py:236-244 | high resonance iff coefficient > 0.7, low iff ≤ 0.3 |
| RuleAnalyzer.ValuationOf | backend/app/services/ai_service.py:252-257 | cheap iff P/E < 15, expensive iff P/E > 30 |
| RuleAnalyzer.FirstTwo | backend/app/services/ai_service.py:206-215 | at most the first two concept names, and exactly two when there are two |
| RuleAnalyzer.TrendNote | backend/app/services/ai_service.py:153-158 | the above-SMA200 note iff the relative price is positive, with a positive percentage |
| RuleAnalyzer.BandNotes | backend/app/services/ai_service.py:161-171 | near the upper band iff position > 0.95, near the lower band iff < 0.05; a wide-band note iff width > 0.2 and a narrow-band note iff width < 0.05, each carrying the width; a position note comes before the width note; at most two notes |
| RuleAnalyzer.SectorNotes | backend/app/services/ai_service.py:174-188 | the role note always comes first; the rank note appears iff force > 0.7, rank ≤ 3 and the sector total is positive |
| RuleAnalyzer.ConceptNotes | backend/app/services/ai_service.py:199-215 | the strength note always comes first; a names note iff strong with leading names or weak with lagging names |
| RuleAnalyzer.MomentumNotes | backend/app/services/ai_service.py:218-228 | exactly two notes: above SMA50 iff the price exceeds it, then the RSI reading with its zone |
| RuleAnalyzer.PolicyNotes | backend/app/services/ai_service.py:231-244 | no policy note iff the coefficient is ≤ 0; the titles note iff coefficient > 0.7 with titles |
| RuleAnalyzer.FundamentalNotes | backend/app/services/ai_service.py:246-267 | a P/E note iff fundamentals exist and the P/E parses; a dividend note iff the yield is a number (the text "0" is skipped); the valuation matches the P/E |
| RuleAnalyzer.CorrelationNote | backend/app/services/ai_service.py:190-196 | the sector-linkage note: strong iff correlation > 0.8, weak iff ≤ 0.5 |
| RuleAnalyzer.MarketNotes | backend/app/services/ai_service.py:150-228 | six to ten notes, opening with the SMA200 trend note |
| RuleAnalyzer.KeyPoints | backend/app/services/ai_service.py:150-267 | six to fourteen key points: the market notes first, opening with the SMA200 trend note |
| RuleAnalyzer.KeyPointsHoldCoreNotes | backend/app/services/ai_service.py:173-228 | the key points always hold the sector-role, correlation, concept-strength, SMA50 and RSI notes, graded as the source grades them |
| RuleAnalyzer.PolicyNoteIffPositiveCoefficient | backend/app/services/ai_service.py:235-244 | the key points hold a policy-resonance note iff the coefficient is positive |
| RuleAnalyzer.NoPolicyNoteInMarketNotes | backend/app/services/ai_service.py:150-228 | no note before the policy section is a policy note |
| RuleAnalyzer.VolatilityRatio | backend/app/services/ai_service.py:270-271 | volatility over price is defined iff the volatility is and the price is non-zero |
| RuleAnalyzer.BaseRisk | backend/app/services/ai_service.py:270-275 | high iff the ratio exceeds 3 %, low iff it is below 1 %, otherwise medium |
| RuleAnalyzer.PolicyAdjusted | backend/app/services/ai_service.py:277-287 | a coefficient above 0.5 moves high to medium in an uptrend and low to medium otherwise; nothing else changes |
| RuleAnalyzer.SectorAdjusted | backend/app/services/ai_service.py:289-297 | a sector leader, or a highly correlated stock in weak concepts, is never low risk; only low can change, to medium |
| RuleAnalyzer.RiskOf | backend/app/services/ai_service.py:269-297 | the risk is the volatility level or medium; never low for a sector leader; never high for a policy-backed uptrend |
| RuleAnalyzer.RiskMovesAtMostOneStep | backend/app/services/ai_service.py:277-297 | the adjustments never move risk from low to high or from high to low, and leave medium alone |
| RuleAnalyzer.SetupOf | backend/app/services/ai_service.py:306-312 | overbought iff position > 0.9 and RSI > 70; oversold iff position < 0.1 and RSI < 30; tight bands iff neither and width < 0.05 |
| RuleAnalyzer.BackingOf | backend/app/services/ai_service.py:314-318 | both policy and sector backing iff both signals hold; no backing iff neither |
| RuleAnalyzer.RecommendationOf | backend/app/services/ai_service.py:299-383 | the advice follows the SMA200 trend and the setup; backed by policy and sector iff coefficient > 0.5 and the sector signal holds (outside the leader-only branches); the leader backing iff a leader-only branch and force > 0.7 |
| RuleAnalyzer.Recommend | backend/app/services/ai_service.py:320-383 | tight bands, and overbought in a downtrend, depend only on the leader test (force > 0.7); every other branch depends on the policy and sector backing |
| RuleAnalyzer.VerdictOf | backend/app/services/ai_service.py:320-383 | a buy verdict iff uptrend and oversold; "watch closely" iff tight bands; uptrend and overbought means hold and watch |
| RuleAnalyzer.BuyOnlyWhenOversoldInUptrend | backend/app/services/ai_service.py:303-339 | the recommendation opens with a buy verdict iff price is above SMA200, band position < 0.1 and RSI < 30 |
| RuleAnalyzer.CompanyName | backend/app/services/ai_service.py:385 | the fundamentals' name when there is one, otherwise the symbol |
| RuleAnalyzer.SummaryOf | backend/app/services/ai_service.py:384-417 | the summary names the company, price, change, sentiment, trend, sector role (leader iff force > 0.7), concept strength (strong iff > 0.6), a policy sentence iff the coefficient is positive, and the risk |
| RuleAnalyzer.RuleAnalysis | backend/app/services/ai_service.py:112-428 | no analysis iff fewer than two closes or a news score that does not parse; otherwise stamped "rule", with the sentiment rule on the last day's change, the risk rule, the key points, the recommendation and the summary built from them |
| RuleAnalyzer.ScoreSentiment | backend/app/services/ai_service.py:129-147 | fails iff a score does not parse; otherwise the sentiment rule |
| RuleAnalyzer.AppendTrendNotes | backend/app/services/ai_service.py:150-171 | appends the trend note and then the band notes |
| RuleAnalyzer.AppendSectorNotes | backend/app/services/ai_service.py:173-196 | appends the sector notes and then the correlation note |
| RuleAnalyzer.AppendConceptNotes | backend/app/services/ai_service.py:198-215 | appends the concept-strength note and then the leading or lagging names |
| RuleAnalyzer.AppendMomentumNotes | backend/app/services/ai_service.py:198-228 | appends the concept notes and then the momentum notes |
| RuleAnalyzer.AppendPolicyAndValuationNotes | backend/app/services/ai_service.py:230-267 | appends the policy notes and then the fundamental notes |
| RuleAnalyzer.AppendValuationNotes | backend/app/services/ai_service.py:246-267 | appends the P/E note and then the dividend note, exactly the fundamental notes |
| RuleAnalyzer.AssessRisk | backend/app/services/ai_service.py:269-297 | the step-by-step risk adjustment equals the risk rule |
| RuleAnalyzer.AnalyzeWithRule | backend/app/services/ai_service.py:112-428 | the step-by-step rule analysis equals the rule-analysis function |
| MLAdapter.FeatureValue | backend/app/services/ml_service.py:113-132 | an indicator name reads the indicator; "close" and "volume" read the last bar (failing on an empty history); an alias reads its indicator; anything else is 0 |
| MLAdapter.AliasMatchesIndicator | backend/app/services/ml_service.py:120-129 | a lower-case alias yields the same value as the indicator it names |
| MLAdapter.FeatureVector | backend/app/services/ml_service.py:102-134 | the vector exists iff every lookup succeeds; then it has one value per name, in order |
| MLAdapter.PrepareFeatures | backend/app/services/ml_service.py:102-134 | the loop builds exactly the feature vector |
| MLAdapter.MissingRowFailsVector | backend/app/services/ml_service.py:116-119 | with no history, the vector fails iff it asks for "close" or "volume" |
| MLAdapter.SentimentOfClass | backend/app/services/ml_service.py:155-156 | classes 0, 1 and 2 are negative, neutral and positive; any other class is a KeyError |
| MLAdapter.RiskOfClass | backend/app/services/ml_service.py:159-160 | classes 0, 1 and 2 are low, medium and high; any other class is a KeyError |
| MLAdapter.ModelRecommendation | backend/app/services/ml_service.py:191-196 | buy iff up with positive sentiment, sell iff down with negative sentiment, otherwise hold |
| MLAdapter.GenerateAnalysis | backend/app/services/ml_service.py:136-213 | fails exactly on the inputs that raise; otherwise four key points (trend with confidence, SMA50, RSI zone, risk with confidence) and the mapped sentiment, risk and recommendation |
| MLAdapter.ModelAnalysis | backend/app/services/ml_service.py:38-100 | no analysis exactly when there is no artifact, the feature vector fails, the prediction fails or building the analysis fails; otherwise it is the analysis generated from the artifact's prediction, with two bars or more and four key points |
| MLAdapter.MLService.AnalyzeStock | backend/app/services/ml_service.py:38-100 | the service's steps equal the model-analysis function of its loaded artifact |
| Orchestrator.ModeOf | backend/app/services/ai_service.py:15-20 | the three registered analysis modes |
| Orchestrator.ResolveMode | backend/app/services/ai_service.py:48-55 | a registered request is kept; otherwise the default is used; there is no mode iff neither is registered |
| Orchestrator.FetchTrace | backend/app/services/ai_service.py:58-83 | the calls are a prefix of the await order; none without a source; a missing history stops after the first call, missing stock info after the second; a source without the sector lookups stops after the news call, one with them makes all six |
| Orchestrator.ServiceFallback | backend/app/services/openai_service.py:64-72 | the reply on a service error is an object with exactly the five analysis fields |
| Orchestrator.TextField | backend/app/services/ai_service.py:555-560 | a missing field takes its default; a present field is accepted iff it is a string |
| Orchestrator.TextListField | backend/app/services/ai_service.py:557 | a missing key-point list takes its default; a present one is accepted iff it is a list of strings, one point per entry |
| Orchestrator.LanguageModelAnalysis | backend/app/services/ai_service.py:554-563 | an analysis exists iff the reply is an object with well-typed fields; it is stamped "llm"; key points are the reply's strings; an empty object gives the defaults |
| Orchestrator.ServiceErrorStillStampsLanguageModel | backend/app/services/ai_service.py:544-563 | a service error still yields an "llm" analysis: neutral, medium risk, one failure point, the error in the summary |
| Orchestrator.ModelOrRule | backend/app/services/ai_service.py:431-466 | exactly the model's analysis restamped "ml" when there is one, otherwise the rule analysis |
| Orchestrator.LanguageModelOrRule | backend/app/services/ai_service.py:469-575 | the language-model analysis when it can be built, otherwise the rule analysis |
| Orchestrator.StockAnalysis | backend/app/services/ai_service.py:41-109 | the intended pass: an analysis needs a source, a non-empty history, stock info and a mode; with those, "rule" is the rule analysis, "ml" the model-or-rule analysis and "llm" the language-model-or-rule analysis of the computed indicators; every analysis is stamped, "rule" with "rule", "ml" never with "llm", "llm" never with "ml" |
| Orchestrator.StockAnalysisAsWritten | backend/app/services/ai_service.py:78-109 | as written: a source without the sector lookups never yields an analysis; one with them yields the intended analysis |
| Orchestrator.NoRegisteredSourceGetsAnAnalysis | backend/app/services/ai_service.py:80-83 | for every registered source class, in every mode and for all data, the as-written result is `None`, and a complete pass stops after the news call |
| Orchestrator.SectorLookupHidesTheAnalysis | backend/app/services/ai_service.py:80-109 | with a history and stock info the intended language-model mode answers even on a service error, while as written every registered source gets `None` |
| Orchestrator.OneBarHistoryOnlyAnswersWithLanguageModel | backend/app/services/ai_service.py:41-128 | in the intended pass a one-bar history gives nothing in rule mode while the language-model mode answers, even on a service error; as written neither mode answers for a registered source |
| Orchestrator.AnalyzeStock | backend/app/services/ai_service.py:41-109 | the orchestration equals the as-written stock analysis for the resolved mode and the source's lookups, and performs exactly the fetch trace |
| TimeSeries.Projection | backend/app/services/ai_service.py:702-716 | no forecast under five closes; otherwise forecasts for days 1 to 5 |
| TimeSeries.ProjectionIsLinear | backend/app/services/ai_service.py:710-713 | forecasts start one slope above the last close and rise by the slope each day |
| TimeSeries.RisingCloseProjectsRisingPrices | backend/app/services/ai_service.py:710-713 | if the last close beats the one four bars earlier, every forecast is above the last close and forecasts increase |
| TimeSeries.ProjectPrices | backend/app/services/ai_service.py:702-716 | the loop builds exactly the projection |
| TimeSeries.KeyLevels | backend/app/services/ai_service.py:718-734 | no levels under ten bars; otherwise two supports (low, 98 %) and two resistances (high, 102 %), where the first support is the lowest low and the first resistance the highest high of the last ten bars |
| TimeSeries.LevelsAttained | backend/app/services/ai_service.py:723-726 | the lowest low and the highest high of the last ten bars are each some bar's price |
| TimeSeries.LevelsAreOrdered | backend/app/services/ai_service.py:723-734 | for positive, well-formed bars the levels are ordered: support below support, support ≤ resistance, resistance below resistance |
| TimeSeries.SupportAndResistance | backend/app/services/ai_service.py:718-734 | the step-by-step levels equal the key levels |
| TimeSeries.MacdLine | backend/app/services/ai_service.py:692-694 | the MACD column: one value per bar, each the MACD of the prefix ending there |
| TimeSeries.SeriesIndicatorsOf | backend/app/services/ai_service.py:736-749 | the reported averages are the 5-, 10- and 20-close means (0 when missing); MACD is the series' MACD, the signal its 9-span EMA, the histogram their difference |
| TimeSeries.FlatSeriesIndicators | backend/app/services/ai_service.py:686-749 | a constant series reports every average at the price and MACD, signal and histogram 0 |
| TimeSeries.CallFromRsi | backend/app/services/ai_service.py:752-753 | bullish iff the RSI exceeds 50; strong iff it is more than 15 from 50 |
| TimeSeries.IndicatorOr50 | backend/app/services/ai_service.py:752-754 | `dict.get(key, 50)`: the indicator for a known key, 50 for any other |
| TimeSeries.TrendAsWritten | backend/app/services/ai_service.py:752-754 | as written, every series is called bearish and weak, whatever its RSI |
| TimeSeries.Trend | backend/app/services/ai_service.py:752-754 | corrected call: bullish iff the computed RSI exceeds 50; strong iff it is more than 15 from 50 |
| TimeSeries.OverboughtSeriesCalledBearish | backend/app/services/ai_service.py:752-754 | at RSI 80 the code as written calls bearish and weak, the corrected call bullish and strong |
| TimeSeries.RuleSeriesAnalysis | backend/app/services/ai_service.py:679-758 | the projection, the key levels and the series indicators of the history, and always a bearish, weak call |
| TimeSeries.IntendedSeriesAnalysis | backend/app/services/ai_service.py:679-758 | the same analysis with the corrected call: bullish iff the RSI exceeds 50, strong iff it is more than 15 from 50 |
| TimeSeries.AnalyzeSeriesWithRule | backend/app/services/ai_service.py:679-758 | the step-by-step series analysis equals the rule series-analysis function |
| TimeSeries.SeriesResult | backend/app/services/ai_service.py:619-676 | a series analysis exists iff there is stock info and a non-empty price history; it is the rule series analysis of that history, whose call is always bearish and weak |
| TimeSeries.AnalyzeTimeSeries | backend/app/services/ai_service.py:619-676 | for every requested mode the step-by-step analysis equals the series result: nothing without stock info or history, otherwise the rule series analysis with its bearish, weak call |
| RateLimiting.LimitOf | backend/app/middleware/rate_limiter.py:88-96 | a limit exists exactly for the six configured prefixes |
| RateLimiting.Prune | backend/app/middleware/rate_limiter.py:49 | keeps exactly the timestamps younger than sixty seconds |
| RateLimiting.PruneKeepsCounts | backend/app/middleware/rate_limiter.py:49 | pruning keeps every fresh timestamp as many times as it was recorded, and no expired one |
| RateLimiting.PruneIdempotent | backend/app/middleware/rate_limiter.py:49 | pruning twice at the same time prunes once |
| RateLimiting.PruneLater | backend/app/middleware/rate_limiter.py:49 | pruning early and then later is pruning later |
| RateLimiting.Truncate | backend/app/middleware/rate_limiter.py:55 | `int()` truncates toward zero |
| RateLimiting.RetryAfter | backend/app/middleware/rate_limiter.py:54-56 | at least one second; above one it is the whole seconds until the oldest stamp leaves the window; at most 60 for a stamp not in the future |
| RateLimiting.Decide | backend/app/middleware/rate_limiter.py:46-62 | allowed iff fewer than `limit` fresh stamps; otherwise the wait is the retry time of the oldest fresh stamp, at least 1 s and at most 60 s for past stamps; a limit of 0 with no stamps raises |
| RateLimiting.Cleaned | backend/app/middleware/rate_limiter.py:69-77 | every kept client has fresh stamps only, and only clients left empty are dropped |
| RateLimiting.CleanupKeepsDecisions | backend/app/middleware/rate_limiter.py:64-77 | a cleanup never changes any later decision |
| RateLimiting.RateLimiter.constructor | backend/app/middleware/rate_limiter.py:22-31 | a limiter starts with no records |
| RateLimiting.RateLimiter.IsRateLimited | backend/app/middleware/rate_limiter.py:33-62 | the decision is the window rule; an allowed request stores the pruned stamps plus now; a limited one changes nothing |
| RateLimiting.RateLimiter.Cleanup | backend/app/middleware/rate_limiter.py:64-77 | the records become the cleaned records, with no empty list left |
| RateLimiting.FirstMatch | backend/app/middleware/rate_limiter.py:135-144 | the chosen limiter is "default" or a prefix of the path; "default" iff no other key is a prefix of the path |
| RateLimiting.FirstMatchIsFirst | backend/app/middleware/rate_limiter.py:139-141 | the chosen key is a matching non-default key no later than any given match, and no non-default key before it matches |
| RateLimiting.GetLimiter | backend/app/middleware/rate_limiter.py:135-144 | the loop picks the first matching prefix, which always has a limit |
| RateLimiting.AnalysisLimiterUnreachable | backend/app/middleware/rate_limiter.py:91-94 | "/api/stocks/analysis" is never chosen, since "/api/stocks/" comes first |
| RateLimiting.StripStart | backend/app/middleware/rate_limiter.py:130 | drops exactly the leading whitespace: a suffix of the input after only whitespace, not starting with whitespace |
| RateLimiting.StripEnd | backend/app/middleware/rate_limiter.py:130 | drops exactly the trailing whitespace: a prefix of the input followed by only whitespace, not ending with whitespace |
| RateLimiting.StripIsTrimmed | backend/app/middleware/rate_limiter.py:130 | stripping both ends leaves the run of the input after the leading whitespace, followed by only whitespace |
| RateLimiting.Strip | backend/app/middleware/rate_limiter.py:130 | the result is a contiguous run of the input with only whitespace (as `str.isspace()` defines it) cut off on either side, and neither starts nor ends with whitespace |
| RateLimiting.FirstField | backend/app/middleware/rate_limiter.py:130 | the text before the first comma, a prefix containing no comma |
| RateLimiting.ClientId | backend/app/middleware/rate_limiter.py:124-133 | a non-empty forwarded header gives its stripped first address (no comma); otherwise the host or "unknown" |
| RateLimiting.StripKeepsCommaFree | backend/app/middleware/rate_limiter.py:130 | stripping cannot bring a comma back |
| Scheduling.NewTask | backend/app/services/scheduler_service.py:14-36 | a new task is due now, has never run, and carries no result or error |
| Scheduling.AfterRun | backend/app/services/scheduler_service.py:137-147 | a success records the result, time and one more run and clears the error; a failure records only the message |
| Scheduling.Step | backend/app/services/scheduler_service.py:158-174 | a disabled or not-yet-due task is untouched; a due one runs and is rescheduled an interval after now |
| Scheduling.StepReschedules | backend/app/services/scheduler_service.py:162-174 | with a positive interval a due task is no longer due; the count rises by one iff the run succeeded |
| Scheduling.TickAll | backend/app/services/scheduler_service.py:154-177 | one pass keeps the same task ids |
| Scheduling.InfoOf | backend/app/services/scheduler_service.py:92-100 | the reported last run is absent when a task never ran (or ran at time 0) |
| Scheduling.Without | backend/app/services/scheduler_service.py:80-81 | removing an id keeps exactly the other ids, in order |
| Scheduling.WithoutKeepsDistinct | backend/app/services/scheduler_service.py:80-81 | removing an id keeps the id list free of duplicates |
| Scheduling.SchedulerService.constructor | backend/app/services/scheduler_service.py:43-49 | the scheduler starts with no tasks and not running |
| Scheduling.SchedulerService.AddTask | backend/app/services/scheduler_service.py:51-76 | the id is the given one or a fresh one when none or empty; the new task is stored there, replacing any old one in its place; a new id goes last |
| Scheduling.SchedulerService.RemoveTask | backend/app/services/scheduler_service.py:78-84 | true iff the id existed; exactly that task is gone |
| Scheduling.SchedulerService.GetTask | backend/app/services/scheduler_service.py:86-100 | nothing iff the id is unknown; otherwise that task's report |
| Scheduling.SchedulerService.GetAllTasks | backend/app/services/scheduler_service.py:102-104 | one report per task, in insertion order, covering every task id |
| Scheduling.SchedulerService.EnableTask | backend/app/services/scheduler_service.py:106-112 | true iff the id exists; only that task becomes enabled |
| Scheduling.SchedulerService.DisableTask | backend/app/services/scheduler_service.py:114-120 | true iff the id exists; only that task becomes disabled |
| Scheduling.SchedulerService.UpdateTaskInterval | backend/app/services/scheduler_service.py:122-128 | true iff the id exists; only that task's interval changes |
| Scheduling.SchedulerService.RunTaskNow | backend/app/services/scheduler_service.py:130-147 | true iff the id exists and the run succeeds; the run is recorded and the next run time is kept |
| Scheduling.SchedulerService.Tick | backend/app/services/scheduler_service.py:154-177 | one pass over the tasks in order gives every task its step |
| Scheduling.SchedulerService.Start | backend/app/services/scheduler_service.py:179-183 | after start the scheduler runs; the tasks are unchanged |
| Scheduling.SchedulerService.Stop | backend/app/services/scheduler_service.py:185-191 | after stop the scheduler does not run; the tasks are unchanged |
| Scheduling.SchedulerService.IsRunning | backend/app/services/scheduler_service.py:193-195 | reports the running flag |
| Scheduling.DistinctKeysCount | backend/app/services/scheduler_service.py:102-104 | a duplicate-free list of exactly the scheduled ids has one entry per task |
| Scheduling.DistinctSetSize | backend/app/services/scheduler_service.py:102-104 | a duplicate-free list has as many distinct entries as its length |
| Scheduling.SchedulerRegistry.Get | backend/app/services/scheduler_service.py:43-49 | the first call creates an empty scheduler; later calls return that same object |
| DataSources.KindOf | backend/app/services/data_sources/factory.py:13-17 | exactly "alphavantage", "tushare" and "akshare" are registered, each to its class |
| DataSources.ResolveName | backend/app/services/data_sources/factory.py:32-39 | a registered request is kept; a missing or unregistered one becomes the default |
| DataSources.ResolveIsStable | backend/app/services/data_sources/factory.py:32-39 | resolving an already resolved name changes nothing |
| DataSources.DataSourceFactory.GetDataSource | backend/app/services/data_sources/factory.py:22-52 | a KeyError iff the resolved name is unregistered; a cached instance is returned as is; otherwise a new instance of the right class is cached; the shipped default always succeeds |
| Responses.ApiResponse | backend/app/utils/response.py:5-29 | "success" is always present; "data" and "error" are present exactly when given |
| Responses.ReadResponse | backend/app/utils/response.py:21-29 | reads the flag back from any response that has one |
| Responses.ReadInvertsApiResponse | backend/app/utils/response.py:5-29 | reading a built response gives back exactly its flag, data and error |

## Left out

- Floating-point arithmetic: prices are exact reals, and rounding to two decimals and text formatting are not modelled.
- Infinities from a division by zero are treated like NaN: undefined, and false in every comparison.
- The sample standard deviation (`rolling().std()`) is a parameter of the model that is only known to be non-negative.
- Printing, logging, the network, the database and the OpenAI prompt text are not modelled.
- The data sources' own behaviour is not modelled: what they return for a symbol is a parameter.
- The `news_sentiment` dictionary that `_analyze_with_llm` fills with a default `policy_resonance` is not modelled, because the rule fallback reads the same defaults.
- The scaler and classifiers inside the model artifact are not modelled; the artifact is an oracle that may also fail.
- `TimeSeries.AnalyzeSeriesWithRule` assumes the history is already sorted by date; the `sort_values` call is not modelled.
- `_analyze_time_series_with_ml` and `_analyze_time_series_with_llm` are modelled only by their outcome: each raises `AttributeError` inside its `try` and returns the rule analysis.
- `RateLimitMiddleware.dispatch` and the periodic cleanup task are not modelled: the settings switch, the HTTP 429 response, and starting and stopping the loop.
- `asyncio` locks and concurrency are not modelled: each operation is atomic, so the scheduler never sees its table change during a pass.
- `RateLimiting.RateLimiter` keeps the window at sixty seconds as a constant.
- A task's function and arguments are not modelled: a run is given as its outcome.
- `Scheduling.SchedulerService.Start` sets the running flag itself. In the source the flag is set when the loop first runs, so two starts in a row can start two loops; that gap is not modelled.
- OneBarHistoryOnlyAnswersWithLanguageModel: its first two clauses are about the intended pass; the program as written returns `None` in both modes (its last two clauses, and "## Findings").
- The data-source classes (`data_sources/base.py` and the three adapters) are not modelled beyond the fact that none defines `get_sector_linkage` or `get_concept_distribution` (`Orchestrator.DefinesSectorLookups`).
- `Orchestrator.LanguageModelAnalysis` validates only the types of the reply's fields (pydantic's strict `str` and `List[str]`), not their content.

## Findings

| source | as written | input that shows it | evidently intended | confidence | as-written member | corrected member |
|---|---|---|---|---|---|---|
| backend/app/services/ai_service.py:752-754 | the trend call reads `technical_indicators.get('rsi', 50)`, but the indicator dictionary's key is `'RSI'`, so the lookup always falls back to 50 | any series whose RSI is 80: called bearish and weak | read the computed RSI: bullish when above 50, strong when more than 15 from 50 | not executed | TimeSeries.TrendAsWritten | TimeSeries.Trend |
| backend/app/services/ai_service.py:82-83 | `analyze_stock` awaits `ds.get_sector_linkage(symbol)` and `ds.get_concept_distribution(symbol)`, which no data-source class defines; the `AttributeError` is caught at lines 107-109 and the function returns `None` | any symbol whose history and stock info are found, in any mode: `None` after four fetches | fetch the sector linkage and concept distribution and analyse the stock in the requested mode | not executed | Orchestrator.StockAnalysisAsWritten | Orchestrator.StockAnalysis |
