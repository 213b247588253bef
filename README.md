# Closing-price bet screener — a verified model

The screener picks Korean stocks to buy at the closing auction and hold
overnight ("종가베팅", closing-price betting). Its signal engine has four steps:

- It lists the day's top gainers of KOSPI and KOSDAQ.
- It collects each stock's price bars, foreign and institutional net purchases, and news.
- It scores each stock on six rules: news, traded value, chart, candle,
  consolidation and supply. The total is 0–12.
- It turns the total into a grade, S, A, B or C.

Every stock graded S, A or B becomes a signal. A signal carries an entry at
the close, a stop and a target from the configured fractions, and a position
size worth one R of risk. R is half a percent of the capital, scaled by the
grade. Two more parts stand beside the engine:

- The supply-and-demand screener classifies each stock's accumulation stage
  and detects volatility contraction (VCP).
- The market gate scores KOSPI, KOSDAQ, the won/dollar rate and six of its ten sector ETFs.
  On that score it calls the market GREEN, YELLOW or RED.

A sentiment analyser rates a stock's news from 0 to 3. It asks a language
model, and falls back to a keyword count when no model answers.

The model has one Dafny module per source file:

| module | source |
|---|---|
| `EngineConfig` | `engine/config.py` |
| `EngineModels` | `engine/models.py` |
| `Scorer` | `engine/scorer.py` |
| `Sizer` | `engine/position_sizer.py` |
| `Collectors` | `engine/collectors.py` |
| `LlmAnalyzer` | `engine/llm_analyzer.py` |
| `Generator` | `engine/generator.py` |
| `Screener` | `screener.py` |
| `MarketGate` | `market_gate.py` |
| `Models` | the `Trade` record of `models.py` |
| `Config` | `config.py` |

`Wrappers`, `Series`, `Sorting` and `Json` are shared helpers. They model
Python's `None`, slicing, `int()`, `sum`, `mean`, `in`, a sort, and
dictionaries as JSON values.

The model takes the following forms:

- Prices and percentages are exact `real`s. Share counts and traded values are `int`s.
- Every fetch becomes a parameter carrying the data the provider would have
  returned. These are pykrx, FinanceDataReader, yfinance, the news site and
  the language model.
- Python exceptions that the source catches become `None` or a skipped item.
  An example is a float division by zero.
- Divisions of numpy integers become an extended real that can be infinite or
  not-a-number. These are the VCP ranges and the screener's change.
- The two classes whose fields the source updates are Dafny classes:
  `PositionSizer` (`set_capital`) and `SignalGenerator`.
- Loops are methods. Each is proved against a function that states its result.

## Model

| member | source | states |
|---|---|---|
| `EngineConfig.Tier` | engine/config.py:10-15 | grades are ordered S < A < B < C: S is tier 0, A 1, B 2 and C 3, each iff |
| `EngineConfig.GradeValue` | engine/config.py:10-15 | each grade serialises to one letter, "S", "A", "B" or "C", and the letter is that grade's iff |
| `EngineConfig.GradeValueInjective` | engine/config.py:10-15 | two grades serialise alike iff they are the same grade |
| `EngineConfig.DefaultGradeConfigs` | engine/config.py:61-90 | the table covers all four grades; a better tier demands at least as much score and traded value; multipliers are 1.5/1.0/0.5/0; only C has 0; minimum scores are 10/8/6/0 |
| `EngineConfig.DefaultScoreWeights` | engine/config.py:51-58 | six weights that sum to 12, the maximum composite score |
| `EngineConfig.DefaultNegativeKeywords` | engine/config.py:124-133 | the negative news keywords, as listed |
| `EngineConfig.DefaultSignalConfig` | engine/config.py:29-138 | the default filters: change 5–29.9 %, price 1,000–500,000, traded value ≥ 5e10; weights sum to 12; stop 3 % and target 5 %, both in (0, 1); R fraction 0.5 %; the grade table above |
| `EngineModels.AllStatuses` | engine/models.py:11-16 | the signal status has exactly four distinct members |
| `EngineModels.ScoreDetail.Total` | engine/models.py:97-98 | within the sub-scores' declared ranges the total lies in [0, 12] |
| `EngineModels.ScoreDetail.ToDict` | engine/models.py:100-103 | every field in declaration order, then `total` carrying `Total()` |
| `EngineModels.EmptyScore` | engine/models.py:86-98 | a fresh score is within its bounds and totals 0 |
| `EngineModels.ChecklistDetail.ToDict` | engine/models.py:107-117 | the six checklist keys in declaration order |
| `EngineModels.DefaultChecklist` | engine/models.py:107-117 | a fresh checklist has every flag false and no news sources |
| `EngineModels.Signal.ToDict` | engine/models.py:158-183 | the 22 keys in the source's order; the code, market, entry, stop, target and quantity carried over; the grade and status as their values; the score and checklist as their dictionaries; the news items as their list |
| `EngineModels.Signal.IdentityFields` | engine/models.py:161-170 | the first ten keys in order, with the grade, score, checklist and news values |
| `EngineModels.Signal.TradeFields` | engine/models.py:171-182 | the last twelve keys in order, with the prices, quantity and status |
| `EngineModels.NewsRefList` | engine/models.py:170 | one list item per news reference; item i is the `{title, source, url}` object of reference i |
| `EngineModels.NewSignal` | engine/models.py:121-156 | a new signal is PENDING and carries the given grade, score, news, code, market and quantity |
| `EngineModels.ScreenerResult.ToDict` | engine/models.py:187-206 | the seven keys in order; the signals list keeps each signal's dictionary at its index; `by_grade` and `by_market` are the two histograms' dictionaries |
| `EngineModels.HistogramDict` | engine/models.py:187-206 | one entry per histogram key, in insertion order, each carrying that key's count |
| `Scorer.SourcesOf` | engine/scorer.py:71 | each kept source is non-empty, every non-empty source is kept, and every kept string is some item's source |
| `Scorer.SourcesOfOne` | engine/scorer.py:71 | one item gives its source iff it is non-empty |
| `Scorer.SourcesOfAppend` | engine/scorer.py:71 | the sources keep the news order: those of a concatenation are those of each part, in turn |
| `Scorer.ItemDelta` | engine/scorer.py:84-97 | +1 iff some positive and no negative keyword occurs in title+summary; −1 iff the reverse; else 0 |
| `Scorer.KeywordNetBounded` | engine/scorer.py:82-97 | the keyword net score of n items lies in [−n, n] |
| `Scorer.KeywordScore` | engine/scorer.py:99-103 | a net of 0 becomes 1; any other net is clamped to [0, 3] |
| `Scorer.NewsScore` | engine/scorer.py:65-103 | a verdict gives min(3, its score); no verdict and no news gives (0, []); otherwise the keyword score; always in [0, 3] without a verdict or for a non-negative one |
| `Scorer.FirstHit` | engine/scorer.py:88-97 | the keyword loop with `break` finds a hit iff some keyword occurs |
| `Scorer.ScoreNews` | engine/scorer.py:65-103 | the accumulating loop computes `NewsScore` |
| `Scorer.ScoreVolume` | engine/scorer.py:105-113 | the number of the thresholds 1e11, 5e11 and 1e12 reached, in [0, 3] |
| `Scorer.ScoreVolumeMonotone` | engine/scorer.py:105-113 | more traded value never lowers the score |
| `Scorer.ScoreChart` | engine/scorer.py:115-152 | below 20 bars (0, false, false); otherwise the new-high flag iff the close is within 5 % of a positive 52-week high; the breakout flag iff the close exceeds every high of the last 20 bars; the score is min(2, the number of conditions met, aligned averages included) |
| `Scorer.AboveAllHighs` | engine/scorer.py:129-138 | a close above the highest high is above every high of the bars, and conversely |
| `Scorer.ChartCapHolds` | engine/scorer.py:148-152 | all three chart conditions together still score 2 |
| `Scorer.ScoreCandle` | engine/scorer.py:154-174 | 0 or 1; a 1 needs a rising candle; for a positive open, 1 iff the body is ≥ 3 % of the open and the upper wick ≤ 1.5 % of the close |
| `Scorer.ScoreConsolidation` | engine/scorer.py:176-204 | 0 below 20 bars; otherwise 1 iff the 19-bar base has a non-zero low, a range ≤ 15 % of it, and today closes above the base high; for a positive low that is the plain bound |
| `Scorer.ScoreSupply` | engine/scorer.py:206-228 | no data gives (0, false); one point each for positive 5-day foreign and institutional sums; the flag iff a point was scored or the stock is double-bought |
| `Scorer.Scores` | engine/scorer.py:16-63 | each sub-score and flag comes from its rule: news score and sources from `NewsScore`, volume from `ScoreVolume`, chart score with the new-high and breakout flags from `ScoreChart`, candle, consolidation, supply score and its flag from their rules; within bounds and totalling 0–12 whenever the verdict is non-negative; `has_news` iff there is news; `volume_surge` iff traded value ≥ 5e11; the verdict's reason is copied |
| `Scorer.Calculate` | engine/scorer.py:16-63 | the field-by-field fill computes `Scores` |
| `Scorer.DetermineGrade` | engine/scorer.py:230-248 | the grade's tier is met (score and traded value), and no better tier is met |
| `Scorer.GradeMonotoneInScore` | engine/scorer.py:230-248 | a higher total never gives a worse grade |
| `Scorer.GradeMonotoneInTradingValue` | engine/scorer.py:230-248 | more traded value never gives a worse grade |
| `Scorer.LowTradedValueDemotes` | engine/scorer.py:244-248 | under 1e11 traded value the grade is C whatever the score |
| `Sizer.ZeroPlan` | engine/position_sizer.py:56-64 | every entry of the C-grade plan is 0 |
| `Sizer.GradeMultiplier` | engine/position_sizer.py:47-52 | the grade's multiplier, or 1.0 for a grade missing from the table |
| `Sizer.PlanFor` | engine/position_sizer.py:21-93 | C gives the zero plan; otherwise R is the capital times the R fraction times the multiplier; a non-positive per-share risk gives R with zeros; else the quantity is the truncated R/risk, the value is quantity × entry and the percentage is of the capital (0 without capital) |
| `Sizer.SizedPlan` | engine/position_sizer.py:78-93 | the sized branch: for a non-negative R the quantity is the largest whole number of shares whose risk stays within R (q·risk ≤ R < (q+1)·risk); the value is quantity × entry and its percentage of the capital |
| `Sizer.QuantityWithinOneR` | engine/position_sizer.py:78-82 | for a non-negative R the quantity is the largest share count whose total risk does not exceed R |
| `Sizer.QuotientBounds` | engine/position_sizer.py:79 | `int()` of a non-negative quotient bounds the dividend between q and q+1 divisors |
| `Sizer.StopBelowEntry` | engine/position_sizer.py:95-97 | a stop fraction in (0, 1) puts the stop strictly between 0 and the entry |
| `Sizer.TargetAboveEntry` | engine/position_sizer.py:99-101 | a positive take-profit fraction puts the target above the entry |
| `Sizer.StopSizedPlan` | engine/position_sizer.py:21-101 | the plan sized at the configured stop risks at most one R |
| `Sizer.RiskReward` | engine/position_sizer.py:103-116 | 0 for a non-positive risk; otherwise reward over risk |
| `Sizer.DefaultBracket` | engine/position_sizer.py:95-101 | by default the stop is 0.97 and the target 1.05 of the entry, bracketing it |
| `Sizer.SizePosition` | engine/position_sizer.py:78-93 | computes `SizedPlan` |
| `Sizer.PositionSizer.constructor` | engine/position_sizer.py:12-15 | capital 100,000,000 and R fraction 0.005 |
| `Sizer.PositionSizer.SetCapital` | engine/position_sizer.py:17-19 | replaces the capital and nothing else |
| `Sizer.PositionSizer.CalculatePosition` | engine/position_sizer.py:21-93 | computes `PlanFor` on the sizer's current capital and R fraction |
| `Sizer.PositionSizer.CalculateStopLoss` | engine/position_sizer.py:95-97 | the entry lowered by the configured stop fraction |
| `Sizer.PositionSizer.CalculateTargetPrice` | engine/position_sizer.py:99-101 | the entry raised by the configured take-profit fraction |
| `Sizer.PositionSizer.CalculateRiskReward` | engine/position_sizer.py:103-116 | computes `RiskReward` |
| `Sizer.WorkedExample` | engine/position_sizer.py:21-93 | capital 1e8, entry 10,000, stop 9,700, grade A: R 500,000, 1,666 shares, 16,660,000, 16.66 % |
| `Sizer.FreshSizerExample` | engine/position_sizer.py:12-93 | a fresh default sizer produces that plan |
| `Collectors.ByChangeDesc` | engine/collectors.py:108 | a stock may come before another iff its change is at least as large |
| `Collectors.OrdersArePreorders` | engine/collectors.py:52-108 | both sort orders are total preorders |
| `Collectors.TopListing` | engine/collectors.py:52 | with a market cap column, the min(100, n) largest by cap, drawn from the listing; without it, the first 100 rows |
| `Collectors.FramePasses` | engine/collectors.py:71-89 | at least two bars, a non-zero previous close, and change, traded value and close within the configured bounds |
| `Collectors.Accept` | engine/collectors.py:54-105 | a row is kept iff its name has no excluded keyword and its price table exists and passes; a kept stock satisfies every bound and is the record `StockOf` builds from the row and that table |
| `Collectors.StockOf` | engine/collectors.py:74-102 | the record carries the row's code and name, the market, the last close, open/high/low falling back to the close without their column, the change against the previous close, the last volume (0 without the column) and the truncated close × volume |
| `Collectors.TruncKeepsLowerBound` | engine/collectors.py:81-101 | truncating the traded value keeps it above a whole-number minimum |
| `Collectors.Accepted` | engine/collectors.py:54-105 | the kept stocks: no more than the rows, each passing every bound in the given market |
| `Collectors.ScanListing` | engine/collectors.py:54-105 | the scan loop computes `Accepted`, which `AcceptedIsKept` characterises |
| `Collectors.AcceptedIsKept` | engine/collectors.py:54-94 | the scan keeps, in listing order, exactly what `Accept` keeps row by row; a record is in it iff some listing row is accepted as that record |
| `Collectors.RankByChange` | engine/collectors.py:108-114 | drawn from the kept stocks, sorted by change descending, as long as the first `top_n`, and above every stock left out |
| `Collectors.GetTopGainers` | engine/collectors.py:34-120 | the ranked top of the stocks accepted from the top listing; each passes every bound; at most `top_n` |
| `Collectors.SupplyOf` | engine/collectors.py:195-253 | `None` iff there is no table or it has no rows; otherwise 5- and 20-day sums of each column, the trailing positive streaks, and double-buy iff both 5-day sums are positive |
| `Collectors.GetSupplyData` | engine/collectors.py:195-253 | the sums and the two backward streak loops compute `SupplyOf` |
| `Collectors.DoubleBuyScoresFull` | engine/collectors.py:215-238 | positive 5-day sums of both columns make the snapshot double-bought, worth the full supply score 2 and the checklist mark |
| `Collectors.MajorSources` | engine/collectors.py:259-269 | nine sources, each weighted 0.8–0.9 |
| `Collectors.Relevance` | engine/collectors.py:325 | a major source's table weight, or 0.7 for any other source; always in [0.7, 0.9] |
| `Collectors.NewsUrl` | engine/collectors.py:331 | a link starting with "/" is prefixed with the finance site; any other is kept |
| `Collectors.ItemOf` | engine/collectors.py:313-333 | the item's title, empty summary, source, absolute url and relevance |
| `Collectors.CollectFrom` | engine/collectors.py:308-336 | the accumulated items extend the ones before, by at most one per row, and stop growing at the limit |
| `Collectors.AnchoredItem` | engine/collectors.py:309-327 | a row gives an item iff it has a title anchor, and that item is `ItemOf` its anchor and source |
| `Collectors.CollectFromTakesAnchored` | engine/collectors.py:308-336 | the parse appends the items of the anchored rows in row order, the first `max(limit − collected, 1)` of them: it stops at the first append that reaches the limit |
| `Collectors.DropSpaces` | engine/collectors.py:375 | the result does not start with whitespace and keeps every other character |
| `Collectors.CollapseSpaces` | engine/collectors.py:375 | every whitespace run becomes one space: no other whitespace and no two spaces in a row remain, and the non-whitespace characters are kept, in order |
| `Collectors.CollapseKeepsCollapsed` | engine/collectors.py:375 | already collapsed text is unchanged, so collapsing is idempotent |
| `Collectors.Summarize` | engine/collectors.py:373-376 | collapsed text of at most 200 characters is returned as is; longer text is its first 200 plus "..." |
| `Collectors.FetchSummary` | engine/collectors.py:349-381 | "" when the page fails or has an empty body; otherwise the body's summary; never more than 203 characters |
| `Collectors.WithSummaries` | engine/collectors.py:338-342 | each of items 0–2 that has a url gets its summary; every other item is unchanged |
| `Collectors.GetStockNews` | engine/collectors.py:286-347 | computes the news of the table; at most `limit` items, each with relevance 0.7–0.9 and a summary of at most 203 characters |
| `Collectors.NewsOf` | engine/collectors.py:286-347 | no page gives no news; otherwise the first `max(limit, 1)` items of the anchored rows among the first `2·limit` rows, with items 0–2 summarised |
| `Collectors.ParseNewsRows` | engine/collectors.py:306-336 | the parse loop computes `CollectFrom`, which `CollectFromTakesAnchored` characterises; each item has relevance 0.7–0.9, no date and an empty summary |
| `Collectors.FillSummaries` | engine/collectors.py:338-342 | the summary loop computes `WithSummaries` |
| `LlmAnalyzer.Join` | engine/llm_analyzer.py:67-70 | joining nothing gives ""; joining one part gives that part |
| `LlmAnalyzer.NewsText` | engine/llm_analyzer.py:67-70 | no news gives an empty list text |
| `LlmAnalyzer.Prompt` | engine/llm_analyzer.py:72-77 | the prompt starts with the stock name line |
| `LlmAnalyzer.CloseAfter` | engine/llm_analyzer.py:111 | the first `}` after a position, or the end |
| `LlmAnalyzer.SearchFrom` | engine/llm_analyzer.py:111 | the leftmost `{[^}]+}` match from a position, or none at all |
| `LlmAnalyzer.ObjectAtUsesFirstClose` | engine/llm_analyzer.py:111 | a match ends at the first `}` after its opening brace |
| `LlmAnalyzer.FirstObject` | engine/llm_analyzer.py:111-113 | some text iff the answer holds a `{...}` object, starting with `{` and ending with `}` |
| `LlmAnalyzer.ParseResponse` | engine/llm_analyzer.py:107-122 | score in [0, 3] and reason ≤ 100 characters; no object, an object the decoder rejects or a non-numeric score gives the "unclear" verdict; a decoded object gives its clamped, truncated score and reason |
| `LlmAnalyzer.FirstKeyword` | engine/llm_analyzer.py:143-153 | `None` iff no keyword occurs; otherwise the first keyword, in list order, that occurs |
| `LlmAnalyzer.FindKeyword` | engine/llm_analyzer.py:143-153 | the loop with `break` computes `FirstKeyword` |
| `LlmAnalyzer.TitleDelta` | engine/llm_analyzer.py:139-153 | a title moves the score by −1, 0 or +1; +1 needs a positive keyword, −1 a negative one |
| `LlmAnalyzer.FallbackHits` | engine/llm_analyzer.py:143-147 | at most one recorded keyword per title, each a positive keyword |
| `LlmAnalyzer.NetAtMostHits` | engine/llm_analyzer.py:139-153 | the running score is at least −n and at most the number of keywords recorded |
| `LlmAnalyzer.Fallback` | engine/llm_analyzer.py:124-158 | on the first five titles: the net score clamped to [0, 3]; the first three keywords found joined by ", ", or "뉴스 분석" when none |
| `LlmAnalyzer.PositiveFallbackHasReason` | engine/llm_analyzer.py:155-156 | a positive fallback score always names a keyword |
| `LlmAnalyzer.FallbackAnalyze` | engine/llm_analyzer.py:124-158 | computes `Fallback` |
| `LlmAnalyzer.ScanTitles` | engine/llm_analyzer.py:139-153 | the title loop computes the net score and the keywords found |
| `LlmAnalyzer.Analysis` | engine/llm_analyzer.py:45-92 | no news gives 0 and "뉴스 없음"; no client or a failed call gives the fallback; a reply is parsed; always 0–3 |
| `LlmAnalyzer.AnalyzeNews` | engine/llm_analyzer.py:45-92 | computes `Analysis` |
| `LlmAnalyzer.Normalize` | engine/llm_analyzer.py:176-179 | every raised task becomes 0 with "오류"; the others are kept, in order |
| `LlmAnalyzer.BatchAnalyze` | engine/llm_analyzer.py:160-179 | one analysis per item, in order, each `Analysis` of that item and each scored 0–3 |
| `Generator.Bump` | engine/generator.py:187-188 | a bump adds at most one key |
| `Generator.BumpFacts` | engine/generator.py:187-188 | a bump adds one to the total and to the bumped key only |
| `Generator.HistogramCounts` | engine/generator.py:185-188 | the histogram counts each key as often as it occurs, and its counts sum to the list's length |
| `Generator.GradeRank` | engine/generator.py:191-194 | S ranks 0, A ranks 1, every other grade 2 |
| `Generator.ByRankIsPreorder` | engine/generator.py:191-194 | the (grade rank, −total) order is a total preorder |
| `Generator.NewsRefs` | engine/generator.py:147-150 | the first three news items' title, source and url |
| `Generator.SignalFor` | engine/generator.py:115-161 | `None` iff the grade is C; otherwise a PENDING signal whose grade is `DetermineGrade` of the score, with the stock's code, name, market, sector, traded value and change, the score and checklist of `Scores`, the first three news references, the close as current and entry price, the configured stop and target, the sizer's plan, and the given date and times |
| `Generator.Accumulated` | engine/generator.py:88-171 | no more signals than candidates, none graded C, all PENDING, each with at most three news references |
| `Generator.RaisedCandidateIsSkipped` | engine/generator.py:166-168 | a candidate that raises adds nothing, and the later candidates are still processed |
| `Generator.AccumulatedIsKept` | engine/generator.py:88-171 | the accumulated signals are exactly the candidates' signal outcomes, in candidate order |
| `Generator.AccumulatedSplit` | engine/generator.py:88-171 | the signals of a concatenation are the concatenated signals |
| `Generator.EmptyResult` | engine/generator.py:75-83 | no candidates give a result with no signals and zero counts |
| `Generator.SignalGenerator.constructor` | engine/generator.py:31-35 | keeps the configuration and builds a fresh sizer with its defaults |
| `Generator.SignalGenerator.Run` | engine/generator.py:37-225 | sets the capital; counts all candidates; the signals are a permutation of the accumulated ones, sorted by (grade rank, −total); the grade and market counts are their histograms and each sums to the signal count |
| `Generator.SignalGenerator.CollectSignals` | engine/generator.py:88-171 | the loop computes `Accumulated` |
| `Generator.SignalGenerator.ProcessCandidate` | engine/generator.py:92-168 | one candidate's outcome: a raise or grade C gives nothing, else its signal |
| `Generator.SignalGenerator.CountSignals` | engine/generator.py:185-188 | the counting loop computes both histograms |
| `Screener.ForeignPoints` | screener.py:219-229 | +15 above strong-buy, +10 above buy, +5 above 0, checked in that order; with no buy band reached −15 below strong-sell, −10 below sell, else 0; in [−15, 15], positive iff a buy band is reached |
| `Screener.InstPoints` | screener.py:231-237 | +10 above strong-buy, +5 above buy, −10 below strong-sell when no buy band is reached, else 0; positive iff above a buy threshold |
| `Screener.StreakBonus` | screener.py:239-241 | two points per foreign day and one per institutional day, each streak capped at 5 |
| `Screener.DoubleBuyBonus` | screener.py:243-245 | 10 iff both 5-day sums are positive, else 0 |
| `Screener.SupplyScoreOf` | screener.py:207-247 | the score lies in [0, 100] and equals the raw sum when that is already in range |
| `Screener.CalculateSupplyScore` | screener.py:207-247 | the rule-by-rule updates compute `SupplyScoreOf` |
| `Screener.StrongDoubleBuyScoresTop` | screener.py:207-247 | strong double buying with five-day streaks reaches exactly 100 |
| `Screener.SupplyScoreMonotoneInStreaks` | screener.py:239-247 | longer streaks never lower the score |
| `Screener.DetermineStage` | screener.py:249-264 | strong accumulation iff foreign > strong-buy and institutions positive; otherwise accumulation iff foreign > buy, weak accumulation iff 0 < foreign ≤ buy; with sign-separated thresholds: strong distribution iff foreign < strong-sell, distribution iff strong-sell ≤ foreign < sell, weak distribution iff sell ≤ foreign < 0 (and not below strong-sell), neutral iff foreign is 0 |
| `Screener.PctOf` | screener.py:162 | finite for a non-zero divisor; otherwise +inf, −inf or NaN by the dividend's sign |
| `Screener.GtIrreflexive` | screener.py:288 | `>` is irreflexive on the extended reals |
| `Screener.MaxHigh` | screener.py:280 | the highest high of a segment |
| `Screener.MinLow` | screener.py:281 | the lowest low of a segment |
| `Screener.Segment` | screener.py:273-279 | each of the three segments has 20 rows |
| `Screener.CheckVcpPattern` | screener.py:266-291 | true iff there are at least 60 rows and the three ranges strictly shrink |
| `Screener.CollectRanges` | screener.py:272-284 | three ranges, the k-th that of the k-th 20-row segment of the last 60 rows |
| `Screener.VcpWithPositiveLows` | screener.py:266-291 | with positive lows, VCP is plain strict contraction of the three real ranges |
| `Screener.ScreenRowOf` | screener.py:141-189 | the row's ticker, name and market; the last close, volume and traded value; the change against the previous close; the 5- and 20-day sums and streak of each column; the supply score is `SupplyScoreOf` of those figures (in [0, 100]), the stage `DetermineStage` of the 5-day sums, the VCP flag `IsVcp` of the table; double-buy iff both 5-day sums are positive |
| `Screener.AnalyzeStock` | screener.py:109-192 | a row iff the name has no excluded keyword, at least 20 rows exist and the supply table is not empty; that row is `ScreenRowOf` |
| `Screener.Qualified` | screener.py:298-302 | exactly the rows with supply score ≥ 70 and an accumulation stage, drawn from the input |
| `Screener.QualifiedAppend` | screener.py:298-302 | the filter keeps order: the qualified rows of a concatenation are those of each part, in turn |
| `Screener.GenerateSignals` | screener.py:293-330 | one signal per row of the first `top_n` qualified rows, in order, each with score ≥ 70 and an accumulation stage |
| `Series.CountConsecutiveBuys` | screener.py:194-205 | computes the trailing positive streak, 0 without the column |
| `Series.Consecutive` | screener.py:194-205 | 0 for a missing column; otherwise the length of the all-positive suffix, bounded by a non-positive value |
| `Series.TrailingPositivesUnique` | screener.py:194-205 | the streak is the only length with those two defining facts |
| `Series.Trunc` | engine/position_sizer.py:79 | `int()` truncates toward zero |
| `Series.Head` | engine/collectors.py:308 | `s[:n]`: the first min(n, len) items, or len + n for a negative n |
| `Sorting.InsertSorted` | engine/generator.py:191-194 | inserting into a sorted list keeps it sorted and adds exactly the item |
| `Sorting.SortBy` | engine/generator.py:191-194 | the result is sorted and a permutation of the input |
| `Sorting.PrefixIsTopOf` | engine/collectors.py:108-114 | a sorted permutation's first k items come before every item left out |
| `MarketGate.AlignmentOf` | market_gate.py:155-161 | bullish iff close > ma5 > ma20 > ma60; bearish iff the reverse; mixed otherwise |
| `MarketGate.Ma60` | market_gate.py:153 | the 60-bar mean, or the mean of all closes when there are fewer |
| `MarketGate.AnalyzeIndex` | market_gate.py:130-184 | `None` for an unknown index, no data or a zero previous close, and `Some` otherwise; the name, close, change, change percentage, 5/20/60 means, alignment and an RSI that defaults to 50 |
| `MarketGate.UsdKrw` | market_gate.py:186-206 | no data or a zero previous close gives 1350 and 0 %; otherwise the last close |
| `MarketGate.SectorEtfs` | market_gate.py:23-34 | the ten sector ETFs in table order |
| `MarketGate.SectorScore` | market_gate.py:230-231 | 50 plus the percentage above the 20-bar mean, saturating at 0 below and at 100 above |
| `MarketGate.SectorScoreMidpoint` | market_gate.py:230-231 | for a positive mean, above 50 iff the close is above it, and 50 iff equal |
| `MarketGate.AnalyzeSector` | market_gate.py:213-243 | no data, a zero previous close or a zero mean skip the sector, and it is kept otherwise; a kept sector carries its name, ticker, close, change percentage, distance from the mean and score |
| `MarketGate.ScannedSector` | market_gate.py:213-218 | an ETF without data is skipped, any other is analysed |
| `MarketGate.CollectSectors` | market_gate.py:212-243 | at most one sector per ETF, each scored 0–100 |
| `MarketGate.CollectSectorsIsKept` | market_gate.py:212-243 | the scan keeps, in ETF order, exactly the sectors `ScannedSector` yields; a sector is in it iff some ETF yields it |
| `MarketGate.ByScoreDescIsPreorder` | market_gate.py:246 | the descending score order is a total preorder |
| `MarketGate.CollectSectorData` | market_gate.py:212-243 | the fetch-and-score loop computes `CollectSectors` |
| `MarketGate.AnalyzeSectors` | market_gate.py:208-248 | the first six ETFs' sectors, permuted into descending score order; at most six, each scored 0–100 |
| `MarketGate.KospiPoints` | market_gate.py:262-281 | no data gives 0; otherwise the sum of the alignment, RSI and daily-change points, in [−25, 20] |
| `MarketGate.AlignPoints` | market_gate.py:263-268 | bullish +10, bearish −15, mixed 0 |
| `MarketGate.RsiPoints` | market_gate.py:270-276 | above 70 −5, below 30 +5, otherwise 0 |
| `MarketGate.ChangePoints` | market_gate.py:278-281 | above 1 % +5, below −1 % −5, otherwise 0 |
| `MarketGate.AlignReasons` | market_gate.py:263-268 | the bullish or bearish reason, none when mixed |
| `MarketGate.RsiReasons` | market_gate.py:270-276 | the overbought or oversold reason, none in [30, 70] |
| `MarketGate.KospiReasons` | market_gate.py:262-281 | exactly the alignment reason followed by the RSI reason, each when it fired; none for the daily change |
| `MarketGate.KosdaqPoints` | market_gate.py:284-288 | +5 bullish, −10 bearish, 0 mixed or missing |
| `MarketGate.FxPoints` | market_gate.py:291-301 | −15 iff above 1450, −10 iff in (1400, 1450], +5 iff below 1300, and 0 in [1300, 1400] |
| `MarketGate.FxReasons` | market_gate.py:291-301 | exactly [danger], [warning] or [stable] in those ranges, and no reason in [1300, 1400] |
| `MarketGate.StrongWeakDisjoint` | market_gate.py:304-313 | strong and weak sectors together never exceed the list |
| `MarketGate.SectorPoints` | market_gate.py:304-313 | +10 iff at least four strong sectors; −10 iff fewer strong and at least four weak; else 0 |
| `MarketGate.SectorReasons` | market_gate.py:304-313 | the strong or weak reason with its count, in exactly those cases, and no reason when neither count reaches four |
| `MarketGate.StrongNames` | market_gate.py:331 | one name per sector scoring above 60; a name is listed iff some sector of that name scores above 60 |
| `MarketGate.StrongNamesAppend` | market_gate.py:331 | the strong names keep list order: those of a concatenation are those of each part, in turn |
| `MarketGate.WeakNames` | market_gate.py:332 | one name per sector scoring below 40; a name is listed iff some sector of that name scores below 40 |
| `MarketGate.WeakNamesAppend` | market_gate.py:332 | the weak names keep list order: those of a concatenation are those of each part, in turn |
| `MarketGate.GateOf` | market_gate.py:319-324 | GREEN iff ≥ 70, YELLOW iff in [40, 70), RED iff < 40 |
| `MarketGate.DetermineGate` | market_gate.py:250-335 | the score is the clamped sum of every rule's points onto 50; the gate follows the score; the reasons in KOSPI, FX, sector order; the alignments and rate; at most three strong and three weak names |
| `MarketGate.ApplyKospi` | market_gate.py:262-281 | adds the KOSPI points and reasons |
| `MarketGate.ApplyKosdaq` | market_gate.py:284-288 | adds the KOSDAQ points |
| `MarketGate.ApplyFx` | market_gate.py:291-301 | adds the exchange-rate points and reasons |
| `MarketGate.ApplySectors` | market_gate.py:304-313 | adds the sector points and reasons |
| `MarketGate.BearishWithWeakWonIsRed` | market_gate.py:250-335 | both indices bearish and the won above 1450 give RED whatever else holds |
| `MarketGate.NoDataIsYellow` | market_gate.py:250-335 | without any input the score stays 50: YELLOW |
| `Models.Trade.ReturnPct` | models.py:157-162 | 0 while open; for a closed trade, `None` iff the entry is 0, else the return satisfies return × entry = move × 100 |
| `Models.Trade.Pnl` | models.py:163-169 | 0 while open |
| `Models.Trade.RMultiple` | models.py:170-180 | 0 while open, without a stop, or with a stop not below the entry; otherwise R × risk = move |
| `Models.Trade.IsWinner` | models.py:181-184 | `None` iff the return raises; otherwise whether the return is positive |
| `Models.Trade.HoldingDays` | models.py:185-189 | 0 while open; `None` iff a closed trade lacks an exit time; otherwise the floored day count |
| `Models.Trade.ToDict` | models.py:191-198 | `None` iff a derived value raises; otherwise 22 entries: the sixteen record fields, then the six derived values |
| `Models.Trade.RecordFields` | models.py:192 | the sixteen record keys in declaration order, with the name, entry, exit, quantity and stop values |
| `Models.Trade.DerivedFields` | models.py:193-198 | the six derived keys in order, each carrying its value: closed flag, return, pnl, R multiple, winner flag and holding days |
| `Models.OpenTradeIsFlat` | models.py:153-189 | an open trade has no return, profit, R or holding time, and is not a winner |
| `Models.WinnerIffExitAboveEntry` | models.py:181-184 | for a positive entry, a winner iff it exits above the entry |
| `Models.WinnerIffProfit` | models.py:163-184 | for a positive entry and quantity, a winner iff the profit is positive |
| `Models.StoppedOutIsMinusOneR` | models.py:170-180 | exiting at the stop is −1 R |
| `Config.DefaultThresholds` | config.py:26-44 | the default thresholds are ordered and sign-separated, with the listed values |
| `Config.DefaultMarketGateConfig` | config.py:48-60 | the exchange-rate levels 1350 < 1400 < 1450 and a short mean below the long one |
| `Config.DefaultBacktestConfig` | config.py:64-98 | bullish and neutral allowed; commission 0.015 %, slippage 0.1 %, tax 0.23 %; stop below target |
| `Config.TotalCostPct` | config.py:100-102 | commission on both legs plus slippage and tax; non-negative for non-negative parts |
| `Config.DefaultTotalCost` | config.py:100-139 | the default, conservative and aggressive round trips cost 0.36 % |
| `Config.ShouldTradeInRegime` | config.py:104-106 | true iff the regime is on the allow-list |
| `Config.DefaultRegimes` | config.py:104-106 | the default allow-list admits every regime but bearish |
| `Config.Conservative` | config.py:109-123 | stop 3 %, target 10 %, double-buy entry, minimum score 70, five positions, the other defaults kept |
| `Config.Aggressive` | config.py:126-139 | stop 7 %, target 25 %, foreign-buy entry, minimum score 50, fifteen positions, the other defaults kept |

## Left out

- Floating point is modelled as exact reals, and no `round(…, n)` call is
  modelled. Most of them only shape displayed values. The sizer's
  `position_pct` is unrounded; the worked example is exact.
- `MarketGate.AnalyzeIndex`, `MarketGate.UsdKrw`, `MarketGate.AnalyzeSector` and
  `Collectors.GetTopGainers`: five roundings feed later decisions, and the
  model decides on the unrounded value. They are:
  - the index `change_pct` (market_gate.py:174), read by the ±1 % rule;
  - the RSI (market_gate.py:179), read by the 70/30 rules;
  - the won/dollar `rate` (market_gate.py:201), read by the 1450/1400/1300 rules;
  - the sector `score` (market_gate.py:239), read by the >60/<40 counts and the sort;
  - a gainer's `change_pct` (engine/collectors.py:99), read by the sort at :108
    and the `top_n` cut at :114.

  Near a threshold or a tie the two can differ. A rate of 1450.004 rounds to
  1450.00 and scores −10 in the source but −15 in the model. A raw sector
  score of 60.04 rounds to 60.0 and is not strong in the source, but is strong
  in the model. Gainers at 5.001 % and 5.004 % with `top_n` 1 tie at 5.0 in
  the source, which keeps the first listed; the model keeps the second.
- `Collectors.StockOf`: the record keeps the unrounded change, where the
  source stores `round(change_pct, 2)` (engine/collectors.py:99); the
  previous bullet says where this matters.
- Network and file access are parameters: the listing, the price tables, the
  net-purchase tables, the news pages and article bodies, the yfinance
  series and the language model's reply. HTML parsing and JSON decoding are
  abstracted: `decode` stands for `json.loads` plus `int()` and `str()`, and
  a news row is already split into its anchor and source.
- The RSI of `_analyze_index` (a 14-bar rolling mean of gains over losses) is
  an input. Its NaN case is `None`, which reads as 50.
- asyncio, `sleep`, timeouts and `time.time()` are left out. The elapsed time,
  today's date and the timestamp are parameters.
- Sort stability and the tie order of `nlargest` are not modelled. Results are
  stated as sorted permutations, and the top listing as a top-k by cap.
- `get_stock_detail`, `get_chart_data`, `run_screener`'s writes of the JSON
  files, `SmartMoneyScreener.run_screening`, `MarketGate.analyze`, the
  printing and the saving in `generate_signals` are not modelled. They
  assemble fetched data or do I/O around the modelled operations.
- `ScreenerConfig` and the `models.py` records other than `Trade` are not
  modelled. These are `BacktestResult`, `MarketStatus`, `StockInfo`,
  `InstitutionalFlow`, `TrendAnalysis` and `Signal`. That module is not part
  of this model apart from `Trade`.
- The outer `except` of `run` (a collector failing to open) and of
  `get_top_gainers` are not modelled. The per-candidate `except` is.
- `Collectors.WithSummaries`: summaries are written into new item values, not
  by mutating the shared `NewsItem` objects.
- `Screener.AnalyzeStock`: an empty net-purchase DataFrame is modelled as one
  with zero rows.
- `Generator.SignalFor`: `r_multiplier` is read with `get` from a plan
  dictionary that has no such key, so it is always 1.0. The model does the
  same.
- `MarketGate.FxPoints`: the stable threshold is the literal 1300 of
  `_determine_gate`. `MarketGateConfig.usd_krw_safe` is 1350 and is not read
  there.
- `LlmAnalyzer.TitleDelta`: its own contract states only the sign
  implications. The exact count is `FallbackNet`, which `ScanTitles` is
  proved against.
