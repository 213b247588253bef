/**
 * The 12-point closing-price-bet scorer (engine/scorer.py): six bounded
 * sub-scores over the candidate, its daily bars, its news, its supply
 * snapshot and an optional sentiment verdict, and the conjunctive grade rule.
 */
module Scorer {

  import opened Wrappers
  import opened Series
  import opened EngineConfig
  import opened EngineModels

  // ---------------------------------------------------------------- news (0-3)

  /** `[n.source for n in news_list if n.source]`. */
  function SourcesOf(news: seq<NewsItem>): (r: seq<string>)
    ensures |r| <= |news|
    ensures forall i :: 0 <= i < |r| ==> r[i] != ""
    ensures forall i :: 0 <= i < |news| && news[i].source != "" ==> news[i].source in r
    ensures forall x :: x in r ==> exists i :: 0 <= i < |news| && news[i].source == x
  {
    if news == [] then []
    else
      var rest := SourcesOf(news[1..]);
      assert forall i :: 1 <= i < |news| ==> news[i] == news[1..][i - 1];
      (if news[0].source != "" then [news[0].source] else []) + rest
  }

  /** One item contributes its source exactly when the source is not empty. */
  lemma SourcesOfOne(n: NewsItem)
    ensures SourcesOf([n]) == (if n.source != "" then [n.source] else [])
  {
    assert [n][1..] == [];
  }

  /** The sources keep the news order: those of a concatenation are those of each part, in turn. */
  lemma {:induction false} SourcesOfAppend(a: seq<NewsItem>, b: seq<NewsItem>)
    ensures SourcesOf(a + b) == SourcesOf(a) + SourcesOf(b)
  {
    if a == [] {
      assert a + b == b;
    } else {
      assert (a + b)[0] == a[0];
      assert (a + b)[1..] == a[1..] + b;
      SourcesOfAppend(a[1..], b);
    }
  }

  /** The text searched for keywords: title followed by summary. */
  function NewsText(n: NewsItem): string {
    n.title + n.summary
  }

  /**
   * What one news item adds: +1 if any positive keyword occurs (counted once),
   * -1 if any negative keyword occurs (counted once).
   */
  function ItemDelta(cfg: SignalConfig, n: NewsItem): (d: int)
    ensures -1 <= d <= 1
    ensures d == 1 <==> AnyIn(cfg.positiveKeywords, NewsText(n)) && !AnyIn(cfg.negativeKeywords, NewsText(n))
    ensures d == -1 <==> !AnyIn(cfg.positiveKeywords, NewsText(n)) && AnyIn(cfg.negativeKeywords, NewsText(n))
  {
    (if AnyIn(cfg.positiveKeywords, NewsText(n)) then 1 else 0) -
    (if AnyIn(cfg.negativeKeywords, NewsText(n)) then 1 else 0)
  }

  /** The net keyword score of a news list, before the floor and the clamp. */
  function KeywordNet(cfg: SignalConfig, news: seq<NewsItem>): int {
    if news == [] then 0 else KeywordNet(cfg, news[..|news| - 1]) + ItemDelta(cfg, news[|news| - 1])
  }

  /** Each item moves the net score by at most one in either direction. */
  lemma {:induction false} KeywordNetBounded(cfg: SignalConfig, news: seq<NewsItem>)
    ensures -|news| <= KeywordNet(cfg, news) <= |news|
  {
    if news != [] {
      KeywordNetBounded(cfg, news[..|news| - 1]);
    }
  }

  /** The keyword path of `_score_news` for a non-empty list: a net of 0 becomes 1, then clamp to [0, 3]. */
  function KeywordScore(net: int): (r: int)
    ensures 0 <= r <= 3
    ensures net == 0 ==> r == 1
    ensures net != 0 ==> r == ClampInt(net, 0, 3)
  {
    ClampInt(if net == 0 then 1 else net, 0, 3)
  }

  /**
   * `_score_news`: a sentiment verdict, when given, decides the score as
   * `min(3, score)`; otherwise no news gives 0 and a non-empty list gives the
   * floored, clamped keyword score.
   */
  function NewsScore(cfg: SignalConfig, news: seq<NewsItem>, llm: Option<NewsVerdict>): (r: (int, seq<string>))
    ensures llm.Some? ==> r == (Min(3, llm.value.score), SourcesOf(news))
    ensures llm.None? && news == [] ==> r == (0, [])
    ensures llm.None? && news != [] ==> r == (KeywordScore(KeywordNet(cfg, news)), SourcesOf(news))
    ensures llm.None? ==> 0 <= r.0 <= 3
    ensures llm.Some? && llm.value.score >= 0 ==> 0 <= r.0 <= 3
  {
    if llm.Some? then (Min(3, llm.value.score), SourcesOf(news))
    else if news == [] then (0, [])
    else (KeywordScore(KeywordNet(cfg, news)), SourcesOf(news))
  }

  /** `for kw in keywords: if kw in text: ...; break`: whether some keyword occurs. */
  method FirstHit(kws: seq<string>, text: string) returns (hit: bool)
    ensures hit == AnyIn(kws, text)
  {
    hit := false;
    var k := 0;
    while k < |kws|
      invariant 0 <= k <= |kws|
      invariant forall j :: 0 <= j < k ==> !Contains(text, kws[j])
    {
      if Contains(text, kws[k]) {
        hit := true;
        break;
      }
      k := k + 1;
    }
  }

  /** The accumulating loop of `_score_news`. */
  method ScoreNews(cfg: SignalConfig, news: seq<NewsItem>, llm: Option<NewsVerdict>) returns (score: int, sources: seq<string>)
    ensures (score, sources) == NewsScore(cfg, news, llm)
  {
    sources := SourcesOf(news);
    if llm.Some? {
      return Min(3, llm.value.score), sources;
    }
    if news == [] {
      return 0, [];
    }
    score := 0;
    var i := 0;
    while i < |news|
      invariant 0 <= i <= |news|
      invariant score == KeywordNet(cfg, news[..i])
    {
      var text := news[i].title + news[i].summary;
      var pos := FirstHit(cfg.positiveKeywords, text);
      if pos {
        score := score + 1;
      }
      var neg := FirstHit(cfg.negativeKeywords, text);
      if neg {
        score := score - 1;
      }
      assert news[..i + 1][..i] == news[..i];
      i := i + 1;
    }
    assert news[..|news|] == news;
    if score == 0 {
      score := 1;
    }
    score := Max(0, Min(3, score));
  }

  // ------------------------------------------------------- traded value (0-3)

  /**
   * `_score_volume`: the number of the thresholds 1e11, 5e11 and 1e12 that
   * the traded value reaches.
   */
  function ScoreVolume(tradingValue: int): (r: int)
    ensures 0 <= r <= 3
    ensures r == (if tradingValue >= 100_000_000_000 then 1 else 0)
               + (if tradingValue >= 500_000_000_000 then 1 else 0)
               + (if tradingValue >= 1_000_000_000_000 then 1 else 0)
  {
    if tradingValue >= 1_000_000_000_000 then 3
    else if tradingValue >= 500_000_000_000 then 2
    else if tradingValue >= 100_000_000_000 then 1
    else 0
  }

  /** More traded value never lowers the traded-value score. */
  lemma ScoreVolumeMonotone(v1: int, v2: int)
    requires v1 <= v2
    ensures ScoreVolume(v1) <= ScoreVolume(v2)
  {
  }

  // ------------------------------------------------------ chart pattern (0-2)

  function Highs(bars: seq<ChartData>): (r: seq<real>)
    ensures |r| == |bars| && forall i :: 0 <= i < |bars| ==> r[i] == bars[i].high
  {
    seq(|bars|, i requires 0 <= i < |bars| => bars[i].high)
  }

  function Lows(bars: seq<ChartData>): (r: seq<real>)
    ensures |r| == |bars| && forall i :: 0 <= i < |bars| ==> r[i] == bars[i].low
  {
    seq(|bars|, i requires 0 <= i < |bars| => bars[i].low)
  }

  function Closes(bars: seq<ChartData>): (r: seq<real>)
    ensures |r| == |bars| && forall i :: 0 <= i < |bars| ==> r[i] == bars[i].close
  {
    seq(|bars|, i requires 0 <= i < |bars| => bars[i].close)
  }

  /** `close > max(highs)`: the close is above every high of the bars. */
  function AboveAllHighs(close: real, bars: seq<ChartData>): (b: bool)
    requires |bars| > 0
    ensures b <==> forall k :: 0 <= k < |bars| ==> bars[k].high < close
  {
    close > MaxOf(Highs(bars))
  }

  /** Close within 5% of a positive 52-week high. */
  predicate NearHigh52w(stock: StockData) {
    stock.high52w > 0.0 && stock.close >= stock.high52w * 0.95
  }

  /** With at least 60 bars, the 5-, 20- and 60-bar means of the closes are strictly ordered. */
  predicate MovingAveragesAligned(charts: seq<ChartData>) {
    |charts| >= 60 &&
    var closes := Closes(charts);
    SumReal(Tail(closes, 5)) / 5.0 > SumReal(Tail(closes, 20)) / 20.0 > SumReal(Tail(closes, 60)) / 60.0
  }

  function Indicator(b: bool): int {
    if b then 1 else 0
  }

  /**
   * `_score_chart`: fewer than 20 bars give (0, false, false); otherwise one
   * point each for a close near the 52-week high, a close above every high of
   * the last 20 bars, and aligned moving averages, capped at 2.
   */
  function ScoreChart(stock: StockData, charts: seq<ChartData>): (r: (int, bool, bool))
    ensures |charts| < 20 ==> r == (0, false, false)
    ensures 0 <= r.0 <= 2
    ensures |charts| >= 20 ==> (r.1 <==> NearHigh52w(stock))
    ensures |charts| >= 20 ==>
              (r.2 <==> forall k :: |charts| - 20 <= k < |charts| ==> charts[k].high < stock.close)
    ensures |charts| >= 20 ==>
              r.0 == Min(2, Indicator(r.1) + Indicator(r.2) + Indicator(MovingAveragesAligned(charts)))
  {
    if |charts| < 20 then (0, false, false)
    else
      var last20 := charts[|charts| - 20..];
      assert forall k :: |charts| - 20 <= k < |charts| ==> charts[k] == last20[k - (|charts| - 20)];
      var isNewHigh := NearHigh52w(stock);
      var isBreakout := AboveAllHighs(stock.close, last20);
      var score := Indicator(isNewHigh) + Indicator(isBreakout) + Indicator(MovingAveragesAligned(charts));
      (Min(2, score), isNewHigh, isBreakout)
  }

  /** All three chart conditions together still give 2: the cap is not raised. */
  lemma ChartCapHolds(stock: StockData, charts: seq<ChartData>)
    requires |charts| >= 60
    requires NearHigh52w(stock) && MovingAveragesAligned(charts)
    requires forall k :: |charts| - 20 <= k < |charts| ==> charts[k].high < stock.close
    ensures ScoreChart(stock, charts).0 == 2
  {
  }

  // ------------------------------------------------------- candle shape (0-1)

  /**
   * `_score_candle`: 1 for a rising candle whose body is at least 3% of the
   * open and whose upper wick is at most 1.5% of the close. For positive
   * prices that is the plain condition on body and wick.
   */
  function ScoreCandle(stock: StockData): (r: int)
    ensures r == 0 || r == 1
    ensures r == 1 ==> stock.close > stock.open && stock.open != 0.0
    ensures stock.open > 0.0 ==>
              (r == 1 <==> stock.close > stock.open &&
                           stock.close - stock.open >= 0.03 * stock.open &&
                           stock.high - stock.close <= 0.015 * stock.close)
  {
    if stock.close == 0.0 || stock.open == 0.0 then 0
    else
      var body := stock.close - stock.open;
      if body <= 0.0 then 0
      else
        var bodyPct := (body / stock.open) * 100.0;
        var upperWick := stock.high - stock.close;
        var upperWickPct := if stock.close > 0.0 then (upperWick / stock.close) * 100.0 else 0.0;
        CandleFacts(stock.open, stock.close, body, upperWick);
        if bodyPct >= 3.0 && upperWickPct <= 1.5 then 1 else 0
  }

  lemma CandleFacts(open: real, close: real, body: real, wick: real)
    requires open != 0.0 && body == close - open && body > 0.0
    ensures open > 0.0 ==> ((body / open) * 100.0 >= 3.0 <==> body >= 0.03 * open)
    ensures open > 0.0 ==> ((wick / close) * 100.0 <= 1.5 <==> wick <= 0.015 * close)
  {
    if open > 0.0 {
      ScaledBound(body, open, 3.0, true);
      ScaledBound(wick, close, 1.5, false);
    }
  }

  /** For a positive divisor, a bound on the percentage is the same bound on the value. */
  lemma ScaledBound(x: real, d: real, pct: real, atLeast: bool)
    requires d > 0.0
    ensures atLeast ==> ((x / d) * 100.0 >= pct <==> x >= (pct / 100.0) * d)
    ensures !atLeast ==> ((x / d) * 100.0 <= pct <==> x <= (pct / 100.0) * d)
  {
    var q := x / d;
    assert x == q * d;
    assert q * 100.0 >= pct <==> q >= pct / 100.0;
    assert q >= pct / 100.0 <==> q * d >= (pct / 100.0) * d;
    assert q <= pct / 100.0 <==> q * d <= (pct / 100.0) * d;
  }

  // ------------------------------------------------------ consolidation (0-1)

  /** `charts[-20:-1]`: the 19 bars before today. */
  function BaseWindow(charts: seq<ChartData>): (w: seq<ChartData>)
    requires |charts| >= 20
    ensures |w| == 19
  {
    charts[|charts| - 20..|charts| - 1]
  }

  /**
   * `_score_consolidation`: 1 when at least 20 bars exist, the base's low is
   * non-zero, the base's range is at most 15% of its low and today's close is
   * above the base's high. For a positive low the percentage is a plain bound.
   */
  function ScoreConsolidation(charts: seq<ChartData>): (r: int)
    ensures r == 0 || r == 1
    ensures |charts| < 20 ==> r == 0
    ensures |charts| >= 20 ==>
              var hi := MaxOf(Highs(BaseWindow(charts)));
              var lo := MinOf(Lows(BaseWindow(charts)));
              (r == 1 <==> lo != 0.0 && ((hi - lo) / lo) * 100.0 <= 15.0 && charts[|charts| - 1].close > hi) &&
              (lo > 0.0 ==> (r == 1 <==> hi - lo <= 0.15 * lo && charts[|charts| - 1].close > hi))
  {
    if |charts| < 20 then 0
    else
      var recent := BaseWindow(charts);
      var rangeHigh := MaxOf(Highs(recent));
      var rangeLow := MinOf(Lows(recent));
      if rangeLow == 0.0 then 0
      else
        var rangePct := ((rangeHigh - rangeLow) / rangeLow) * 100.0;
        RangeFacts(rangeHigh, rangeLow);
        if rangePct <= 15.0 && charts[|charts| - 1].close > rangeHigh then 1 else 0
  }

  lemma RangeFacts(hi: real, lo: real)
    requires lo > 0.0 || lo < 0.0
    ensures lo > 0.0 ==> (((hi - lo) / lo) * 100.0 <= 15.0 <==> hi - lo <= 0.15 * lo)
  {
    assert ((hi - lo) / lo) * lo == hi - lo;
  }

  // ------------------------------------------------------------- supply (0-2)

  /**
   * `_score_supply`: one point each for a positive 5-day foreign and
   * institutional net purchase; the flag is also set by the double-buy flag.
   * No snapshot gives (0, false).
   */
  function ScoreSupply(supply: Option<SupplyData>): (r: (int, bool))
    ensures supply.None? ==> r == (0, false)
    ensures 0 <= r.0 <= 2
    ensures supply.Some? ==>
              r.0 == Indicator(supply.value.foreignBuy5d > 0) + Indicator(supply.value.instBuy5d > 0)
    ensures supply.Some? ==>
              (r.1 <==> r.0 > 0 || supply.value.isDoubleBuy)
  {
    match supply
    case None => (0, false)
    case Some(s) =>
      var score := Indicator(s.foreignBuy5d > 0) + Indicator(s.instBuy5d > 0);
      (Min(2, score), s.foreignBuy5d > 0 || s.instBuy5d > 0 || s.isDoubleBuy)
  }

  // ------------------------------------------------------------- composite

  /** The score and checklist `calculate` produces, rule by rule. */
  function Scores(cfg: SignalConfig, stock: StockData, charts: seq<ChartData>, news: seq<NewsItem>,
                  supply: Option<SupplyData>, llm: Option<NewsVerdict>): (r: (ScoreDetail, ChecklistDetail))
    ensures (llm.None? || llm.value.score >= 0) ==> r.0.WithinBounds() && 0 <= r.0.Total() <= 12
    ensures r.1.hasNews <==> |news| > 0
    ensures r.1.volumeSurge <==> stock.tradingValue >= 500_000_000_000
    ensures r.0.llmReason == if llm.Some? then llm.value.reason else ""
    ensures (r.0.news, r.1.newsSources) == NewsScore(cfg, news, llm)
    ensures r.0.volume == ScoreVolume(stock.tradingValue)
    ensures (r.0.chart, r.1.isNewHigh, r.1.isBreakout) == ScoreChart(stock, charts)
    ensures r.0.candle == ScoreCandle(stock)
    ensures r.0.consolidation == ScoreConsolidation(charts)
    ensures (r.0.supply, r.1.supplyPositive) == ScoreSupply(supply)
  {
    var (newsScore, sources) := NewsScore(cfg, news, llm);
    var (chartScore, isNewHigh, isBreakout) := ScoreChart(stock, charts);
    var (supplyScore, supplyPositive) := ScoreSupply(supply);
    (ScoreDetail(newsScore, ScoreVolume(stock.tradingValue), chartScore, ScoreCandle(stock),
                 ScoreConsolidation(charts), supplyScore, if llm.Some? then llm.value.reason else ""),
     ChecklistDetail(|news| > 0, sources, isNewHigh, isBreakout, supplyPositive,
                     stock.tradingValue >= 500_000_000_000))
  }

  /** `calculate`: fills a fresh score and checklist field by field. */
  method Calculate(cfg: SignalConfig, stock: StockData, charts: seq<ChartData>, news: seq<NewsItem>,
                   supply: Option<SupplyData>, llm: Option<NewsVerdict>)
    returns (score: ScoreDetail, checklist: ChecklistDetail)
    ensures (score, checklist) == Scores(cfg, stock, charts, news, supply, llm)
    ensures (llm.None? || llm.value.score >= 0) ==> 0 <= score.Total() <= 12
  {
    var newsScore, sources := ScoreNews(cfg, news, llm);
    var llmReason := "";
    if llm.Some? {
      llmReason := llm.value.reason;
    }
    var volumeScore := ScoreVolume(stock.tradingValue);
    var chart := ScoreChart(stock, charts);
    var candleScore := ScoreCandle(stock);
    var consolidationScore := ScoreConsolidation(charts);
    var supplyResult := ScoreSupply(supply);
    score := ScoreDetail(newsScore, volumeScore, chart.0, candleScore, consolidationScore, supplyResult.0, llmReason);
    checklist := ChecklistDetail(|news| > 0, sources, chart.1, chart.2, supplyResult.1,
                                 stock.tradingValue >= 500_000_000_000);
  }

  // ---------------------------------------------------------------- grade

  /**
   * `determine_grade`: the best of S, A, B whose minimum score AND minimum
   * traded value (as `grade_configs` lists them) both hold, else C.
   */
  function DetermineGrade(stock: StockData, score: ScoreDetail): (g: Grade)
    ensures g != C ==> MeetsTier(DefaultGradeConfigs()[g], score.Total(), stock.tradingValue)
    ensures forall h :: h != C && Tier(h) < Tier(g) ==>
              !MeetsTier(DefaultGradeConfigs()[h], score.Total(), stock.tradingValue)
  {
    var total := score.Total();
    var tradingValue := stock.tradingValue;
    if total >= 10 && tradingValue >= 1_000_000_000_000 then S
    else if total >= 8 && tradingValue >= 500_000_000_000 then A
    else if total >= 6 && tradingValue >= 100_000_000_000 then B
    else C
  }

  /** For a fixed traded value, a higher total never gives a worse grade. */
  lemma GradeMonotoneInScore(stock: StockData, s1: ScoreDetail, s2: ScoreDetail)
    requires s1.Total() <= s2.Total()
    ensures Tier(DetermineGrade(stock, s2)) <= Tier(DetermineGrade(stock, s1))
  {
  }

  /** For a fixed score, more traded value never gives a worse grade. */
  lemma GradeMonotoneInTradingValue(st1: StockData, st2: StockData, score: ScoreDetail)
    requires st1.tradingValue <= st2.tradingValue
    ensures Tier(DetermineGrade(st2, score)) <= Tier(DetermineGrade(st1, score))
  {
  }

  /** A high score with low traded value is demoted: 12 points under 1e11 is C. */
  lemma LowTradedValueDemotes(stock: StockData, score: ScoreDetail)
    requires stock.tradingValue < 100_000_000_000
    ensures DetermineGrade(stock, score) == C
  {
  }
}
