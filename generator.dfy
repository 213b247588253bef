/**
 * The signal generator (engine/generator.py): for every candidate of the
 * two top-gainer lists it scores the fetched data, drops grade C, sizes the
 * position and builds a pending signal; then it counts the signals by grade
 * and by market and sorts them grade first, score second. The fetches, the
 * clock and the elapsed time are parameters.
 */
module Generator {

  import opened Wrappers
  import opened Series
  import opened Sorting
  import opened EngineConfig
  import opened EngineModels
  import opened Scorer
  import opened Sizer

  // ------------------------------------------------------------ histograms

  /** `h[key] = h.get(key, 0) + 1` on an insertion-ordered dictionary. */
  function Bump(h: Histogram, key: string): (r: Histogram)
    ensures |r| == |h| || |r| == |h| + 1
  {
    if h == [] then [(key, 1)]
    else if h[0].0 == key then [(key, h[0].1 + 1)] + h[1..]
    else [h[0]] + Bump(h[1..], key)
  }

  /** The sum of the counts. */
  function HistTotal(h: Histogram): int {
    if h == [] then 0 else h[0].1 + HistTotal(h[1..])
  }

  /** `h.get(key, 0)`. */
  function CountOf(h: Histogram, key: string): int {
    if h == [] then 0 else if h[0].0 == key then h[0].1 else CountOf(h[1..], key)
  }

  /** The number of times `key` occurs in `keys`. */
  function Occurrences(keys: seq<string>, key: string): nat {
    if keys == [] then 0
    else Occurrences(keys[..|keys| - 1], key) + (if keys[|keys| - 1] == key then 1 else 0)
  }

  /** A bump adds one to the total and one to the bumped key's count, and nothing to any other key. */
  lemma {:induction false} BumpFacts(h: Histogram, key: string)
    ensures HistTotal(Bump(h, key)) == HistTotal(h) + 1
    ensures forall k :: CountOf(Bump(h, key), k) == CountOf(h, k) + (if k == key then 1 else 0)
  {
    if h != [] && h[0].0 != key {
      BumpFacts(h[1..], key);
      assert Bump(h, key)[1..] == Bump(h[1..], key);
    }
  }

  /** The dictionary built by bumping each key in turn. */
  function HistogramOf(keys: seq<string>): Histogram {
    if keys == [] then [] else Bump(HistogramOf(keys[..|keys| - 1]), keys[|keys| - 1])
  }

  /** The histogram of `keys` counts every key exactly as often as it occurs, and its counts sum to `|keys|`. */
  lemma {:induction false} HistogramCounts(keys: seq<string>)
    ensures HistTotal(HistogramOf(keys)) == |keys|
    ensures forall k :: CountOf(HistogramOf(keys), k) == Occurrences(keys, k)
  {
    if keys != [] {
      HistogramCounts(keys[..|keys| - 1]);
      BumpFacts(HistogramOf(keys[..|keys| - 1]), keys[|keys| - 1]);
    }
  }

  function GradeKeys(signals: seq<Signal>): (r: seq<string>)
    ensures |r| == |signals|
  {
    seq(|signals|, i requires 0 <= i < |signals| => GradeValue(signals[i].grade))
  }

  function MarketKeys(signals: seq<Signal>): (r: seq<string>)
    ensures |r| == |signals|
  {
    seq(|signals|, i requires 0 <= i < |signals| => signals[i].market)
  }

  // --------------------------------------------------------------- ordering

  /** The sort key's first part: S before A before everything else. */
  function GradeRank(g: Grade): (r: int)
    ensures r == 0 <==> g == S
    ensures r == 1 <==> g == A
    ensures r == 2 <==> g != S && g != A
  {
    if g == S then 0 else if g == A then 1 else 2
  }

  /** `key=(grade rank, -score.total)`, ascending: grade first, then higher totals first. */
  function ByRank(): (Signal, Signal) -> bool {
    (a: Signal, b: Signal) =>
      GradeRank(a.grade) < GradeRank(b.grade) ||
      (GradeRank(a.grade) == GradeRank(b.grade) && a.score.Total() >= b.score.Total())
  }

  lemma ByRankIsPreorder()
    ensures TotalPreorder(ByRank())
  {
  }

  // ------------------------------------------------------------ candidates

  /** What the collectors gave for one candidate, or an exception while collecting or scoring it. */
  datatype CandidateFeed =
    | Collected(charts: seq<ChartData>, supply: Option<SupplyData>, news: seq<NewsItem>, analysis: NewsVerdict)
    | Raised

  /** `[{"title", "source", "url"} for n in news_list[:3]]`. */
  function NewsRefs(news: seq<NewsItem>): (r: seq<NewsRef>)
    ensures |r| <= 3 && |r| == |Head(news, 3)|
    ensures forall k :: 0 <= k < |r| ==> r[k] == NewsRef(news[k].title, news[k].source, news[k].url)
  {
    var head := Head(news, 3);
    seq(|head|, k requires 0 <= k < |head| => NewsRef(head[k].title, head[k].source, head[k].url))
  }

  /**
   * The signal of one scored candidate, or `None` for grade C: entry at the
   * close, stop and target from the configuration, the position from the
   * sizer's capital and R fraction, and the first three news references.
   * `r_multiplier` is read from the position plan, which has no such entry,
   * so it is always 1.0.
   */
  function SignalFor(cfg: SignalConfig, capital: real, rRatio: real, stock: StockData,
                     charts: seq<ChartData>, news: seq<NewsItem>, supply: Option<SupplyData>,
                     llm: Option<NewsVerdict>, today: string, now: string): (r: Option<Signal>)
    ensures r.None? <==> DetermineGrade(stock, Scores(cfg, stock, charts, news, supply, llm).0) == C
    ensures r.Some? ==> r.value.grade != C && r.value.status == Pending && |r.value.newsItems| <= 3
    ensures r.Some? ==> r.value.stockCode == stock.code && r.value.market == stock.market &&
                        r.value.score == Scores(cfg, stock, charts, news, supply, llm).0
    ensures r.Some? ==>
              var plan := PlanFor(capital, rRatio, cfg.gradeConfigs, stock.close, StopLoss(cfg, stock.close), r.value.grade);
              r.value.entryPrice == stock.close && r.value.stopPrice == StopLoss(cfg, stock.close) &&
              r.value.targetPrice == TargetPrice(cfg, stock.close) &&
              r.value.rValue == plan.rValue && r.value.positionSize == plan.positionValue &&
              r.value.quantity == plan.quantity && r.value.rMultiplier == 1.0
    ensures r.Some? ==>
              r.value.grade == DetermineGrade(stock, Scores(cfg, stock, charts, news, supply, llm).0) &&
              r.value.checklist == Scores(cfg, stock, charts, news, supply, llm).1 &&
              r.value.newsItems == NewsRefs(news)
    ensures r.Some? ==>
              r.value.stockName == stock.name && r.value.sector == stock.sector &&
              r.value.signalDate == today && r.value.signalTime == now && r.value.createdAt == now &&
              r.value.currentPrice == stock.close && r.value.tradingValue == stock.tradingValue &&
              r.value.changePct == stock.changePct
  {
    var (score, checklist) := Scores(cfg, stock, charts, news, supply, llm);
    var grade := DetermineGrade(stock, score);
    if grade == C then None
    else
      var entry := stock.close;
      var stop := StopLoss(cfg, entry);
      var target := TargetPrice(cfg, entry);
      var plan := PlanFor(capital, rRatio, cfg.gradeConfigs, entry, stop, grade);
      Some(NewSignal(stock.code, stock.name, stock.market, stock.sector, today, now, grade, score,
                     checklist, NewsRefs(news), stock.close, entry, stop, target,
                     plan.rValue, plan.positionValue, plan.quantity, 1.0,
                     stock.tradingValue, stock.changePct, now))
  }

  /** One candidate: an exception skips it; the sentiment verdict is used only when there is news. */
  function CandidateOutcome(cfg: SignalConfig, capital: real, rRatio: real, stock: StockData,
                            feed: CandidateFeed, today: string, now: string): Option<Signal> {
    match feed
    case Raised => None
    case Collected(charts, supply, news, analysis) =>
      SignalFor(cfg, capital, rRatio, stock, charts, news, supply,
                if news != [] then Some(analysis) else None, today, now)
  }

  /** The signals accumulated over `stocks`, in candidate order. */
  function Accumulated(cfg: SignalConfig, capital: real, rRatio: real, stocks: seq<StockData>,
                       feed: StockData -> CandidateFeed, today: string, now: string): (r: seq<Signal>)
    ensures |r| <= |stocks|
    ensures forall k :: 0 <= k < |r| ==> r[k].grade != C && r[k].status == Pending && |r[k].newsItems| <= 3
  {
    if stocks == [] then []
    else
      var last := stocks[|stocks| - 1];
      var earlier := Accumulated(cfg, capital, rRatio, stocks[..|stocks| - 1], feed, today, now);
      match CandidateOutcome(cfg, capital, rRatio, last, feed(last), today, now)
      case Some(s) => earlier + [s]
      case None => earlier
  }

  /** One more candidate appends its outcome, if any, to the signals of those before it. */
  lemma AccumulatedStep(cfg: SignalConfig, capital: real, rRatio: real, stocks: seq<StockData>, i: int,
                        feed: StockData -> CandidateFeed, today: string, now: string)
    requires 0 <= i < |stocks|
    ensures var o := CandidateOutcome(cfg, capital, rRatio, stocks[i], feed(stocks[i]), today, now);
            Accumulated(cfg, capital, rRatio, stocks[..i + 1], feed, today, now)
            == Accumulated(cfg, capital, rRatio, stocks[..i], feed, today, now) + (if o.Some? then [o.value] else [])
  {
    assert stocks[..i + 1][..i] == stocks[..i];
    assert stocks[..i + 1][i] == stocks[i];
  }

  /** A candidate that raises adds nothing, and the candidates after it are still processed. */
  lemma RaisedCandidateIsSkipped(cfg: SignalConfig, capital: real, rRatio: real, before: seq<StockData>,
                                 stock: StockData, after: seq<StockData>,
                                 feed: StockData -> CandidateFeed, today: string, now: string)
    requires feed(stock).Raised?
    ensures Accumulated(cfg, capital, rRatio, before + [stock] + after, feed, today, now)
            == Accumulated(cfg, capital, rRatio, before + after, feed, today, now)
  {
    AccumulatedSplit(cfg, capital, rRatio, before + [stock], after, feed, today, now);
    AccumulatedSplit(cfg, capital, rRatio, before, after, feed, today, now);
    assert (before + [stock])[..|before|] == before;
  }

  /** The outcome of each candidate, as a function of the candidate. */
  function OutcomeOf(cfg: SignalConfig, capital: real, rRatio: real,
                     feed: StockData -> CandidateFeed, today: string, now: string): StockData -> Option<Signal> {
    stock => CandidateOutcome(cfg, capital, rRatio, stock, feed(stock), today, now)
  }

  /** Accumulating keeps exactly the candidates' outcomes that are signals, in order. */
  lemma {:induction false} AccumulatedIsKept(cfg: SignalConfig, capital: real, rRatio: real, stocks: seq<StockData>,
                                             feed: StockData -> CandidateFeed, today: string, now: string)
    ensures Accumulated(cfg, capital, rRatio, stocks, feed, today, now)
            == Kept(stocks, OutcomeOf(cfg, capital, rRatio, feed, today, now))
  {
    if stocks != [] {
      AccumulatedIsKept(cfg, capital, rRatio, stocks[..|stocks| - 1], feed, today, now);
    }
  }

  /** Accumulation distributes over concatenation: KOSPI then KOSDAQ is the KOSPI signals followed by the KOSDAQ ones. */
  lemma AccumulatedSplit(cfg: SignalConfig, capital: real, rRatio: real,
                         xs: seq<StockData>, ys: seq<StockData>,
                         feed: StockData -> CandidateFeed, today: string, now: string)
    ensures Accumulated(cfg, capital, rRatio, xs + ys, feed, today, now)
            == Accumulated(cfg, capital, rRatio, xs, feed, today, now) + Accumulated(cfg, capital, rRatio, ys, feed, today, now)
  {
    AccumulatedIsKept(cfg, capital, rRatio, xs + ys, feed, today, now);
    AccumulatedIsKept(cfg, capital, rRatio, xs, feed, today, now);
    AccumulatedIsKept(cfg, capital, rRatio, ys, feed, today, now);
    KeptSplit(xs, ys, OutcomeOf(cfg, capital, rRatio, feed, today, now));
  }

  /** The `ScreenerResult` returned when there are no candidates at all. */
  function EmptyResult(today: string): (r: ScreenerResult)
    ensures r.totalCandidates == 0 && r.filteredCount == 0 && r.signals == []
  {
    ScreenerResult(today, 0, 0, [], [], [], 0.0)
  }

  /** The generator: its configuration and the position sizer built from it. */
  class SignalGenerator {
    const config: SignalConfig
    const sizer: PositionSizer

    constructor(config: SignalConfig)
      ensures this.config == config && fresh(sizer)
      ensures sizer.config == config && sizer.capital == 100_000_000.0 && sizer.rRatio == 0.005
    {
      this.config := config;
      sizer := new PositionSizer(config);
    }

    /**
     * `run`: sets the sizer's capital, collects the signals of the KOSPI and
     * then the KOSDAQ candidates, counts them by grade and by market, and
     * sorts them grade first, score second.
     */
    method Run(capital: real, kospi: seq<StockData>, kosdaq: seq<StockData>,
               feed: StockData -> CandidateFeed, today: string, now: string, elapsedMs: real)
      returns (result: ScreenerResult)
      requires sizer.config == config
      modifies sizer`capital
      ensures sizer.capital == capital
      ensures kospi + kosdaq == [] ==> result == EmptyResult(today)
      ensures result.totalCandidates == |kospi| + |kosdaq|
      ensures result.filteredCount == |result.signals|
      ensures multiset(result.signals) ==
              multiset(Accumulated(config, capital, sizer.rRatio, kospi + kosdaq, feed, today, now))
      ensures SortedBy(result.signals, ByRank())
      ensures forall k :: 0 <= k < |result.signals| ==>
                result.signals[k].grade != C && result.signals[k].status == Pending &&
                |result.signals[k].newsItems| <= 3
      ensures var acc := Accumulated(config, capital, sizer.rRatio, kospi + kosdaq, feed, today, now);
              result.byGrade == HistogramOf(GradeKeys(acc)) && result.byMarket == HistogramOf(MarketKeys(acc))
      ensures HistTotal(result.byGrade) == |result.signals| && HistTotal(result.byMarket) == |result.signals|
    {
      sizer.SetCapital(capital);
      var all := kospi + kosdaq;
      if all == [] {
        return EmptyResult(today);
      }
      var signals := CollectSignals(all, feed, today, now);
      var byGrade, byMarket := CountSignals(signals);
      ByRankIsPreorder();
      var sorted := SortBy(signals, ByRank());
      assert |sorted| == |signals| by {
        assert |multiset(sorted)| == |multiset(signals)|;
      }
      forall k | 0 <= k < |sorted|
        ensures sorted[k].grade != C && sorted[k].status == Pending && |sorted[k].newsItems| <= 3
      {
        assert sorted[k] in multiset(signals);
      }
      HistogramCounts(GradeKeys(signals));
      HistogramCounts(MarketKeys(signals));
      result := ScreenerResult(today, |all|, |sorted|, sorted, byGrade, byMarket, elapsedMs);
    }

    /** The per-candidate loop of `run`. */
    method CollectSignals(all: seq<StockData>, feed: StockData -> CandidateFeed, today: string, now: string)
      returns (signals: seq<Signal>)
      requires sizer.config == config
      ensures signals == Accumulated(config, sizer.capital, sizer.rRatio, all, feed, today, now)
    {
      signals := [];
      var i := 0;
      while i < |all|
        invariant 0 <= i <= |all|
        invariant signals == Accumulated(config, sizer.capital, sizer.rRatio, all[..i], feed, today, now)
      {
        AccumulatedStep(config, sizer.capital, sizer.rRatio, all, i, feed, today, now);
        var stock := all[i];
        var s := ProcessCandidate(stock, feed(stock), today, now);
        if s.Some? {
          signals := signals + [s.value];
        }
        i := i + 1;
      }
      assert all[..|all|] == all;
    }

    /** One iteration of the loop: score, grade, drop C, size, build the signal. */
    method ProcessCandidate(stock: StockData, feed: CandidateFeed, today: string, now: string)
      returns (s: Option<Signal>)
      requires sizer.config == config
      ensures s == CandidateOutcome(config, sizer.capital, sizer.rRatio, stock, feed, today, now)
    {
      if feed.Raised? {
        return None;
      }
      var news := feed.news;
      var llm: Option<NewsVerdict> := None;
      if news != [] {
        llm := Some(feed.analysis);
      }
      var score, checklist := Calculate(config, stock, feed.charts, news, feed.supply, llm);
      var grade := DetermineGrade(stock, score);
      if grade == C {
        return None;
      }
      var entry := stock.close;
      var stop := sizer.CalculateStopLoss(entry);
      var target := sizer.CalculateTargetPrice(entry);
      var position := sizer.CalculatePosition(entry, stop, grade);
      s := Some(NewSignal(stock.code, stock.name, stock.market, stock.sector, today, now, grade, score,
                          checklist, NewsRefs(news), stock.close, entry, stop, target,
                          position.rValue, position.positionValue, position.quantity, 1.0,
                          stock.tradingValue, stock.changePct, now));
    }

    /** The counting loop of `run`: one bump per signal in each dictionary. */
    method CountSignals(signals: seq<Signal>) returns (byGrade: Histogram, byMarket: Histogram)
      ensures byGrade == HistogramOf(GradeKeys(signals))
      ensures byMarket == HistogramOf(MarketKeys(signals))
    {
      byGrade := [];
      byMarket := [];
      var i := 0;
      while i < |signals|
        invariant 0 <= i <= |signals|
        invariant byGrade == HistogramOf(GradeKeys(signals[..i]))
        invariant byMarket == HistogramOf(MarketKeys(signals[..i]))
      {
        assert GradeKeys(signals[..i + 1])[..i] == GradeKeys(signals[..i]);
        assert MarketKeys(signals[..i + 1])[..i] == MarketKeys(signals[..i]);
        byGrade := Bump(byGrade, GradeValue(signals[i].grade));
        byMarket := Bump(byMarket, signals[i].market);
        i := i + 1;
      }
      assert signals[..|signals|] == signals;
    }
  }
}
