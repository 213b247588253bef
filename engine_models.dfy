/**
 * Value objects of the signal generator (engine/models.py): the inputs the
 * collectors produce, the six-part score, the checklist, the signal and the
 * screener result, with their `to_dict` serialisations.
 */
module EngineModels {

  import opened Wrappers
  import opened Json
  import opened EngineConfig

  /** Lifecycle of a signal: pending, then active, then closed or expired. */
  datatype SignalStatus = Pending | Active | Closed | Expired

  function StatusValue(s: SignalStatus): string {
    match s
    case Pending => "pending"
    case Active => "active"
    case Closed => "closed"
    case Expired => "expired"
  }

  /** The members of `SignalStatus`: exactly four, all distinct. */
  function AllStatuses(): (r: seq<SignalStatus>)
    ensures |r| == 4
    ensures Pending in r && Active in r && Closed in r && Expired in r
    ensures forall i, j :: 0 <= i < j < |r| ==> r[i] != r[j]
  {
    [Pending, Active, Closed, Expired]
  }

  datatype StockData = StockData(
    code: string,
    name: string,
    market: string,
    sector: string,
    close: real,
    open: real,
    high: real,
    low: real,
    changePct: real,
    volume: int,
    tradingValue: int,
    marcap: int,
    high52w: real,
    low52w: real)

  datatype NewsItem = NewsItem(
    title: string,
    summary: string,
    source: string,
    url: string,
    publishedAt: Option<string>,
    relevance: real)

  datatype SupplyData = SupplyData(
    code: string,
    foreignBuy5d: int,
    foreignBuy20d: int,
    foreignConsecutiveDays: int,
    instBuy5d: int,
    instBuy20d: int,
    instConsecutiveDays: int,
    isDoubleBuy: bool)

  /** One daily bar. */
  datatype ChartData = ChartData(date: string, open: real, high: real, low: real, close: real, volume: int)

  /** The `{"score": ..., "reason": ...}` dictionary of a news sentiment analysis. */
  datatype NewsVerdict = NewsVerdict(score: int, reason: string)

  datatype ScoreDetail = ScoreDetail(
    news: int,
    volume: int,
    chart: int,
    candle: int,
    consolidation: int,
    supply: int,
    llmReason: string)
  {
    /** Each sub-score lies within its declared range. */
    predicate WithinBounds() {
      0 <= news <= 3 && 0 <= volume <= 3 && 0 <= chart <= 2 &&
      0 <= candle <= 1 && 0 <= consolidation <= 1 && 0 <= supply <= 2
    }

    /** The composite score: within the declared ranges it lies in [0, 12]. */
    function Total(): (t: int)
      ensures WithinBounds() ==> 0 <= t <= 12
    {
      news + volume + chart + candle + consolidation + supply
    }

    /** `asdict` plus `total`: every field in declaration order, then the total. */
    function ToDict(): (d: JsonValue)
      ensures d.JObject?
      ensures Keys(d.fields) == ["news", "volume", "chart", "candle", "consolidation", "supply", "llm_reason", "total"]
      ensures d.fields[7] == ("total", JInt(Total()))
    {
      JObject([
        ("news", JInt(news)), ("volume", JInt(volume)), ("chart", JInt(chart)),
        ("candle", JInt(candle)), ("consolidation", JInt(consolidation)),
        ("supply", JInt(supply)), ("llm_reason", JStr(llmReason)),
        ("total", JInt(Total()))])
    }
  }

  function EmptyScore(): (s: ScoreDetail)
    ensures s.WithinBounds() && s.Total() == 0
  {
    ScoreDetail(0, 0, 0, 0, 0, 0, "")
  }

  datatype ChecklistDetail = ChecklistDetail(
    hasNews: bool,
    newsSources: seq<string>,
    isNewHigh: bool,
    isBreakout: bool,
    supplyPositive: bool,
    volumeSurge: bool)
  {
    function ToDict(): (d: JsonValue)
      ensures d.JObject?
      ensures Keys(d.fields) == ["has_news", "news_sources", "is_new_high", "is_breakout", "supply_positive", "volume_surge"]
    {
      JObject([
        ("has_news", JBool(hasNews)), ("news_sources", StrList(newsSources)),
        ("is_new_high", JBool(isNewHigh)), ("is_breakout", JBool(isBreakout)),
        ("supply_positive", JBool(supplyPositive)), ("volume_surge", JBool(volumeSurge))])
    }
  }

  /** `ChecklistDetail()`: every flag false and no news sources. */
  function DefaultChecklist(): (c: ChecklistDetail)
    ensures !c.hasNews && !c.isNewHigh && !c.isBreakout && !c.supplyPositive && !c.volumeSurge
    ensures c.newsSources == []
  {
    ChecklistDetail(false, [], false, false, false, false)
  }

  /** A `{"title", "source", "url"}` news reference carried by a signal. */
  datatype NewsRef = NewsRef(title: string, source: string, url: string)

  /** The first ten keys of a signal's dictionary, in the source's order. */
  function SignalIdentityKeys(): seq<string> {
    ["stock_code", "stock_name", "market", "sector", "signal_date", "signal_time",
     "grade", "score", "checklist", "news_items"]
  }

  /** The last twelve keys of a signal's dictionary, in the source's order. */
  function SignalTradeKeys(): seq<string> {
    ["current_price", "entry_price", "stop_price", "target_price", "r_value", "position_size",
     "quantity", "r_multiplier", "trading_value", "change_pct", "status", "created_at"]
  }

  datatype Signal = Signal(
    stockCode: string,
    stockName: string,
    market: string,
    sector: string,
    signalDate: string,
    signalTime: string,
    grade: Grade,
    score: ScoreDetail,
    checklist: ChecklistDetail,
    newsItems: seq<NewsRef>,
    currentPrice: real,
    entryPrice: real,
    stopPrice: real,
    targetPrice: real,
    rValue: real,
    positionSize: real,
    quantity: int,
    rMultiplier: real,
    tradingValue: int,
    changePct: real,
    status: SignalStatus,
    createdAt: string)
  {
    function ToDict(): (d: JsonValue)
      ensures d.JObject? && |d.fields| == 22
      ensures Keys(d.fields) == SignalIdentityKeys() + SignalTradeKeys()
      ensures d.fields[0].1 == JStr(stockCode) && d.fields[2].1 == JStr(market)
      ensures d.fields[6] == ("grade", JStr(GradeValue(grade)))
      ensures d.fields[7] == ("score", score.ToDict())
      ensures d.fields[8].1 == checklist.ToDict() && d.fields[9].1 == NewsRefList(newsItems)
      ensures d.fields[11].1 == JReal(entryPrice) && d.fields[12].1 == JReal(stopPrice) && d.fields[13].1 == JReal(targetPrice)
      ensures d.fields[16].1 == JInt(quantity)
      ensures d.fields[20] == ("status", JStr(StatusValue(status)))
    {
      var identity := IdentityFields();
      var trade := TradeFields();
      KeysAppend(identity, trade);
      JObject(identity + trade)
    }

    /** The first ten entries of `to_dict`: who, when, and how the signal was graded. */
    function IdentityFields(): (f: seq<(string, JsonValue)>)
      ensures |f| == 10
      ensures Keys(f) == SignalIdentityKeys()
      ensures f[0].1 == JStr(stockCode) && f[2].1 == JStr(market)
      ensures f[6] == ("grade", JStr(GradeValue(grade))) && f[7] == ("score", score.ToDict())
      ensures f[8].1 == checklist.ToDict() && f[9].1 == NewsRefList(newsItems)
    {
      [("stock_code", JStr(stockCode)), ("stock_name", JStr(stockName)),
       ("market", JStr(market)), ("sector", JStr(sector)),
       ("signal_date", JStr(signalDate)), ("signal_time", JStr(signalTime)),
       ("grade", JStr(GradeValue(grade))), ("score", score.ToDict()),
       ("checklist", checklist.ToDict()), ("news_items", NewsRefList(newsItems))]
    }

    /** The last twelve entries of `to_dict`: prices, sizing, trading data and status. */
    function TradeFields(): (f: seq<(string, JsonValue)>)
      ensures |f| == 12
      ensures Keys(f) == SignalTradeKeys()
      ensures f[1].1 == JReal(entryPrice) && f[2].1 == JReal(stopPrice) && f[3].1 == JReal(targetPrice)
      ensures f[6].1 == JInt(quantity)
      ensures f[10] == ("status", JStr(StatusValue(status)))
    {
      [("current_price", JReal(currentPrice)), ("entry_price", JReal(entryPrice)),
       ("stop_price", JReal(stopPrice)), ("target_price", JReal(targetPrice)),
       ("r_value", JReal(rValue)), ("position_size", JReal(positionSize)),
       ("quantity", JInt(quantity)), ("r_multiplier", JReal(rMultiplier)),
       ("trading_value", JInt(tradingValue)), ("change_pct", JReal(changePct)),
       ("status", JStr(StatusValue(status))), ("created_at", JStr(createdAt))]
    }
  }

  function NewsRefList(refs: seq<NewsRef>): (v: JsonValue)
    ensures v.JList? && |v.items| == |refs|
    ensures forall i :: 0 <= i < |refs| ==>
              v.items[i] == JObject([("title", JStr(refs[i].title)), ("source", JStr(refs[i].source)), ("url", JStr(refs[i].url))])
  {
    JList(seq(|refs|, i requires 0 <= i < |refs| =>
      JObject([("title", JStr(refs[i].title)), ("source", JStr(refs[i].source)), ("url", JStr(refs[i].url))])))
  }

  /**
   * `Signal(...)` as the generator calls it, leaving `status` to its
   * default: a new signal is always pending.
   */
  function NewSignal(
    stockCode: string, stockName: string, market: string, sector: string,
    signalDate: string, signalTime: string, grade: Grade, score: ScoreDetail,
    checklist: ChecklistDetail, newsItems: seq<NewsRef>,
    currentPrice: real, entryPrice: real, stopPrice: real, targetPrice: real,
    rValue: real, positionSize: real, quantity: int, rMultiplier: real,
    tradingValue: int, changePct: real, createdAt: string): (s: Signal)
    ensures s.status == Pending
    ensures s.grade == grade && s.score == score && s.newsItems == newsItems
    ensures s.stockCode == stockCode && s.market == market && s.quantity == quantity
  {
    Signal(stockCode, stockName, market, sector, signalDate, signalTime, grade, score,
      checklist, newsItems, currentPrice, entryPrice, stopPrice, targetPrice,
      rValue, positionSize, quantity, rMultiplier, tradingValue, changePct,
      Pending, createdAt)
  }

  /** A count per key, in first-insertion order, as the `by_grade` and `by_market` dicts. */
  type Histogram = seq<(string, int)>

  datatype ScreenerResult = ScreenerResult(
    date: string,
    totalCandidates: int,
    filteredCount: int,
    signals: seq<Signal>,
    byGrade: Histogram,
    byMarket: Histogram,
    processingTimeMs: real)
  {
    /** Serialises the result; the signals keep their order and count. */
    function ToDict(): (d: JsonValue)
      ensures d.JObject? && |d.fields| == 7
      ensures Keys(d.fields) == ["date", "total_candidates", "filtered_count", "signals", "by_grade", "by_market", "processing_time_ms"]
      ensures d.fields[3].1.JList? && |d.fields[3].1.items| == |signals|
      ensures forall i :: 0 <= i < |signals| ==> d.fields[3].1.items[i] == signals[i].ToDict()
      ensures d.fields[4].1 == HistogramDict(byGrade) && d.fields[5].1 == HistogramDict(byMarket)
    {
      JObject([
        ("date", JStr(date)),
        ("total_candidates", JInt(totalCandidates)),
        ("filtered_count", JInt(filteredCount)),
        ("signals", JList(seq(|signals|, i requires 0 <= i < |signals| => signals[i].ToDict()))),
        ("by_grade", HistogramDict(byGrade)),
        ("by_market", HistogramDict(byMarket)),
        ("processing_time_ms", JReal(processingTimeMs))])
    }
  }

  /** The counts dictionary: one entry per histogram key, in order, carrying that key's count. */
  function HistogramDict(h: Histogram): (v: JsonValue)
    ensures v.JObject? && |v.fields| == |h|
    ensures forall i :: 0 <= i < |h| ==> v.fields[i] == (h[i].0, JInt(h[i].1))
  {
    JObject(seq(|h|, i requires 0 <= i < |h| => (h[i].0, JInt(h[i].1))))
  }
}
