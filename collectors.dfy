/**
 * The data collectors (engine/collectors.py): the daily top-gainer scan of
 * one market, the 5- and 20-day net-purchase snapshot, and the per-stock news
 * list with its article summaries. What the data provider and the news pages
 * return arrives as parameters; a call that raises is `None`.
 */
module Collectors {

  import opened Wrappers
  import opened Series
  import opened Sorting
  import opened EngineConfig
  import opened EngineModels
  import Scorer

  // ---------------------------------------------------------- top gainers

  /** One row of the market listing. */
  datatype ListingRow = ListingRow(code: string, name: string, marcap: int)

  /** The listing table; `hasMarcap` says whether it has a market-cap column. */
  datatype Listing = Listing(rows: seq<ListingRow>, hasMarcap: bool)

  /** One daily bar of the price table. */
  datatype Bar = Bar(open: real, high: real, low: real, close: real, volume: int)

  /** A stock's price table over the last ten days, with the columns it has. */
  datatype PriceFrame = PriceFrame(bars: seq<Bar>, hasOpen: bool, hasHigh: bool, hasLow: bool,
                                   hasVolume: bool)

  function ByMarcapDesc(): (ListingRow, ListingRow) -> bool {
    (a: ListingRow, b: ListingRow) => a.marcap >= b.marcap
  }

  function ByChangeDesc(): (StockData, StockData) -> bool {
    (a: StockData, b: StockData) => a.changePct >= b.changePct
  }

  lemma OrdersArePreorders()
    ensures TotalPreorder(ByMarcapDesc())
    ensures TotalPreorder(ByChangeDesc())
  {
  }

  /**
   * The rows the scan looks at: the 100 largest by market cap when the listing
   * has that column, otherwise its first 100 rows.
   */
  ghost predicate IsTopListing(listing: Listing, top: seq<ListingRow>) {
    if listing.hasMarcap then
      |top| == Min(100, |listing.rows|) &&
      multiset(top) <= multiset(listing.rows) &&
      SortedBy(top, ByMarcapDesc()) &&
      forall x, y :: x in multiset(listing.rows) - multiset(top) && y in multiset(top) ==> x.marcap <= y.marcap
    else
      top == Head(listing.rows, 100)
  }

  /** `listing.nlargest(100, 'Marcap')`, or `listing.head(100)` without that column. */
  method TopListing(listing: Listing) returns (top: seq<ListingRow>)
    ensures IsTopListing(listing, top)
  {
    if listing.hasMarcap {
      OrdersArePreorders();
      var sorted := SortBy(listing.rows, ByMarcapDesc());
      assert |sorted| == |listing.rows| by {
        assert |multiset(sorted)| == |multiset(listing.rows)|;
      }
      top := Head(sorted, 100);
      PrefixIsTopOf(sorted, listing.rows, |top|, ByMarcapDesc());
      assert top == sorted[..|top|];
    } else {
      top := Head(listing.rows, 100);
    }
  }

  /** What every stock the scan keeps satisfies: the configured change, value and price bounds, and no excluded word. */
  predicate Passes(cfg: SignalConfig, s: StockData) {
    cfg.minChangePct <= s.changePct <= cfg.maxChangePct &&
    s.tradingValue >= cfg.minTradingValue &&
    cfg.minPrice as real <= s.close <= cfg.maxPrice as real &&
    !AnyIn(cfg.excludeKeywords, s.name)
  }

  /** The change of the last close over the previous one, in percent. */
  function ChangePct(frame: PriceFrame): real
    requires |frame.bars| >= 2 && frame.bars[|frame.bars| - 2].close != 0.0
  {
    var prevClose := frame.bars[|frame.bars| - 2].close;
    ((frame.bars[|frame.bars| - 1].close - prevClose) / prevClose) * 100.0
  }

  /** The last bar's volume, or 0 without a volume column. */
  function LastVolume(frame: PriceFrame): int
    requires |frame.bars| >= 1
  {
    if frame.hasVolume then frame.bars[|frame.bars| - 1].volume else 0
  }

  /** The last close times the last volume, before truncation. */
  function TradedValue(frame: PriceFrame): real
    requires |frame.bars| >= 1
  {
    frame.bars[|frame.bars| - 1].close * LastVolume(frame) as real
  }

  /**
   * Whether a fetched table passes the scan: at least two bars, a non-zero
   * previous close (the division raises otherwise), and the change, traded
   * value and last close within the configured bounds.
   */
  predicate FramePasses(cfg: SignalConfig, frame: PriceFrame) {
    |frame.bars| >= 2 && frame.bars[|frame.bars| - 2].close != 0.0 &&
    cfg.minChangePct <= ChangePct(frame) <= cfg.maxChangePct &&
    TradedValue(frame) >= cfg.minTradingValue as real &&
    cfg.minPrice as real <= frame.bars[|frame.bars| - 1].close <= cfg.maxPrice as real
  }

  /**
   * One listing row of the scan. The row is kept exactly when its name holds
   * no excluded word, its price table was fetched and the table passes; a
   * kept row is the stock record `StockOf` builds from that table.
   */
  function Accept(cfg: SignalConfig, market: string, row: ListingRow, frame: Option<PriceFrame>): (r: Option<StockData>)
    ensures r.Some? <==> !AnyIn(cfg.excludeKeywords, row.name) && frame.Some? && FramePasses(cfg, frame.value)
    ensures r.Some? ==> Passes(cfg, r.value)
    ensures r.Some? ==> r.value.code == row.code && r.value.name == row.name && r.value.market == market
    ensures r.Some? ==> frame.Some? && |frame.value.bars| >= 2 && frame.value.bars[|frame.value.bars| - 2].close != 0.0 &&
                        r.value == StockOf(market, row, frame.value)
  {
    if AnyIn(cfg.excludeKeywords, row.name) || frame.None? || |frame.value.bars| < 2 then None
    else
      var bars := frame.value.bars;
      var latest := bars[|bars| - 1];
      var prevClose := bars[|bars| - 2].close;
      if prevClose == 0.0 then None
      else
        var changePct := ((latest.close - prevClose) / prevClose) * 100.0;
        var volume := if frame.value.hasVolume then latest.volume else 0;
        var tradingValue := latest.close * volume as real;
        if changePct < cfg.minChangePct || changePct > cfg.maxChangePct then None
        else if tradingValue < cfg.minTradingValue as real then None
        else if latest.close < cfg.minPrice as real || latest.close > cfg.maxPrice as real then None
        else
          TruncKeepsLowerBound(tradingValue, cfg.minTradingValue);
          Some(StockOf(market, row, frame.value))
  }

  /**
   * The stock record built from a listing row and a price table of at least
   * two bars with a non-zero previous close: the last close, open, high and
   * low falling back to the close when their column is missing, the change
   * against the previous close, the last volume (0 without the column) and
   * the truncated traded value; no sector and no market cap.
   */
  function StockOf(market: string, row: ListingRow, frame: PriceFrame): (s: StockData)
    requires |frame.bars| >= 2 && frame.bars[|frame.bars| - 2].close != 0.0
    ensures s.code == row.code && s.name == row.name && s.market == market && s.sector == ""
    ensures s.close == frame.bars[|frame.bars| - 1].close
    ensures s.open == (if frame.hasOpen then frame.bars[|frame.bars| - 1].open else s.close)
    ensures s.high == (if frame.hasHigh then frame.bars[|frame.bars| - 1].high else s.close)
    ensures s.low == (if frame.hasLow then frame.bars[|frame.bars| - 1].low else s.close)
    ensures s.changePct * frame.bars[|frame.bars| - 2].close ==
              (s.close - frame.bars[|frame.bars| - 2].close) * 100.0
    ensures s.volume == (if frame.hasVolume then frame.bars[|frame.bars| - 1].volume else 0)
    ensures s.tradingValue == Trunc(s.close * s.volume as real)
  {
    var latest := frame.bars[|frame.bars| - 1];
    StockData(row.code, row.name, market, "", latest.close,
              if frame.hasOpen then latest.open else latest.close,
              if frame.hasHigh then latest.high else latest.close,
              if frame.hasLow then latest.low else latest.close,
              ChangePct(frame), LastVolume(frame), Trunc(TradedValue(frame)), 0, 0.0, 0.0)
  }

  /** Truncating a value at or above a whole number keeps it at or above that number. */
  lemma TruncKeepsLowerBound(x: real, n: int)
    ensures x >= n as real ==> Trunc(x) >= n
  {
  }

  /** The stocks the scan keeps from `rows`, in listing order. */
  function Accepted(cfg: SignalConfig, market: string, rows: seq<ListingRow>,
                    fetch: string -> Option<PriceFrame>): (r: seq<StockData>)
    ensures |r| <= |rows|
    ensures forall k :: 0 <= k < |r| ==> Passes(cfg, r[k]) && r[k].market == market
  {
    if rows == [] then []
    else
      var last := rows[|rows| - 1];
      var earlier := Accepted(cfg, market, rows[..|rows| - 1], fetch);
      match Accept(cfg, market, last, fetch(last.code))
      case Some(s) => earlier + [s]
      case None => earlier
  }

  /** The scan step for one listing row, as a function of the row. */
  function AcceptRow(cfg: SignalConfig, market: string, fetch: string -> Option<PriceFrame>): ListingRow -> Option<StockData> {
    (row: ListingRow) => Accept(cfg, market, row, fetch(row.code))
  }

  /**
   * The scan keeps exactly the rows `Accept` keeps, in listing order: it is
   * `Kept` of the step, and a record is in it iff some row is accepted as it.
   */
  lemma {:induction false} AcceptedIsKept(cfg: SignalConfig, market: string, rows: seq<ListingRow>,
                                          fetch: string -> Option<PriceFrame>)
    ensures Accepted(cfg, market, rows, fetch) == Kept(rows, AcceptRow(cfg, market, fetch))
    ensures forall s :: s in Accepted(cfg, market, rows, fetch) <==>
              exists i :: 0 <= i < |rows| && Accept(cfg, market, rows[i], fetch(rows[i].code)) == Some(s)
  {
    if rows != [] {
      AcceptedIsKept(cfg, market, rows[..|rows| - 1], fetch);
    }
    forall s
      ensures s in Accepted(cfg, market, rows, fetch) <==>
              exists i :: 0 <= i < |rows| && Accept(cfg, market, rows[i], fetch(rows[i].code)) == Some(s)
    {
      KeptMembers(rows, AcceptRow(cfg, market, fetch), s);
    }
  }

  /** `r` is a top-`n` of `pool` by change: drawn from it, sorted descending, as long as `pool[:n]`, and above everything left out. */
  ghost predicate RankedTop(pool: seq<StockData>, r: seq<StockData>, n: int) {
    multiset(r) <= multiset(pool) &&
    SortedBy(r, ByChangeDesc()) &&
    |r| == |Head(pool, n)| &&
    forall x, y :: x in multiset(pool) - multiset(r) && y in multiset(r) ==> x.changePct <= y.changePct
  }

  /** The scan loop of `get_top_gainers`: each row of `top` in turn, keeping the accepted ones. */
  method ScanListing(cfg: SignalConfig, market: string, top: seq<ListingRow>,
                     fetch: string -> Option<PriceFrame>) returns (kept: seq<StockData>)
    ensures kept == Accepted(cfg, market, top, fetch)
  {
    kept := [];
    var i := 0;
    while i < |top|
      invariant 0 <= i <= |top|
      invariant kept == Accepted(cfg, market, top[..i], fetch)
    {
      assert top[..i + 1][..i] == top[..i];
      var row := top[i];
      var accepted := Accept(cfg, market, row, fetch(row.code));
      if accepted.Some? {
        kept := kept + [accepted.value];
      }
      i := i + 1;
    }
    assert top[..|top|] == top;
  }

  /** `stocks.sort(key=change_pct, reverse=True)` followed by `stocks[:top_n]`. */
  method RankByChange(kept: seq<StockData>, topN: int) returns (stocks: seq<StockData>)
    ensures RankedTop(kept, stocks, topN)
  {
    OrdersArePreorders();
    var sorted := SortBy(kept, ByChangeDesc());
    assert |sorted| == |kept| by {
      assert |multiset(sorted)| == |multiset(kept)|;
    }
    stocks := Head(sorted, topN);
    PrefixIsTopOf(sorted, kept, |stocks|, ByChangeDesc());
    assert stocks == sorted[..|stocks|];
  }

  /**
   * `get_top_gainers`: scans the top of the listing row by row, then sorts the
   * kept stocks by change descending and returns the first `topN`.
   */
  method GetTopGainers(cfg: SignalConfig, market: string, listing: Listing,
                       fetch: string -> Option<PriceFrame>, topN: int)
    returns (stocks: seq<StockData>)
    ensures exists top :: IsTopListing(listing, top) && RankedTop(Accepted(cfg, market, top, fetch), stocks, topN)
    ensures forall k :: 0 <= k < |stocks| ==> Passes(cfg, stocks[k]) && stocks[k].market == market
    ensures topN >= 0 ==> |stocks| <= topN
  {
    var top := TopListing(listing);
    var kept := ScanListing(cfg, market, top, fetch);
    stocks := RankByChange(kept, topN);
    forall k | 0 <= k < |stocks|
      ensures Passes(cfg, stocks[k]) && stocks[k].market == market
    {
      assert stocks[k] in multiset(kept);
    }
  }

  // ----------------------------------------------------------- supply data

  /**
   * `get_supply_data` as a function of the fetched net-purchase table: no
   * table or an empty one gives `None`; otherwise the 5- and 20-day sums and
   * the trailing buy streaks of each column (0 for a missing column), and the
   * double-buy flag.
   */
  function SupplyOf(code: string, table: Option<NetPurchases>): (r: Option<SupplyData>)
    ensures r.Some? <==> table.Some? && table.value.rows > 0
    ensures r.Some? ==> r.value.code == code
    ensures r.Some? ==> (r.value.isDoubleBuy <==> r.value.foreignBuy5d > 0 && r.value.instBuy5d > 0)
    ensures r.Some? ==> r.value.foreignBuy5d == TailSum(table.value.foreign, 5) &&
                        r.value.instBuy5d == TailSum(table.value.inst, 5)
    ensures r.Some? ==> r.value.foreignBuy20d == TailSum(table.value.foreign, 20) &&
                        r.value.instBuy20d == TailSum(table.value.inst, 20)
    ensures r.Some? ==> r.value.foreignConsecutiveDays == Consecutive(table.value.foreign) &&
                        r.value.instConsecutiveDays == Consecutive(table.value.inst)
  {
    if table.None? || table.value.rows == 0 then None
    else
      var t := table.value;
      var f5 := TailSum(t.foreign, 5);
      var i5 := TailSum(t.inst, 5);
      Some(SupplyData(code, f5, TailSum(t.foreign, 20), Consecutive(t.foreign),
                      i5, TailSum(t.inst, 20), Consecutive(t.inst), f5 > 0 && i5 > 0))
  }

  /** `get_supply_data`: the sums, then the two streaks counted from the last row back. */
  method GetSupplyData(code: string, table: Option<NetPurchases>) returns (r: Option<SupplyData>)
    ensures r == SupplyOf(code, table)
  {
    if table.None? || table.value.rows == 0 {
      return None;
    }
    var t := table.value;
    var foreign5d := TailSum(t.foreign, 5);
    var foreign20d := TailSum(t.foreign, 20);
    var inst5d := TailSum(t.inst, 5);
    var inst20d := TailSum(t.inst, 20);
    var foreignConsecutive := CountConsecutiveBuys(t.foreign);
    var instConsecutive := CountConsecutiveBuys(t.inst);
    var isDouble := foreign5d > 0 && inst5d > 0;
    r := Some(SupplyData(code, foreign5d, foreign20d, foreignConsecutive,
                         inst5d, inst20d, instConsecutive, isDouble));
  }

  /** A table with positive foreign and institutional 5-day sums earns the scorer's full supply score and its checklist mark. */
  lemma DoubleBuyScoresFull(code: string, t: NetPurchases)
    requires t.rows > 0 && TailSum(t.foreign, 5) > 0 && TailSum(t.inst, 5) > 0
    ensures SupplyOf(code, Some(t)).Some? && SupplyOf(code, Some(t)).value.isDoubleBuy
    ensures Scorer.ScoreSupply(SupplyOf(code, Some(t))) == (2, true)
  {
  }

  // ------------------------------------------------------------------ news

  /** The relevance weight of each major news source. */
  function MajorSources(): (m: map<string, real>)
    ensures |m| == 9
    ensures forall s :: s in m ==> 0.8 <= m[s] <= 0.9
  {
    map["한국경제" := 0.9, "매일경제" := 0.9, "머니투데이" := 0.85, "서울경제" := 0.85,
        "이데일리" := 0.85, "연합뉴스" := 0.85, "뉴스1" := 0.8, "헤럴드경제" := 0.8,
        "파이낸셜뉴스" := 0.8]
  }

  /** A source's relevance: its major-source weight, or 0.7 for any other source. */
  function Relevance(source: string): (r: real)
    ensures 0.7 <= r <= 0.9
    ensures source !in MajorSources() ==> r == 0.7
    ensures source in MajorSources() ==> r == MajorSources()[source] && r >= 0.8
  {
    if source in MajorSources() then MajorSources()[source] else 0.7
  }

  /** A site-relative link (starting with "/") is made absolute on the finance site; any other link is kept. */
  function NewsUrl(link: string): (u: string)
    ensures StartsWith(link, "/") ==> u == "https://finance.naver.com" + link
    ensures !StartsWith(link, "/") ==> u == link
    ensures link != "" ==> u != ""
  {
    if StartsWith(link, "/") then "https://finance.naver.com" + link else link
  }

  /** The title anchor of a news row: its text and its `href` ("" when absent). */
  datatype Anchor = Anchor(title: string, href: string)

  /** One row of the news table: the title anchor, if any, and the source cell ("" when absent). */
  datatype NewsRow = NewsRow(anchor: Option<Anchor>, source: string)

  /** The item a row with a title anchor becomes, before its summary is fetched. */
  function ItemOf(a: Anchor, source: string): (n: NewsItem)
    ensures n.title == a.title && n.summary == "" && n.source == source
    ensures n.url == NewsUrl(a.href) && n.publishedAt.None?
    ensures n.relevance == Relevance(source)
  {
    NewsItem(a.title, "", source, NewsUrl(a.href), None, Relevance(source))
  }

  /** The item of a row with a title anchor; a row without one gives none. */
  function AnchoredItem(row: NewsRow): (n: Option<NewsItem>)
    ensures n.Some? <==> row.anchor.Some?
    ensures n.Some? ==> n.value == ItemOf(row.anchor.value, row.source)
  {
    match row.anchor
    case Some(a) => Some(ItemOf(a, row.source))
    case None => None
  }

  /**
   * The parse loop from a given point on: rows without a title anchor are
   * skipped, every other row appends its item, and the loop stops once there
   * are at least `limit` items.
   */
  function CollectFrom(rows: seq<NewsRow>, limit: int, acc: seq<NewsItem>): (r: seq<NewsItem>)
    ensures |acc| <= |r| <= |acc| + |rows|
    ensures r[..|acc|] == acc
    ensures |acc| < limit ==> |r| <= limit
    decreases |rows|
  {
    if rows == [] then acc
    else if rows[0].anchor.None? then CollectFrom(rows[1..], limit, acc)
    else
      var acc' := acc + [ItemOf(rows[0].anchor.value, rows[0].source)];
      if |acc'| >= limit then acc'
      else
        var r := CollectFrom(rows[1..], limit, acc');
        assert r[..|acc|] == r[..|acc'|][..|acc|];
        r
  }

  /**
   * The items the loop adds are the items of the anchored rows, in row order,
   * as many as the limit leaves room for, and at least one (the check on the
   * count follows the append).
   */
  lemma {:induction false} CollectFromTakesAnchored(rows: seq<NewsRow>, limit: int, acc: seq<NewsItem>)
    ensures CollectFrom(rows, limit, acc) == acc + Head(Kept(rows, AnchoredItem), Max(limit - |acc|, 1))
    decreases |rows|
  {
    if rows != [] {
      var rest := Kept(rows[1..], AnchoredItem);
      var n := Max(limit - |acc|, 1);
      KeptCons(rows, AnchoredItem);
      match rows[0].anchor
      case None =>
        assert Kept(rows, AnchoredItem) == rest;
        CollectFromTakesAnchored(rows[1..], limit, acc);
      case Some(a) =>
        var x := ItemOf(a, rows[0].source);
        assert Kept(rows, AnchoredItem) == [x] + rest;
        HeadCons(x, rest, n);
        if |acc| + 1 < limit {
          CollectFromTakesAnchored(rows[1..], limit, acc + [x]);
          assert Max(limit - |acc + [x]|, 1) == n - 1;
        } else {
          assert Head(rest, n - 1) == [];
        }
    }
  }

  /** The characters Python's `\\s` matches in a string pattern: ASCII and Unicode whitespace. */
  predicate IsSpace(c: char) {
    c == ' ' || '\t' <= c <= '\r' || '\U{1C}' <= c <= '\U{1F}' || c == '\U{85}' || c == '\U{A0}' ||
    c == '\U{1680}' || '\U{2000}' <= c <= '\U{200A}' || c == '\U{2028}' || c == '\U{2029}' ||
    c == '\U{202F}' || c == '\U{205F}' || c == '\U{3000}'
  }

  /** The characters of `s` that are not whitespace, in order. */
  function Visible(s: string): seq<char> {
    if s == [] then [] else (if IsSpace(s[0]) then [] else [s[0]]) + Visible(s[1..])
  }

  /** `s` without its leading whitespace. */
  function DropSpaces(s: string): (r: string)
    ensures |r| <= |s|
    ensures r != [] ==> !IsSpace(r[0])
    ensures Visible(r) == Visible(s)
  {
    if s != [] && IsSpace(s[0]) then DropSpaces(s[1..]) else s
  }

  /**
   * `re.sub(r'\s+', ' ', s)`: every run of whitespace becomes one space. The
   * result holds no whitespace other than single spaces, never two in a row,
   * keeps every other character in order, and is no longer than `s`.
   */
  function CollapseSpaces(s: string): (r: string)
    ensures |r| <= |s|
    ensures forall i :: 0 <= i < |r| && IsSpace(r[i]) ==> r[i] == ' '
    ensures forall i :: 0 <= i < |r| - 1 ==> !(r[i] == ' ' && r[i + 1] == ' ')
    ensures s != [] && !IsSpace(s[0]) ==> r != [] && r[0] == s[0]
    ensures s != [] ==> r != []
    ensures Visible(r) == Visible(s)
    decreases |s|
  {
    if s == [] then []
    else if IsSpace(s[0]) then
      var rest := CollapseSpaces(DropSpaces(s[1..]));
      assert ([' '] + rest)[1..] == rest;
      [' '] + rest
    else
      var rest := CollapseSpaces(s[1..]);
      assert ([s[0]] + rest)[1..] == rest;
      [s[0]] + rest
  }

  /** A string with no whitespace other than single spaces is left unchanged. */
  lemma {:induction false} CollapseKeepsCollapsed(s: string)
    requires forall i :: 0 <= i < |s| && IsSpace(s[i]) ==> s[i] == ' '
    requires forall i :: 0 <= i < |s| - 1 ==> !(s[i] == ' ' && s[i + 1] == ' ')
    ensures CollapseSpaces(s) == s
    decreases |s|
  {
    if s != [] {
      var t := s[1..];
      assert forall i :: 0 <= i < |t| ==> t[i] == s[i + 1];
      if IsSpace(s[0]) {
        assert t == [] || !IsSpace(t[0]) by {
          if t != [] { assert s[0] == ' '; assert s[1] == t[0]; }
        }
        assert DropSpaces(t) == t;
        CollapseKeepsCollapsed(t);
      } else {
        CollapseKeepsCollapsed(t);
      }
    }
  }

  /** `_fetch_news_summary` on an article's body text: whitespace collapsed, then cut to 200 characters plus "..." when longer. */
  function Summarize(content: string): (r: string)
    ensures |r| <= 203
    ensures |CollapseSpaces(content)| <= 200 ==> r == CollapseSpaces(content)
    ensures |CollapseSpaces(content)| > 200 ==>
              |r| == 203 && r[..200] == CollapseSpaces(content)[..200] && r[200..] == "..."
  {
    var c := CollapseSpaces(content);
    if |c| > 200 then c[..200] + "..." else c
  }

  /** The summary of the article at `url`: "" when the page fails or has no body text. */
  function FetchSummary(body: string -> Option<string>, url: string): (r: string)
    ensures |r| <= 203
    ensures body(url).None? ==> r == ""
    ensures body(url) == Some("") ==> r == ""
    ensures body(url).Some? && body(url).value != "" ==> r == Summarize(body(url).value)
  {
    match body(url)
    case None => ""
    case Some(content) => if content == "" then "" else Summarize(content)
  }

  /** Each of items 0, 1 and 2 that has a non-empty url gets its article summary; the rest are kept as they are. */
  function WithSummaries(items: seq<NewsItem>, body: string -> Option<string>): (r: seq<NewsItem>)
    ensures |r| == |items|
    ensures forall k :: 0 <= k < |r| ==>
              r[k] == (if k < 3 && items[k].url != "" then items[k].(summary := FetchSummary(body, items[k].url))
                       else items[k])
  {
    seq(|items|, k requires 0 <= k < |items| =>
      if k < 3 && items[k].url != "" then items[k].(summary := FetchSummary(body, items[k].url)) else items[k])
  }

  /** `get_stock_news` as a function of the fetched news table (`None`: a failed request or no table). */
  function NewsOf(page: Option<seq<NewsRow>>, limit: int, body: string -> Option<string>): (r: seq<NewsItem>)
    ensures page.None? ==> r == []
    ensures page.Some? ==>
              r == WithSummaries(Head(Kept(Head(page.value, limit * 2), AnchoredItem), Max(limit, 1)), body)
  {
    match page
    case None => []
    case Some(rows) =>
      CollectFromTakesAnchored(Head(rows, limit * 2), limit, []);
      WithSummaries(CollectFrom(Head(rows, limit * 2), limit, []), body)
  }

  /**
   * `get_stock_news`: parses the first `2 * limit` rows until `limit` items
   * are collected, then fills in the summaries of the first three.
   */
  method GetStockNews(page: Option<seq<NewsRow>>, limit: int, body: string -> Option<string>)
    returns (items: seq<NewsItem>)
    ensures items == NewsOf(page, limit, body)
    ensures limit >= 0 ==> |items| <= limit
    ensures forall k :: 0 <= k < |items| ==> 0.7 <= items[k].relevance <= 0.9 && items[k].publishedAt.None?
    ensures forall k :: 0 <= k < |items| ==> |items[k].summary| <= 203
  {
    if page.None? {
      return [];
    }
    var rows := Head(page.value, limit * 2);
    var parsed := ParseNewsRows(rows, limit);
    items := FillSummaries(parsed, body);
  }

  /** The parse loop of `get_stock_news`: items from the rows with a title anchor, until `limit` are collected. */
  method ParseNewsRows(rows: seq<NewsRow>, limit: int) returns (items: seq<NewsItem>)
    ensures items == CollectFrom(rows, limit, [])
    ensures forall k :: 0 <= k < |items| ==> 0.7 <= items[k].relevance <= 0.9 &&
                                             items[k].publishedAt.None? && items[k].summary == ""
  {
    items := [];
    var i := 0;
    var done := false;
    while i < |rows| && !done
      invariant 0 <= i <= |rows|
      invariant done ==> CollectFrom(rows, limit, []) == items
      invariant !done ==> CollectFrom(rows, limit, []) == CollectFrom(rows[i..], limit, items)
      invariant !done ==> |items| < limit || items == []
      invariant forall k :: 0 <= k < |items| ==> 0.7 <= items[k].relevance <= 0.9 &&
                                                 items[k].publishedAt.None? && items[k].summary == ""
      decreases |rows| - i, !done
    {
      assert rows[i..][1..] == rows[i + 1..];
      var row := rows[i];
      if row.anchor.Some? {
        items := items + [ItemOf(row.anchor.value, row.source)];
        if |items| >= limit {
          done := true;
        }
      }
      i := i + 1;
    }
    if !done {
      assert rows[i..] == [];
    }
  }

  /** The summary loop of `get_stock_news`: each of items 0, 1 and 2 that has a url gets its article summary. */
  method FillSummaries(items: seq<NewsItem>, body: string -> Option<string>) returns (fetched: seq<NewsItem>)
    ensures fetched == WithSummaries(items, body)
  {
    fetched := items;
    var j := 0;
    while j < |items| && j < 3
      invariant 0 <= j <= |items|
      invariant |fetched| == |items|
      invariant forall k :: 0 <= k < |items| ==>
                  fetched[k] == (if k < j && items[k].url != "" then items[k].(summary := FetchSummary(body, items[k].url))
                                 else items[k])
    {
      if items[j].url != "" {
        fetched := fetched[j := items[j].(summary := FetchSummary(body, items[j].url))];
      }
      j := j + 1;
    }
  }
}
