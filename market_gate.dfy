/**
 * The market gate (market_gate.py): index moving-average alignment, a
 * clamped per-sector score, and the additive rule table that starts at 50,
 * is clamped to [0, 100] and is bucketed into GREEN, YELLOW or RED.
 * Fetched price series are parameters; an empty series means "no data".
 */
module MarketGate {

  import opened Wrappers
  import opened Series
  import opened Sorting

  // ------------------------------------------------------------ index analysis

  /** 정배열 (bullish), 역배열 (bearish) or 혼조 (mixed). */
  datatype Alignment = Bullish | Bearish | Mixed

  function AlignmentLabel(a: Alignment): string {
    match a
    case Bullish => "정배열"
    case Bearish => "역배열"
    case Mixed => "혼조"
  }

  /** The alignment of a close and its 5-, 20- and 60-bar moving averages. */
  function AlignmentOf(close: real, ma5: real, ma20: real, ma60: real): (a: Alignment)
    ensures a == Bullish <==> close > ma5 > ma20 > ma60
    ensures a == Bearish <==> close < ma5 < ma20 < ma60
    ensures a == Mixed <==> !(close > ma5 > ma20 > ma60) && !(close < ma5 < ma20 < ma60)
  {
    if close > ma5 > ma20 > ma60 then Bullish
    else if close < ma5 < ma20 < ma60 then Bearish
    else Mixed
  }

  /** The tickers `_analyze_index` knows (the `INDEX_TICKERS` table). */
  function IndexTickers(): map<string, string> {
    map["KOSPI" := "^KS11", "KOSDAQ" := "^KQ11", "USD/KRW" := "KRW=X", "VIX" := "^VIX"]
  }

  /** The dictionary `_analyze_index` returns when it has data. */
  datatype IndexAnalysis = IndexAnalysis(name: string, close: real, change: real, changePct: real,
                                         ma5: real, ma20: real, ma60: real,
                                         alignment: Alignment, rsi: real)

  /** The close before the last one, or the last one again for a one-row series. */
  function PrevClose(closes: seq<real>): real
    requires |closes| > 0
  {
    if |closes| > 1 then closes[|closes| - 2] else closes[|closes| - 1]
  }

  /** The 60-bar mean, or the mean of every close when there are fewer than 60. */
  function Ma60(closes: seq<real>): (m: real)
    requires |closes| > 0
    ensures |closes| >= 60 ==> m == Mean(closes[|closes| - 60..])
    ensures |closes| < 60 ==> m == Mean(closes)
  {
    if |closes| >= 60 then Mean(Tail(closes, 60)) else Mean(closes)
  }

  /**
   * `_analyze_index` over the fetched closes: an unknown index name, an empty
   * series or a zero previous close (whose division raises and is caught) give
   * no analysis. The RSI is an input; a missing (NaN) RSI reads as 50.
   */
  function AnalyzeIndex(name: string, closes: seq<real>, rsi: Option<real>): (r: Option<IndexAnalysis>)
    ensures name !in IndexTickers() || closes == [] ==> r.None?
    ensures |closes| > 0 && PrevClose(closes) == 0.0 ==> r.None?
    ensures r.Some? ==>
              var n := |closes|;
              n > 0 &&
              r.value.name == name &&
              r.value.close == closes[n - 1] &&
              r.value.change == closes[n - 1] - PrevClose(closes) &&
              r.value.changePct == ((closes[n - 1] - PrevClose(closes)) / PrevClose(closes)) * 100.0 &&
              r.value.ma5 == Mean(closes[n - Min(5, n)..]) &&
              r.value.ma20 == Mean(closes[n - Min(20, n)..]) &&
              r.value.ma60 == Ma60(closes) &&
              r.value.alignment == AlignmentOf(r.value.close, r.value.ma5, r.value.ma20, r.value.ma60) &&
              r.value.rsi == rsi.GetOr(50.0)
    ensures name in IndexTickers() && |closes| > 0 && PrevClose(closes) != 0.0 ==> r.Some?
  {
    if name !in IndexTickers() || closes == [] then None
    else
      var close := closes[|closes| - 1];
      var prev := PrevClose(closes);
      if prev == 0.0 then None
      else
        var change := close - prev;
        var changePct := (change / prev) * 100.0;
        var ma5 := Mean(Tail(closes, 5));
        var ma20 := Mean(Tail(closes, 20));
        var ma60 := Ma60(closes);
        Some(IndexAnalysis(name, close, change, changePct, ma5, ma20, ma60,
                           AlignmentOf(close, ma5, ma20, ma60), rsi.GetOr(50.0)))
  }

  /** The dictionary `_get_usd_krw` returns. */
  datatype FxQuote = FxQuote(rate: real, changePct: real)

  /** `_get_usd_krw`: no data, or a zero previous close, falls back to 1350 and 0%. */
  function UsdKrw(closes: seq<real>): (q: FxQuote)
    ensures closes == [] ==> q == FxQuote(1350.0, 0.0)
    ensures |closes| > 0 && PrevClose(closes) == 0.0 ==> q == FxQuote(1350.0, 0.0)
    ensures |closes| > 0 && PrevClose(closes) != 0.0 ==> q.rate == closes[|closes| - 1]
  {
    if closes == [] then FxQuote(1350.0, 0.0)
    else
      var rate := closes[|closes| - 1];
      var prev := PrevClose(closes);
      if prev == 0.0 then FxQuote(1350.0, 0.0)
      else FxQuote(rate, ((rate - prev) / prev) * 100.0)
  }

  // ---------------------------------------------------------------- sectors

  /** `SECTOR_ETFS`, in its insertion order: (sector name, ETF ticker). */
  function SectorEtfs(): (etfs: seq<(string, string)>)
    ensures |etfs| == 10
  {
    [("반도체", "091160.KS"), ("2차전지", "305720.KS"), ("자동차", "091180.KS"),
     ("바이오", "244580.KS"), ("금융", "091170.KS"), ("철강", "117700.KS"),
     ("건설", "117680.KS"), ("화학", "117690.KS"), ("IT", "091160.KS"),
     ("에너지", "117460.KS")]
  }

  /** One entry of the `_analyze_sectors` list. */
  datatype Sector = Sector(name: string, ticker: string, close: real, changePct: real,
                           vsMa20: real, score: real)

  /**
   * The sector score: the close's distance from its 20-bar mean in percent,
   * plus 50, clamped to [0, 100].
   */
  function SectorScore(close: real, ma20: real): (s: real)
    requires ma20 != 0.0
    ensures 0.0 <= s <= 100.0
    ensures 0.0 <= ((close - ma20) / ma20 * 100.0) + 50.0 <= 100.0 ==> s == ((close - ma20) / ma20 * 100.0) + 50.0
    ensures ((close - ma20) / ma20 * 100.0) + 50.0 < 0.0 ==> s == 0.0
    ensures ((close - ma20) / ma20 * 100.0) + 50.0 > 100.0 ==> s == 100.0
  {
    ClampReal(((close - ma20) / ma20 * 100.0) + 50.0, 0.0, 100.0)
  }

  /** For a positive mean, the score is above 50 exactly when the close is above the mean, and 50 when equal. */
  lemma SectorScoreMidpoint(close: real, ma20: real)
    requires ma20 > 0.0
    ensures SectorScore(close, ma20) > 50.0 <==> close > ma20
    ensures SectorScore(close, ma20) == 50.0 <==> close == ma20
  {
    QuotientSign(close - ma20, ma20);
  }

  lemma QuotientSign(x: real, d: real)
    requires d > 0.0
    ensures x / d > 0.0 <==> x > 0.0
    ensures x / d == 0.0 <==> x == 0.0
  {
    var q := x / d;
    assert q * d == x;
    if q > 0.0 {
      assert q * d > 0.0;
    } else if q < 0.0 {
      assert (-q) * d > 0.0;
    }
  }

  /**
   * One iteration of `_analyze_sectors`: no data, a zero previous close or a
   * zero 20-bar mean (whose divisions raise and are caught) skip the sector.
   */
  function AnalyzeSector(name: string, ticker: string, closes: seq<real>): (r: Option<Sector>)
    ensures closes == [] ==> r.None?
    ensures |closes| > 0 && PrevClose(closes) == 0.0 ==> r.None?
    ensures |closes| > 0 && Mean(Tail(closes, 20)) == 0.0 ==> r.None?
    ensures |closes| > 0 && PrevClose(closes) != 0.0 && Mean(Tail(closes, 20)) != 0.0 ==> r.Some?
    ensures r.Some? ==> r.value.close == closes[|closes| - 1] &&
                        r.value.changePct == ((closes[|closes| - 1] - PrevClose(closes)) / PrevClose(closes)) * 100.0 &&
                        r.value.vsMa20 == (closes[|closes| - 1] / Mean(Tail(closes, 20)) - 1.0) * 100.0
    ensures r.Some? ==> r.value.name == name && r.value.ticker == ticker && 0.0 <= r.value.score <= 100.0
    ensures r.Some? ==> |closes| > 0 && Mean(Tail(closes, 20)) != 0.0 &&
                        r.value.score == SectorScore(closes[|closes| - 1], Mean(Tail(closes, 20)))
  {
    if closes == [] then None
    else
      var close := closes[|closes| - 1];
      var prev := PrevClose(closes);
      if prev == 0.0 then None
      else
        var changePct := ((close - prev) / prev) * 100.0;
        var ma20 := Mean(Tail(closes, 20));
        if ma20 == 0.0 then None
        else Some(Sector(name, ticker, close, changePct, (close / ma20 - 1.0) * 100.0, SectorScore(close, ma20)))
  }

  /** One ETF of the loop: no data skips it, otherwise it is analysed. */
  function ScannedSector(etf: (string, string), fetch: string -> Option<seq<real>>): (r: Option<Sector>)
    ensures fetch(etf.1).None? ==> r.None?
    ensures fetch(etf.1).Some? ==> r == AnalyzeSector(etf.0, etf.1, fetch(etf.1).value)
  {
    match fetch(etf.1)
    case None => None
    case Some(closes) => AnalyzeSector(etf.0, etf.1, closes)
  }

  /** The sectors collected, in list order, before sorting. */
  function CollectSectors(etfs: seq<(string, string)>, fetch: string -> Option<seq<real>>): (r: seq<Sector>)
    ensures |r| <= |etfs|
    ensures forall i :: 0 <= i < |r| ==> 0.0 <= r[i].score <= 100.0
  {
    if etfs == [] then []
    else
      var rest := CollectSectors(etfs[..|etfs| - 1], fetch);
      match ScannedSector(etfs[|etfs| - 1], fetch)
      case None => rest
      case Some(s) => rest + [s]
  }

  /** One more ETF appends its sector, if any, to those collected before it. */
  lemma CollectSectorsStep(etfs: seq<(string, string)>, i: int, fetch: string -> Option<seq<real>>)
    requires 0 <= i < |etfs|
    ensures CollectSectors(etfs[..i + 1], fetch) ==
              CollectSectors(etfs[..i], fetch) + (match ScannedSector(etfs[i], fetch) case Some(s) => [s] case None => [])
  {
    assert etfs[..i + 1][..i] == etfs[..i];
    assert etfs[..i + 1][i] == etfs[i];
  }

  /** The scan step for one ETF, as a function of the ETF. */
  function ScanEtf(fetch: string -> Option<seq<real>>): ((string, string)) -> Option<Sector> {
    (etf: (string, string)) => ScannedSector(etf, fetch)
  }

  /**
   * The scan keeps exactly the sectors `ScannedSector` yields, in ETF order:
   * it is `Kept` of the step, and a sector is in it iff some ETF yields it.
   */
  lemma {:induction false} CollectSectorsIsKept(etfs: seq<(string, string)>, fetch: string -> Option<seq<real>>)
    ensures CollectSectors(etfs, fetch) == Kept(etfs, ScanEtf(fetch))
    ensures forall s :: s in CollectSectors(etfs, fetch) <==>
              exists i :: 0 <= i < |etfs| && ScannedSector(etfs[i], fetch) == Some(s)
  {
    if etfs != [] {
      CollectSectorsIsKept(etfs[..|etfs| - 1], fetch);
    }
    forall s
      ensures s in CollectSectors(etfs, fetch) <==>
              exists i :: 0 <= i < |etfs| && ScannedSector(etfs[i], fetch) == Some(s)
    {
      KeptMembers(etfs, ScanEtf(fetch), s);
    }
  }

  /** "May come before" for a sort by score, highest first. */
  function ByScoreDesc(): (Sector, Sector) -> bool {
    (a: Sector, b: Sector) => a.score >= b.score
  }

  lemma ByScoreDescIsPreorder()
    ensures TotalPreorder(ByScoreDesc())
  {
  }

  /** The fetch-and-score loop of `_analyze_sectors`, in ETF order. */
  method CollectSectorData(etfs: seq<(string, string)>, fetch: string -> Option<seq<real>>)
    returns (collected: seq<Sector>)
    ensures collected == CollectSectors(etfs, fetch)
  {
    collected := [];
    var i := 0;
    while i < |etfs|
      invariant 0 <= i <= |etfs|
      invariant collected == CollectSectors(etfs[..i], fetch)
    {
      var (name, ticker) := etfs[i];
      var data := fetch(ticker);
      var s: Option<Sector> := None;
      if data.Some? {
        s := AnalyzeSector(name, ticker, data.value);
      }
      assert s == ScannedSector(etfs[i], fetch);
      CollectSectorsStep(etfs, i, fetch);
      if s.Some? {
        collected := collected + [s.value];
      }
      i := i + 1;
    }
    assert etfs[..|etfs|] == etfs;
  }

  /**
   * `_analyze_sectors`: the first six ETFs, each fetched and scored, then
   * sorted by score descending.
   */
  method AnalyzeSectors(fetch: string -> Option<seq<real>>) returns (sectors: seq<Sector>)
    ensures multiset(sectors) == multiset(CollectSectors(Head(SectorEtfs(), 6), fetch))
    ensures forall i, j :: 0 <= i < j < |sectors| ==> sectors[i].score >= sectors[j].score
    ensures |sectors| <= 6
    ensures forall i :: 0 <= i < |sectors| ==> 0.0 <= sectors[i].score <= 100.0
  {
    var collected := CollectSectorData(Head(SectorEtfs(), 6), fetch);
    ByScoreDescIsPreorder();
    sectors := SortBy(collected, ByScoreDesc());
    assert |sectors| == |collected| by {
      assert |multiset(sectors)| == |multiset(collected)|;
    }
    forall k | 0 <= k < |sectors|
      ensures 0.0 <= sectors[k].score <= 100.0
    {
      assert sectors[k] in multiset(collected);
    }
  }

  // ---------------------------------------------------------------- the gate

  datatype Gate = Green | Yellow | Red

  /** The reasons `_determine_gate` lists, one per rule that fired. */
  datatype Reason =
    | KospiAligned          // KOSPI 정배열
    | KospiReversed         // KOSPI 역배열
    | KospiOverbought       // KOSPI RSI 과매수
    | KospiOversold         // KOSPI RSI 과매도 반등 기대
    | FxDanger              // 환율 위험 (>1450)
    | FxWarning             // 환율 경고 (>1400)
    | FxStable              // 환율 안정 (<1300)
    | StrongSectors(n: nat) // 강세 섹터 n개
    | WeakSectors(n: nat)   // 약세 섹터 n개

  /** The `analysis` dictionary. */
  datatype GateAnalysis = GateAnalysis(reasons: seq<Reason>, kospiAlignment: Option<Alignment>,
                                       kosdaqAlignment: Option<Alignment>, usdKrwRate: real,
                                       strongSectors: seq<string>, weakSectors: seq<string>)

  /** KOSPI alignment: bullish +10, bearish -15. */
  function AlignPoints(a: Alignment): (p: real)
    ensures a == Bullish ==> p == 10.0
    ensures a == Bearish ==> p == -15.0
    ensures a == Mixed ==> p == 0.0
  {
    if a == Bullish then 10.0 else if a == Bearish then -15.0 else 0.0
  }

  /** KOSPI RSI: above 70 (overbought) -5, below 30 (oversold) +5. */
  function RsiPoints(rsi: real): (p: real)
    ensures rsi > 70.0 ==> p == -5.0
    ensures rsi < 30.0 ==> p == 5.0
    ensures 30.0 <= rsi <= 70.0 ==> p == 0.0
  {
    if rsi > 70.0 then -5.0 else if rsi < 30.0 then 5.0 else 0.0
  }

  /** KOSPI daily change: above 1% +5, below -1% -5. */
  function ChangePoints(changePct: real): (p: real)
    ensures changePct > 1.0 ==> p == 5.0
    ensures changePct < -1.0 ==> p == -5.0
    ensures -1.0 <= changePct <= 1.0 ==> p == 0.0
  {
    if changePct > 1.0 then 5.0 else if changePct < -1.0 then -5.0 else 0.0
  }

  /** The alignment rule's reason, if it fired. */
  function AlignReasons(a: Alignment): (rs: seq<Reason>)
    ensures a == Bullish ==> rs == [KospiAligned]
    ensures a == Bearish ==> rs == [KospiReversed]
    ensures a == Mixed ==> rs == []
  {
    if a == Bullish then [KospiAligned] else if a == Bearish then [KospiReversed] else []
  }

  /** The RSI rule's reason, if it fired. */
  function RsiReasons(rsi: real): (rs: seq<Reason>)
    ensures rsi > 70.0 ==> rs == [KospiOverbought]
    ensures rsi < 30.0 ==> rs == [KospiOversold]
    ensures 30.0 <= rsi <= 70.0 ==> rs == []
  {
    if rsi > 70.0 then [KospiOverbought] else if rsi < 30.0 then [KospiOversold] else []
  }

  /** KOSPI: the alignment, RSI and daily-change rules added together. */
  function KospiPoints(kospi: Option<IndexAnalysis>): (p: real)
    ensures kospi.None? ==> p == 0.0
    ensures kospi.Some? ==>
              p == AlignPoints(kospi.value.alignment) + RsiPoints(kospi.value.rsi) + ChangePoints(kospi.value.changePct)
    ensures -25.0 <= p <= 20.0
  {
    match kospi
    case None => 0.0
    case Some(k) => AlignPoints(k.alignment) + RsiPoints(k.rsi) + ChangePoints(k.changePct)
  }

  /** The KOSPI reasons: the alignment reason, then the RSI reason; the daily-change rule never adds one. */
  function KospiReasons(kospi: Option<IndexAnalysis>): (rs: seq<Reason>)
    ensures kospi.None? ==> rs == []
    ensures kospi.Some? ==> rs == AlignReasons(kospi.value.alignment) + RsiReasons(kospi.value.rsi)
    ensures |rs| <= 2
    ensures KospiAligned in rs <==> kospi.Some? && kospi.value.alignment == Bullish
    ensures KospiReversed in rs <==> kospi.Some? && kospi.value.alignment == Bearish
    ensures KospiOverbought in rs <==> kospi.Some? && kospi.value.rsi > 70.0
    ensures KospiOversold in rs <==> kospi.Some? && kospi.value.rsi < 30.0
  {
    match kospi
    case None => []
    case Some(k) => AlignReasons(k.alignment) + RsiReasons(k.rsi)
  }

  /** KOSDAQ: alignment +5/-10, and no reason. */
  function KosdaqPoints(kosdaq: Option<IndexAnalysis>): (p: real)
    ensures kosdaq.None? ==> p == 0.0
    ensures kosdaq.Some? && kosdaq.value.alignment == Bullish ==> p == 5.0
    ensures kosdaq.Some? && kosdaq.value.alignment == Bearish ==> p == -10.0
    ensures kosdaq.Some? && kosdaq.value.alignment == Mixed ==> p == 0.0
  {
    match kosdaq
    case None => 0.0
    case Some(k) => if k.alignment == Bullish then 5.0 else if k.alignment == Bearish then -10.0 else 0.0
  }

  /** The exchange rate: above 1450 -15, above 1400 -10, below 1300 +5. */
  function FxPoints(fx: Option<FxQuote>): (p: real)
    ensures fx.None? ==> p == 0.0
    ensures -15.0 <= p <= 5.0
    ensures fx.Some? ==> (p == -15.0 <==> fx.value.rate > 1450.0)
    ensures fx.Some? ==> (p == -10.0 <==> 1400.0 < fx.value.rate <= 1450.0)
    ensures fx.Some? ==> (p == 5.0 <==> fx.value.rate < 1300.0)
    ensures fx.Some? && 1300.0 <= fx.value.rate <= 1400.0 ==> p == 0.0
  {
    match fx
    case None => 0.0
    case Some(q) =>
      if q.rate > 1450.0 then -15.0
      else if q.rate > 1400.0 then -10.0
      else if q.rate < 1300.0 then 5.0
      else 0.0
  }

  function FxReasons(fx: Option<FxQuote>): (rs: seq<Reason>)
    ensures fx.None? ==> rs == []
    ensures |rs| <= 1
    ensures FxDanger in rs <==> fx.Some? && fx.value.rate > 1450.0
    ensures FxWarning in rs <==> fx.Some? && 1400.0 < fx.value.rate <= 1450.0
    ensures FxStable in rs <==> fx.Some? && fx.value.rate < 1300.0
    ensures fx.Some? && fx.value.rate > 1450.0 ==> rs == [FxDanger]
    ensures fx.Some? && 1400.0 < fx.value.rate <= 1450.0 ==> rs == [FxWarning]
    ensures fx.Some? && fx.value.rate < 1300.0 ==> rs == [FxStable]
    ensures fx.Some? && 1300.0 <= fx.value.rate <= 1400.0 ==> rs == []
  {
    match fx
    case None => []
    case Some(q) =>
      if q.rate > 1450.0 then [FxDanger]
      else if q.rate > 1400.0 then [FxWarning]
      else if q.rate < 1300.0 then [FxStable]
      else []
  }

  /** The number of sectors scoring above 60. */
  function StrongCount(sectors: seq<Sector>): (n: nat)
    ensures n <= |sectors|
  {
    if sectors == [] then 0
    else StrongCount(sectors[..|sectors| - 1]) + (if sectors[|sectors| - 1].score > 60.0 then 1 else 0)
  }

  /** The number of sectors scoring below 40. */
  function WeakCount(sectors: seq<Sector>): (n: nat)
    ensures n <= |sectors|
  {
    if sectors == [] then 0
    else WeakCount(sectors[..|sectors| - 1]) + (if sectors[|sectors| - 1].score < 40.0 then 1 else 0)
  }

  /** A sector cannot be both strong and weak, so the two counts never exceed the list. */
  lemma {:induction false} StrongWeakDisjoint(sectors: seq<Sector>)
    ensures StrongCount(sectors) + WeakCount(sectors) <= |sectors|
  {
    if sectors != [] {
      StrongWeakDisjoint(sectors[..|sectors| - 1]);
    }
  }

  /** Sectors: at least four strong +10, else at least four weak -10. */
  function SectorPoints(sectors: seq<Sector>): (p: real)
    ensures sectors == [] ==> p == 0.0
    ensures p == 10.0 <==> StrongCount(sectors) >= 4
    ensures p == -10.0 <==> StrongCount(sectors) < 4 && WeakCount(sectors) >= 4
    ensures p == 0.0 || p == 10.0 || p == -10.0
  {
    if sectors == [] then 0.0
    else if StrongCount(sectors) >= 4 then 10.0
    else if WeakCount(sectors) >= 4 then -10.0
    else 0.0
  }

  function SectorReasons(sectors: seq<Sector>): (rs: seq<Reason>)
    ensures sectors == [] ==> rs == []
    ensures |rs| <= 1
    ensures rs == [StrongSectors(StrongCount(sectors))] <==> StrongCount(sectors) >= 4
    ensures rs == [WeakSectors(WeakCount(sectors))] <==> StrongCount(sectors) < 4 && WeakCount(sectors) >= 4
    ensures StrongCount(sectors) < 4 && WeakCount(sectors) < 4 ==> rs == []
  {
    if sectors == [] then []
    else if StrongCount(sectors) >= 4 then [StrongSectors(StrongCount(sectors))]
    else if WeakCount(sectors) >= 4 then [WeakSectors(WeakCount(sectors))]
    else []
  }

  /** The names of the sectors scoring above 60, in list order. */
  function StrongNames(sectors: seq<Sector>): (names: seq<string>)
    ensures |names| == StrongCount(sectors)
    ensures forall n :: n in names <==> exists i :: 0 <= i < |sectors| && sectors[i].score > 60.0 && sectors[i].name == n
  {
    if sectors == [] then []
    else
      var init := sectors[..|sectors| - 1];
      assert forall i :: 0 <= i < |init| ==> init[i] == sectors[i];
      StrongNames(init) +
      (if sectors[|sectors| - 1].score > 60.0 then [sectors[|sectors| - 1].name] else [])
  }

  /** The strong names of a concatenation are those of each part, in order. */
  lemma {:induction false} StrongNamesAppend(a: seq<Sector>, b: seq<Sector>)
    ensures StrongNames(a + b) == StrongNames(a) + StrongNames(b)
    decreases |b|
  {
    if b == [] {
      assert a + b == a;
    } else {
      var b0 := b[..|b| - 1];
      assert (a + b)[..|a + b| - 1] == a + b0;
      StrongNamesAppend(a, b0);
    }
  }

  /** The names of the sectors scoring below 40, in list order. */
  function WeakNames(sectors: seq<Sector>): (names: seq<string>)
    ensures |names| == WeakCount(sectors)
    ensures forall n :: n in names <==> exists i :: 0 <= i < |sectors| && sectors[i].score < 40.0 && sectors[i].name == n
  {
    if sectors == [] then []
    else
      var init := sectors[..|sectors| - 1];
      assert forall i :: 0 <= i < |init| ==> init[i] == sectors[i];
      WeakNames(init) +
      (if sectors[|sectors| - 1].score < 40.0 then [sectors[|sectors| - 1].name] else [])
  }

  /** The weak names of a concatenation are those of each part, in order. */
  lemma {:induction false} WeakNamesAppend(a: seq<Sector>, b: seq<Sector>)
    ensures WeakNames(a + b) == WeakNames(a) + WeakNames(b)
    decreases |b|
  {
    if b == [] {
      assert a + b == a;
    } else {
      var b0 := b[..|b| - 1];
      assert (a + b)[..|a + b| - 1] == a + b0;
      WeakNamesAppend(a, b0);
    }
  }

  /** GREEN from 70, YELLOW from 40, else RED. */
  function GateOf(score: real): (g: Gate)
    ensures g == Green <==> score >= 70.0
    ensures g == Yellow <==> 40.0 <= score < 70.0
    ensures g == Red <==> score < 40.0
  {
    if score >= 70.0 then Green else if score >= 40.0 then Yellow else Red
  }

  /** Every rule's points, added to the base of 50. */
  function RawGateScore(kospi: Option<IndexAnalysis>, kosdaq: Option<IndexAnalysis>,
                        fx: Option<FxQuote>, sectors: seq<Sector>): real
  {
    50.0 + KospiPoints(kospi) + KosdaqPoints(kosdaq) + FxPoints(fx) + SectorPoints(sectors)
  }

  /**
   * `_determine_gate`: the score starts at 50 and each rule adds its points;
   * reasons are appended as rules fire; the result is clamped to [0, 100]
   * and bucketed. Missing inputs contribute nothing.
   */
  method DetermineGate(kospi: Option<IndexAnalysis>, kosdaq: Option<IndexAnalysis>,
                       fx: Option<FxQuote>, sectors: seq<Sector>)
    returns (gate: Gate, score: real, analysis: GateAnalysis)
    ensures score == ClampReal(RawGateScore(kospi, kosdaq, fx, sectors), 0.0, 100.0)
    ensures 0.0 <= score <= 100.0
    ensures gate == GateOf(score)
    ensures analysis.reasons == KospiReasons(kospi) + FxReasons(fx) + SectorReasons(sectors)
    ensures analysis.kospiAlignment == (if kospi.Some? then Some(kospi.value.alignment) else None)
    ensures analysis.kosdaqAlignment == (if kosdaq.Some? then Some(kosdaq.value.alignment) else None)
    ensures analysis.usdKrwRate == (if fx.Some? then fx.value.rate else 0.0)
    ensures analysis.strongSectors == Head(StrongNames(sectors), 3)
    ensures analysis.weakSectors == Head(WeakNames(sectors), 3)
    ensures |analysis.strongSectors| <= 3 && |analysis.weakSectors| <= 3
  {
    score := 50.0;
    var reasons: seq<Reason> := [];
    score, reasons := ApplyKospi(score, reasons, kospi);
    assert reasons == KospiReasons(kospi);
    score := ApplyKosdaq(score, kosdaq);
    score, reasons := ApplyFx(score, reasons, fx);
    score, reasons := ApplySectors(score, reasons, sectors);

    assert score == RawGateScore(kospi, kosdaq, fx, sectors);
    score := ClampReal(score, 0.0, 100.0);

    if score >= 70.0 {
      gate := Green;
    } else if score >= 40.0 {
      gate := Yellow;
    } else {
      gate := Red;
    }

    analysis := GateAnalysis(
      reasons,
      if kospi.Some? then Some(kospi.value.alignment) else None,
      if kosdaq.Some? then Some(kosdaq.value.alignment) else None,
      if fx.Some? then fx.value.rate else 0.0,
      Head(StrongNames(sectors), 3),
      Head(WeakNames(sectors), 3));
  }

  /** The KOSPI block of `_determine_gate`. */
  method ApplyKospi(score: real, reasons: seq<Reason>, kospi: Option<IndexAnalysis>)
    returns (score': real, reasons': seq<Reason>)
    ensures score' == score + KospiPoints(kospi)
    ensures reasons' == reasons + KospiReasons(kospi)
  {
    score', reasons' := score, reasons;
    if kospi.Some? {
      var k := kospi.value;
      if k.alignment == Bullish {
        score' := score' + 10.0;
        reasons' := reasons' + [KospiAligned];
      } else if k.alignment == Bearish {
        score' := score' - 15.0;
        reasons' := reasons' + [KospiReversed];
      }
      if k.rsi > 70.0 {
        score' := score' - 5.0;
        reasons' := reasons' + [KospiOverbought];
      } else if k.rsi < 30.0 {
        score' := score' + 5.0;
        reasons' := reasons' + [KospiOversold];
      }
      if k.changePct > 1.0 {
        score' := score' + 5.0;
      } else if k.changePct < -1.0 {
        score' := score' - 5.0;
      }
    }
  }

  /** The KOSDAQ block of `_determine_gate`: points only. */
  method ApplyKosdaq(score: real, kosdaq: Option<IndexAnalysis>) returns (score': real)
    ensures score' == score + KosdaqPoints(kosdaq)
  {
    score' := score;
    if kosdaq.Some? {
      if kosdaq.value.alignment == Bullish {
        score' := score' + 5.0;
      } else if kosdaq.value.alignment == Bearish {
        score' := score' - 10.0;
      }
    }
  }

  /** The exchange-rate block of `_determine_gate`. */
  method ApplyFx(score: real, reasons: seq<Reason>, fx: Option<FxQuote>)
    returns (score': real, reasons': seq<Reason>)
    ensures score' == score + FxPoints(fx)
    ensures reasons' == reasons + FxReasons(fx)
  {
    score', reasons' := score, reasons;
    if fx.Some? {
      var rate := fx.value.rate;
      if rate > 1450.0 {
        score' := score' - 15.0;
        reasons' := reasons' + [FxDanger];
      } else if rate > 1400.0 {
        score' := score' - 10.0;
        reasons' := reasons' + [FxWarning];
      } else if rate < 1300.0 {
        score' := score' + 5.0;
        reasons' := reasons' + [FxStable];
      }
    }
  }

  /** The sector block of `_determine_gate`. */
  method ApplySectors(score: real, reasons: seq<Reason>, sectors: seq<Sector>)
    returns (score': real, reasons': seq<Reason>)
    ensures score' == score + SectorPoints(sectors)
    ensures reasons' == reasons + SectorReasons(sectors)
  {
    score', reasons' := score, reasons;
    if sectors != [] {
      var strong := StrongCount(sectors);
      var weak := WeakCount(sectors);
      if strong >= 4 {
        score' := score' + 10.0;
        reasons' := reasons' + [StrongSectors(strong)];
      } else if weak >= 4 {
        score' := score' - 10.0;
        reasons' := reasons' + [WeakSectors(weak)];
      }
    }
  }

  /**
   * Both indices in 역배열 with the exchange rate above 1450 is RED whatever
   * the RSI, the daily change and the sectors say.
   */
  lemma BearishWithWeakWonIsRed(kospi: IndexAnalysis, kosdaq: IndexAnalysis, fx: FxQuote, sectors: seq<Sector>)
    requires kospi.alignment == Bearish && kosdaq.alignment == Bearish && fx.rate > 1450.0
    ensures GateOf(ClampReal(RawGateScore(Some(kospi), Some(kosdaq), Some(fx), sectors), 0.0, 100.0)) == Red
  {
  }

  /** Without any input the gate stays at the neutral 50: YELLOW. */
  lemma NoDataIsYellow()
    ensures ClampReal(RawGateScore(None, None, None, []), 0.0, 100.0) == 50.0
    ensures GateOf(ClampReal(RawGateScore(None, None, None, []), 0.0, 100.0)) == Yellow
  {
  }
}
