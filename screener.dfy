/**
 * The smart-money supply screener (screener.py): trailing buy streaks, the
 * 0-100 supply score, the seven supply stages, the volatility-contraction
 * (VCP) check and the signal filter. Price tables arrive as parameters.
 */
module Screener {

  import opened Wrappers
  import opened Series
  import opened Config

  // -------------------------------------------------------- supply score

  /** Foreign 5-day net purchase: +15 / +10 / +5 above strong-buy / buy / 0, -15 / -10 below strong-sell / sell. */
  function ForeignPoints(t: TrendThresholds, f5: int): (p: int)
    ensures -15 <= p <= 15
    ensures p > 0 <==> f5 > 0 || f5 > t.foreignBuy || f5 > t.foreignStrongBuy
    ensures f5 > t.foreignStrongBuy ==> p == 15
    ensures t.foreignBuy < f5 <= t.foreignStrongBuy ==> p == 10
    ensures 0 < f5 && f5 <= t.foreignBuy && f5 <= t.foreignStrongBuy ==> p == 5
    ensures NoForeignBuy(t, f5) && f5 < t.foreignStrongSell ==> p == -15
    ensures NoForeignBuy(t, f5) && t.foreignStrongSell <= f5 < t.foreignSell ==> p == -10
    ensures NoForeignBuy(t, f5) && t.foreignStrongSell <= f5 && t.foreignSell <= f5 ==> p == 0
  {
    if f5 > t.foreignStrongBuy then 15
    else if f5 > t.foreignBuy then 10
    else if f5 > 0 then 5
    else if f5 < t.foreignStrongSell then -15
    else if f5 < t.foreignSell then -10
    else 0
  }

  /** A foreign 5-day sum that reaches none of the three buy bands. */
  predicate NoForeignBuy(t: TrendThresholds, f5: int) {
    f5 <= 0 && f5 <= t.foreignBuy && f5 <= t.foreignStrongBuy
  }

  /** Institutional 5-day net purchase: +10 / +5 above strong-buy / buy, -10 below strong-sell. */
  function InstPoints(t: TrendThresholds, i5: int): (p: int)
    ensures p == 10 || p == 5 || p == 0 || p == -10
    ensures p > 0 <==> i5 > t.instBuy || i5 > t.instStrongBuy
    ensures i5 > t.instStrongBuy ==> p == 10
    ensures t.instBuy < i5 <= t.instStrongBuy ==> p == 5
    ensures i5 <= t.instBuy && i5 <= t.instStrongBuy && i5 < t.instStrongSell ==> p == -10
    ensures i5 <= t.instBuy && i5 <= t.instStrongBuy && i5 >= t.instStrongSell ==> p == 0
  {
    if i5 > t.instStrongBuy then 10
    else if i5 > t.instBuy then 5
    else if i5 < t.instStrongSell then -10
    else 0
  }

  /** The streak bonus: two points per foreign day and one per institutional day, each streak capped at 5 days. */
  function StreakBonus(fc: nat, ic: nat): (b: int)
    ensures 0 <= b <= 15
    ensures b == 2 * Min(fc, 5) + Min(ic, 5)
  {
    Min(fc, 5) * 2 + Min(ic, 5) * 1
  }

  /** The double-buy bonus: 10 exactly when both 5-day sums are positive. */
  function DoubleBuyBonus(f5: int, i5: int): (b: int)
    ensures b == 10 <==> f5 > 0 && i5 > 0
    ensures b == 0 || b == 10
  {
    if f5 > 0 && i5 > 0 then 10 else 0
  }

  /** The supply score before clamping: 50 plus every bonus. */
  function RawSupplyScore(t: TrendThresholds, f5: int, i5: int, fc: nat, ic: nat): real {
    50.0 + (ForeignPoints(t, f5) + InstPoints(t, i5) + StreakBonus(fc, ic) + DoubleBuyBonus(f5, i5)) as real
  }

  /** `_calculate_supply_score` as a value; the 20-day sums are accepted and unused, as in the source. */
  function SupplyScoreOf(t: TrendThresholds, f5: int, f20: int, i5: int, i20: int, fc: nat, ic: nat): (s: real)
    ensures 0.0 <= s <= 100.0
    ensures 0.0 <= RawSupplyScore(t, f5, i5, fc, ic) <= 100.0 ==> s == RawSupplyScore(t, f5, i5, fc, ic)
  {
    ClampReal(RawSupplyScore(t, f5, i5, fc, ic), 0.0, 100.0)
  }

  /** `_calculate_supply_score`: 50, then each rule's points in turn, clamped to [0, 100]. */
  method CalculateSupplyScore(t: TrendThresholds, f5: int, f20: int, i5: int, i20: int, fc: nat, ic: nat)
    returns (score: real)
    ensures score == SupplyScoreOf(t, f5, f20, i5, i20, fc, ic)
    ensures 0.0 <= score <= 100.0
  {
    score := 50.0;
    if f5 > t.foreignStrongBuy {
      score := score + 15.0;
    } else if f5 > t.foreignBuy {
      score := score + 10.0;
    } else if f5 > 0 {
      score := score + 5.0;
    } else if f5 < t.foreignStrongSell {
      score := score - 15.0;
    } else if f5 < t.foreignSell {
      score := score - 10.0;
    }
    if i5 > t.instStrongBuy {
      score := score + 10.0;
    } else if i5 > t.instBuy {
      score := score + 5.0;
    } else if i5 < t.instStrongSell {
      score := score - 10.0;
    }
    score := score + (Min(fc, 5) * 2) as real;
    score := score + (Min(ic, 5) * 1) as real;
    if f5 > 0 && i5 > 0 {
      score := score + 10.0;
    }
    score := if score < 0.0 then 0.0 else if score > 100.0 then 100.0 else score;
  }

  /** Strong buying by both groups with five-day streaks reaches the ceiling of 100 exactly. */
  lemma StrongDoubleBuyScoresTop(f5: int, f20: int, i5: int, i20: int, fc: nat, ic: nat)
    requires f5 > 5_000_000 && i5 > 3_000_000 && fc >= 5 && ic >= 5
    ensures RawSupplyScore(DefaultThresholds(), f5, i5, fc, ic) == 100.0
    ensures SupplyScoreOf(DefaultThresholds(), f5, f20, i5, i20, fc, ic) == 100.0
  {
  }

  /** A longer foreign or institutional streak never lowers the score. */
  lemma SupplyScoreMonotoneInStreaks(t: TrendThresholds, f5: int, f20: int, i5: int, i20: int,
                                     fc: nat, ic: nat, fc': nat, ic': nat)
    requires fc <= fc' && ic <= ic'
    ensures SupplyScoreOf(t, f5, f20, i5, i20, fc, ic) <= SupplyScoreOf(t, f5, f20, i5, i20, fc', ic')
  {
  }

  // ---------------------------------------------------------------- stage

  /** The seven supply stages. */
  datatype Stage = StrongAccumulation | Accumulation | WeakAccumulation
                 | StrongDistribution | Distribution | WeakDistribution | Neutral

  function StageLabel(s: Stage): string {
    match s
    case StrongAccumulation => "강한매집"
    case Accumulation => "매집"
    case WeakAccumulation => "약매집"
    case StrongDistribution => "강한분산"
    case Distribution => "분산"
    case WeakDistribution => "약분산"
    case Neutral => "중립"
  }

  /** The 매집 (accumulation) family. */
  predicate IsAccumulation(s: Stage) {
    s == StrongAccumulation || s == Accumulation || s == WeakAccumulation
  }

  /** The 분산 (distribution) family. */
  predicate IsDistribution(s: Stage) {
    s == StrongDistribution || s == Distribution || s == WeakDistribution
  }

  /**
   * `_determine_stage`. When buy thresholds are positive and sell thresholds
   * negative, the family is the sign of the foreign 5-day sum.
   */
  function DetermineStage(t: TrendThresholds, f5: int, i5: int): (s: Stage)
    ensures s == StrongAccumulation <==> f5 > t.foreignStrongBuy && i5 > 0
    ensures SignSeparated(t) ==> (s == Neutral <==> f5 == 0)
    ensures SignSeparated(t) ==> (IsAccumulation(s) <==> f5 > 0)
    ensures SignSeparated(t) ==> (IsDistribution(s) <==> f5 < 0)
    ensures SignSeparated(t) ==> (s == StrongDistribution <==> f5 < t.foreignStrongSell)
    ensures s == Accumulation <==> !(f5 > t.foreignStrongBuy && i5 > 0) && f5 > t.foreignBuy
    ensures s == WeakAccumulation <==> !(f5 > t.foreignStrongBuy && i5 > 0) && 0 < f5 <= t.foreignBuy
    ensures SignSeparated(t) ==> (s == Distribution <==> t.foreignStrongSell <= f5 < t.foreignSell)
    ensures SignSeparated(t) ==>
              (s == WeakDistribution <==> t.foreignStrongSell <= f5 && t.foreignSell <= f5 < 0)
  {
    if f5 > t.foreignStrongBuy && i5 > 0 then StrongAccumulation
    else if f5 > t.foreignBuy then Accumulation
    else if f5 > 0 then WeakAccumulation
    else if f5 < t.foreignStrongSell then StrongDistribution
    else if f5 < t.foreignSell then Distribution
    else if f5 < 0 then WeakDistribution
    else Neutral
  }

  // ------------------------------------------------------------------ VCP

  /** A float64 result of integer division: finite, an infinity, or NaN for 0/0. */
  datatype ExtReal = Fin(v: real) | PosInf | NegInf | NaN

  /** `num / den * 100` on numpy integers: division by zero gives an infinity or NaN, not an error. */
  function PctOf(num: int, den: int): (r: ExtReal)
    ensures den != 0 ==> r.Fin?
    ensures den == 0 ==> (r == PosInf <==> num > 0) && (r == NegInf <==> num < 0) && (r == NaN <==> num == 0)
  {
    if den != 0 then Fin(num as real / den as real * 100.0)
    else if num > 0 then PosInf
    else if num < 0 then NegInf
    else NaN
  }

  /** IEEE `>`: false whenever NaN is involved. */
  predicate Gt(a: ExtReal, b: ExtReal) {
    match (a, b)
    case (NaN, _) => false
    case (_, NaN) => false
    case (PosInf, PosInf) => false
    case (PosInf, _) => true
    case (_, PosInf) => false
    case (NegInf, _) => false
    case (_, NegInf) => true
    case (Fin(x), Fin(y)) => x > y
  }

  /** `>` is irreflexive, also on infinities and NaN. */
  lemma GtIrreflexive(a: ExtReal)
    ensures !Gt(a, a)
  {
  }

  /** One row of the daily OHLCV table; the traded-value column may be missing. */
  datatype OhlcvRow = OhlcvRow(open: int, high: int, low: int, close: int, volume: int, tradingValue: Option<int>)

  function MaxHigh(rows: seq<OhlcvRow>): (m: int)
    requires |rows| > 0
    ensures forall i :: 0 <= i < |rows| ==> rows[i].high <= m
    ensures exists i :: 0 <= i < |rows| && rows[i].high == m
  {
    if |rows| == 1 then rows[0].high
    else
      var m' := MaxHigh(rows[..|rows| - 1]);
      assert forall i :: 0 <= i < |rows| - 1 ==> rows[..|rows| - 1][i] == rows[i];
      if rows[|rows| - 1].high > m' then rows[|rows| - 1].high else m'
  }

  function MinLow(rows: seq<OhlcvRow>): (m: int)
    requires |rows| > 0
    ensures forall i :: 0 <= i < |rows| ==> m <= rows[i].low
    ensures exists i :: 0 <= i < |rows| && rows[i].low == m
  {
    if |rows| == 1 then rows[0].low
    else
      var m' := MinLow(rows[..|rows| - 1]);
      assert forall i :: 0 <= i < |rows| - 1 ==> rows[..|rows| - 1][i] == rows[i];
      if rows[|rows| - 1].low < m' then rows[|rows| - 1].low else m'
  }

  /** A segment's range as a percentage of its low. */
  function SegmentRange(segment: seq<OhlcvRow>): ExtReal
    requires |segment| > 0
  {
    PctOf(MaxHigh(segment) - MinLow(segment), MinLow(segment))
  }

  /** The k-th of the three 20-row segments of the last 60 rows. */
  function Segment(ohlcv: seq<OhlcvRow>, k: nat): (s: seq<OhlcvRow>)
    requires |ohlcv| >= 60 && k < 3
    ensures |s| == 20
  {
    Tail(ohlcv, 60)[20 * k..20 * k + 20]
  }

  /** The VCP condition: at least 60 rows and ranges that strictly shrink across the three segments. */
  predicate IsVcp(ohlcv: seq<OhlcvRow>) {
    |ohlcv| >= 60 &&
    Gt(SegmentRange(Segment(ohlcv, 0)), SegmentRange(Segment(ohlcv, 1))) &&
    Gt(SegmentRange(Segment(ohlcv, 1)), SegmentRange(Segment(ohlcv, 2)))
  }

  /** `_check_vcp_pattern`: collects the three ranges in a loop, then compares them. */
  method CheckVcpPattern(ohlcv: seq<OhlcvRow>) returns (isVcp: bool)
    ensures isVcp == IsVcp(ohlcv)
    ensures |ohlcv| < 60 ==> !isVcp
  {
    if |ohlcv| < 60 {
      return false;
    }
    var ranges := CollectRanges(ohlcv);
    if |ranges| < 3 {
      return false;
    }
    isVcp := Gt(ranges[0], ranges[1]) && Gt(ranges[1], ranges[2]);
  }

  /** The loop of `_check_vcp_pattern`: the range of each 20-row segment of the last 60 rows, oldest first. */
  method CollectRanges(ohlcv: seq<OhlcvRow>) returns (ranges: seq<ExtReal>)
    requires |ohlcv| >= 60
    ensures |ranges| == 3
    ensures forall k :: 0 <= k < 3 ==> ranges[k] == SegmentRange(Segment(ohlcv, k))
  {
    var recent := Tail(ohlcv, 60);
    assert |recent| == 60;
    ranges := [];
    var i := 0;
    while i < 60
      invariant |ranges| <= 3 && i == 20 * |ranges|
      invariant forall k :: 0 <= k < |ranges| ==> ranges[k] == SegmentRange(Segment(ohlcv, k))
    {
      var segment := recent[i..i + 20];
      assert segment == Segment(ohlcv, |ranges|);
      if |segment| >= 20 {
        ranges := ranges + [SegmentRange(segment)];
      }
      i := i + 20;
    }
  }

  /** The range of a segment whose lows are positive, as an exact ratio. */
  function RealRange(segment: seq<OhlcvRow>): real
    requires |segment| > 0 && MinLow(segment) > 0
  {
    (MaxHigh(segment) - MinLow(segment)) as real / MinLow(segment) as real * 100.0
  }

  /** When every low of the last 60 rows is positive, VCP is plain strict contraction of the three ranges. */
  lemma VcpWithPositiveLows(ohlcv: seq<OhlcvRow>)
    requires |ohlcv| >= 60
    requires forall i :: |ohlcv| - 60 <= i < |ohlcv| ==> ohlcv[i].low > 0
    ensures MinLow(Segment(ohlcv, 0)) > 0 && MinLow(Segment(ohlcv, 1)) > 0 && MinLow(Segment(ohlcv, 2)) > 0
    ensures IsVcp(ohlcv) <==>
              RealRange(Segment(ohlcv, 0)) > RealRange(Segment(ohlcv, 1)) > RealRange(Segment(ohlcv, 2))
  {
    forall k | 0 <= k < 3
      ensures MinLow(Segment(ohlcv, k)) > 0
    {
      var s := Segment(ohlcv, k);
      var j :| 0 <= j < |s| && s[j].low == MinLow(s);
      assert s[j] == ohlcv[|ohlcv| - 60 + 20 * k + j];
    }
  }

  // ------------------------------------------------------- per-stock analysis

  /** The name fragments `_analyze_stock` excludes: SPACs, ETFs, ETNs and REITs. */
  function ExcludedNameKeywords(): seq<string> {
    ["스팩", "ETF", "ETN", "리츠"]
  }

  /** The result dictionary of `_analyze_stock`. */
  datatype ScreenRow = ScreenRow(ticker: string, name: string, market: string, close: int, changePct: ExtReal,
                                 volume: int, tradingValue: int,
                                 foreign5d: int, foreign20d: int, foreignConsecutive: nat,
                                 inst5d: int, inst20d: int, instConsecutive: nat,
                                 supplyScore: real, stage: Stage, isDoubleBuy: bool, isVcp: bool)

  /** The row `_analyze_stock` builds for a stock that passes its guards. */
  function ScreenRowOf(t: TrendThresholds, ticker: string, market: string, name: string,
                       ohlcv: seq<OhlcvRow>, supply: NetPurchases): (row: ScreenRow)
    requires |ohlcv| >= 20
    ensures 0.0 <= row.supplyScore <= 100.0
    ensures row.isDoubleBuy <==> row.foreign5d > 0 && row.inst5d > 0
    ensures row.foreign5d == TailSum(supply.foreign, 5) && row.inst5d == TailSum(supply.inst, 5)
    ensures row.foreign20d == TailSum(supply.foreign, 20) && row.inst20d == TailSum(supply.inst, 20)
    ensures row.close == ohlcv[|ohlcv| - 1].close
    ensures row.ticker == ticker && row.name == name && row.market == market
    ensures row.changePct == PctOf(ohlcv[|ohlcv| - 1].close - ohlcv[|ohlcv| - 2].close, ohlcv[|ohlcv| - 2].close)
    ensures row.volume == ohlcv[|ohlcv| - 1].volume && row.tradingValue == ohlcv[|ohlcv| - 1].tradingValue.GetOr(0)
    ensures row.foreignConsecutive == Consecutive(supply.foreign) && row.instConsecutive == Consecutive(supply.inst)
    ensures row.supplyScore == SupplyScoreOf(t, row.foreign5d, row.foreign20d, row.inst5d, row.inst20d,
                                             row.foreignConsecutive, row.instConsecutive)
    ensures row.stage == DetermineStage(t, row.foreign5d, row.inst5d)
    ensures row.isVcp == IsVcp(ohlcv)
  {
    var f5 := TailSum(supply.foreign, 5);
    var f20 := TailSum(supply.foreign, 20);
    var i5 := TailSum(supply.inst, 5);
    var i20 := TailSum(supply.inst, 20);
    var fc := Consecutive(supply.foreign);
    var ic := Consecutive(supply.inst);
    AssembleRow(ticker, market, name, ohlcv[|ohlcv| - 1], ohlcv[|ohlcv| - 2].close,
                f5, f20, fc, i5, i20, ic, SupplyScoreOf(t, f5, f20, i5, i20, fc, ic), DetermineStage(t, f5, i5),
                IsVcp(ohlcv))
  }

  /** The result dictionary from the latest row, the previous close and the supply figures. */
  function AssembleRow(ticker: string, market: string, name: string, latest: OhlcvRow, prev: int,
                       f5: int, f20: int, fc: nat, i5: int, i20: int, ic: nat,
                       score: real, stage: Stage, isVcp: bool): ScreenRow
  {
    ScreenRow(ticker, name, market, latest.close, PctOf(latest.close - prev, prev),
              latest.volume, latest.tradingValue.GetOr(0),
              f5, f20, fc, i5, i20, ic, score, stage, f5 > 0 && i5 > 0, isVcp)
  }

  /**
   * `_analyze_stock` on fetched tables: excluded names, fewer than 20 price
   * rows and an empty net-purchase table give no row.
   */
  method AnalyzeStock(t: TrendThresholds, ticker: string, market: string, name: string,
                      ohlcv: seq<OhlcvRow>, supply: NetPurchases) returns (r: Option<ScreenRow>)
    ensures r.Some? <==> !AnyIn(ExcludedNameKeywords(), name) && |ohlcv| >= 20 && supply.rows > 0
    ensures r.Some? ==> r.value == ScreenRowOf(t, ticker, market, name, ohlcv, supply)
  {
    if AnyIn(ExcludedNameKeywords(), name) {
      return None;
    }
    if |ohlcv| < 20 {
      return None;
    }
    if supply.rows == 0 {
      return None;
    }
    var f5 := TailSum(supply.foreign, 5);
    var f20 := TailSum(supply.foreign, 20);
    var i5 := TailSum(supply.inst, 5);
    var i20 := TailSum(supply.inst, 20);
    var fc := CountConsecutiveBuys(supply.foreign);
    var ic := CountConsecutiveBuys(supply.inst);
    var score := CalculateSupplyScore(t, f5, f20, i5, i20, fc, ic);
    var stage := DetermineStage(t, f5, i5);
    var isVcp := CheckVcpPattern(ohlcv);
    var row := AssembleRow(ticker, market, name, ohlcv[|ohlcv| - 1], ohlcv[|ohlcv| - 2].close,
                           f5, f20, fc, i5, i20, ic, score, stage, isVcp);
    r := Some(row);
  }

  // ---------------------------------------------------------------- signals

  /** The row filter of `generate_signals`. */
  predicate Qualifies(row: ScreenRow) {
    row.supplyScore >= 70.0 && IsAccumulation(row.stage)
  }

  /** The rows that pass the filter, in their original order. */
  function Qualified(rows: seq<ScreenRow>): (r: seq<ScreenRow>)
    ensures |r| <= |rows|
    ensures forall i :: 0 <= i < |r| ==> Qualifies(r[i])
    ensures forall i :: 0 <= i < |rows| && Qualifies(rows[i]) ==> rows[i] in r
    ensures forall x :: x in r ==> x in rows
  {
    if rows == [] then []
    else
      var rest := Qualified(rows[..|rows| - 1]);
      assert forall i :: 0 <= i < |rows| - 1 ==> rows[i] == rows[..|rows| - 1][i];
      rest + (if Qualifies(rows[|rows| - 1]) then [rows[|rows| - 1]] else [])
  }

  /** Filtering keeps order: the qualified rows of a concatenation are those of each part, in turn. */
  lemma {:induction false} QualifiedAppend(a: seq<ScreenRow>, b: seq<ScreenRow>)
    ensures Qualified(a + b) == Qualified(a) + Qualified(b)
    decreases |b|
  {
    if b == [] {
      assert a + b == a;
    } else {
      var b0 := b[..|b| - 1];
      assert (a + b)[..|a + b| - 1] == a + b0;
      QualifiedAppend(a, b0);
    }
  }

  /** One entry of the `generate_signals` list; the timestamp is a parameter. */
  datatype ScreenSignal = ScreenSignal(ticker: string, name: string, market: string, close: int,
                                       changePct: ExtReal, supplyScore: real, stage: Stage,
                                       foreign5d: int, inst5d: int, isDoubleBuy: bool, isVcp: bool,
                                       signalTime: string)

  function SignalOf(row: ScreenRow, now: string): ScreenSignal {
    ScreenSignal(row.ticker, row.name, row.market, row.close, row.changePct, row.supplyScore, row.stage,
                 row.foreign5d, row.inst5d, row.isDoubleBuy, row.isVcp, now)
  }

  /**
   * `generate_signals`: the first `top_n` qualifying rows (pandas `head`,
   * so a negative `top_n` drops from the end), each turned into a signal.
   */
  method GenerateSignals(rows: seq<ScreenRow>, topN: int, now: string) returns (signals: seq<ScreenSignal>)
    ensures |signals| == |Head(Qualified(rows), topN)|
    ensures topN >= 0 ==> |signals| <= topN
    ensures forall i :: 0 <= i < |signals| ==> signals[i] == SignalOf(Head(Qualified(rows), topN)[i], now)
    ensures forall i :: 0 <= i < |signals| ==> signals[i].supplyScore >= 70.0 && IsAccumulation(signals[i].stage)
  {
    if rows == [] {
      return [];
    }
    var top := Head(Qualified(rows), topN);
    signals := [];
    var i := 0;
    while i < |top|
      invariant 0 <= i <= |top|
      invariant |signals| == i
      invariant forall k :: 0 <= k < i ==> signals[k] == SignalOf(top[k], now)
    {
      signals := signals + [SignalOf(top[i], now)];
      i := i + 1;
    }
  }
}
