/**
 * Configuration of the closing-price-bet signal generator
 * (engine/config.py): the four grades, the per-grade risk profile table,
 * the candidate filter bounds, the score weights, trade and risk constants
 * and the scorer's news keyword lists.
 */
module EngineConfig {

  /** S: full bet, A: normal bet, B: half bet, C: do not trade. */
  datatype Grade = S | A | B | C

  /** Tier order: S is 0 (best) and C is 3. */
  function Tier(g: Grade): (t: nat)
    ensures t <= 3
    ensures g == S <==> t == 0
    ensures g == A <==> t == 1
    ensures g == B <==> t == 2
    ensures g == C <==> t == 3
  {
    match g
    case S => 0
    case A => 1
    case B => 2
    case C => 3
  }

  /** The string a grade serialises to (`Grade.value`). */
  function GradeValue(g: Grade): (v: string)
    ensures |v| == 1
    ensures v == "S" <==> g == S
    ensures v == "A" <==> g == A
    ensures v == "B" <==> g == B
    ensures v == "C" <==> g == C
  {
    match g
    case S => "S"
    case A => "A"
    case B => "B"
    case C => "C"
  }

  /** Distinct grades serialise to distinct strings, so the `by_grade` keys tell grades apart. */
  lemma GradeValueInjective(a: Grade, b: Grade)
    ensures GradeValue(a) == GradeValue(b) <==> a == b
  {
  }

  datatype GradeConfig = GradeConfig(
    minTradingValue: int,
    minChangePct: real,
    maxChangePct: real,
    minScore: int,
    rMultiplier: real)

  datatype SignalConfig = SignalConfig(
    // basic filter
    minTradingValue: int,
    minChangePct: real,
    maxChangePct: real,
    minPrice: int,
    maxPrice: int,
    // exclusions
    excludeEtf: bool,
    excludeEtn: bool,
    excludeSpac: bool,
    excludePreferred: bool,
    excludeReits: bool,
    excludeKeywords: seq<string>,
    // score weights, in declaration order
    scoreWeights: seq<(string, int)>,
    gradeConfigs: map<Grade, GradeConfig>,
    // trade settings
    stopLossPct: real,
    takeProfitPct: real,
    gapTargetPct: real,
    gapStopPct: real,
    timeStopHour: int,
    // risk management
    rRatio: real,
    maxPositions: int,
    dailyLossLimitR: real,
    weeklyLossLimitR: real,
    // news keywords
    positiveKeywords: seq<string>,
    negativeKeywords: seq<string>)

  /** `min_score` and `min_trading_value` of a tier, both of which a grade demands. */
  predicate MeetsTier(cfg: GradeConfig, totalScore: int, tradingValue: int) {
    totalScore >= cfg.minScore && tradingValue >= cfg.minTradingValue
  }

  /**
   * The `grade_configs` table. Both thresholds strictly decrease from S to C,
   * and the R-multiplier is 1.5 / 1.0 / 0.5 / 0.0, so C alone sizes to zero.
   */
  function DefaultGradeConfigs(): (m: map<Grade, GradeConfig>)
    ensures m.Keys == {S, A, B, C}
    ensures forall g, h :: g in m && h in m && Tier(g) < Tier(h) ==>
              m[g].minScore > m[h].minScore && m[g].minTradingValue > m[h].minTradingValue
    ensures m[S].rMultiplier == 1.5 && m[A].rMultiplier == 1.0 && m[B].rMultiplier == 0.5
    ensures forall g :: g in m ==> (m[g].rMultiplier == 0.0 <==> g == C)
    ensures m[S].minScore == 10 && m[A].minScore == 8 && m[B].minScore == 6 && m[C].minScore == 0
  {
    map[
      S := GradeConfig(1_000_000_000_000, 10.0, 20.0, 10, 1.5),
      A := GradeConfig(500_000_000_000, 8.0, 15.0, 8, 1.0),
      B := GradeConfig(100_000_000_000, 5.0, 12.0, 6, 0.5),
      C := GradeConfig(50_000_000_000, 5.0, 29.9, 0, 0.0)
    ]
  }

  /** The sum of the weights: the maximum composite score. */
  function WeightSum(w: seq<(string, int)>): int {
    if w == [] then 0 else w[0].1 + WeightSum(w[1..])
  }

  function DefaultScoreWeights(): (w: seq<(string, int)>)
    ensures WeightSum(w) == 12
    ensures |w| == 6
  {
    [("news", 3), ("volume", 3), ("chart", 2), ("candle", 1), ("consolidation", 1), ("supply", 2)]
  }

  function DefaultExcludeKeywords(): seq<string> {
    ["스팩", "SPAC", "ETF", "ETN", "리츠", "우B", "우C", "1우", "2우", "3우", "인버스", "레버리지"]
  }

  function DefaultPositiveKeywords(): seq<string> {
    [
      // earnings
      "흑자전환", "실적개선", "어닝서프라이즈", "사상최대", "호실적",
      "매출증가", "영업이익", "순이익", "분기최대",
      // contracts and orders
      "수주", "계약체결", "공급계약", "납품계약", "MOU", "LOI",
      "대규모계약", "독점계약", "장기공급",
      // new business and technology
      "신약개발", "임상성공", "FDA승인", "CE인증", "특허취득",
      "기술이전", "라이선스", "신제품", "양산", "상용화",
      // investment and M&A
      "지분투자", "인수합병", "자회사편입", "지분확대",
      // policy and themes
      "정부지원", "국책사업", "수혜주", "관련주", "테마",
      // flows
      "외국인매수", "기관매수", "프로그램매수"
    ]
  }

  function DefaultNegativeKeywords(): seq<string> {
    [
      // adverse events
      "횡령", "배임", "분식", "상장폐지", "관리종목", "감사의견거절",
      "자본잠식", "부도", "파산", "워크아웃", "법정관리",
      "검찰", "수사", "구속", "기소",
      // deteriorating results
      "적자전환", "적자확대", "실적악화", "매출감소",
      // adverse flows
      "대량매도", "공매도급증", "외국인매도"
    ]
  }

  /**
   * `SignalConfig()` with every default. The filter bounds are ordered, the
   * weights sum to 12, and the stop and target percentages lie in (0, 1).
   */
  function DefaultSignalConfig(): (c: SignalConfig)
    ensures c.gradeConfigs == DefaultGradeConfigs()
    ensures c.minChangePct < c.maxChangePct && c.minPrice < c.maxPrice
    ensures c.minChangePct == 5.0 && c.maxChangePct == 29.9
    ensures c.minPrice == 1000 && c.maxPrice == 500000
    ensures c.minTradingValue == 50_000_000_000
    ensures WeightSum(c.scoreWeights) == 12
    ensures 0.0 < c.stopLossPct < 1.0 && 0.0 < c.takeProfitPct < 1.0
    ensures c.stopLossPct == 0.03 && c.takeProfitPct == 0.05
    ensures c.rRatio == 0.005
  {
    SignalConfig(
      50_000_000_000, 5.0, 29.9, 1000, 500000,
      true, true, true, true, true,
      DefaultExcludeKeywords(),
      DefaultScoreWeights(),
      DefaultGradeConfigs(),
      0.03, 0.05, 0.03, -0.02, 10,
      0.005, 2, 2.0, 4.0,
      DefaultPositiveKeywords(),
      DefaultNegativeKeywords())
  }
}
