/**
 * The screener and backtest configuration tables (config.py): supply-trend
 * thresholds, the exchange-rate bands, the backtest cost formula, the regime
 * allow-list and the two presets.
 */
module Config {

  /** `MarketRegime`. */
  datatype MarketRegime = KrBullish | KrNeutral | KrBearish

  /** The enum member's name, the string `allowed_regimes` holds. */
  function RegimeName(r: MarketRegime): string {
    match r
    case KrBullish => "KR_BULLISH"
    case KrNeutral => "KR_NEUTRAL"
    case KrBearish => "KR_BEARISH"
  }

  /** The enum member's value. */
  function RegimeValue(r: MarketRegime): string {
    match r
    case KrBullish => "강세장"
    case KrNeutral => "중립"
    case KrBearish => "약세장"
  }

  /** `SignalType`, also the literal values of `entry_trigger`. */
  datatype SignalType = ForeignerBuy | InstScoop | DoubleBuy

  /** `TrendThresholds`: share-count thresholds for foreign and institutional net purchases. */
  datatype TrendThresholds = TrendThresholds(
    foreignStrongBuy: int, foreignBuy: int, foreignNeutral: int, foreignSell: int, foreignStrongSell: int,
    instStrongBuy: int, instBuy: int, instNeutral: int, instSell: int, instStrongSell: int,
    highRatioForeign: real, highRatioInst: real)

  /** Each column's thresholds strictly decrease from strong buy to strong sell. */
  predicate ThresholdsOrdered(t: TrendThresholds) {
    t.foreignStrongBuy > t.foreignBuy > t.foreignNeutral > t.foreignSell > t.foreignStrongSell &&
    t.instStrongBuy > t.instBuy > t.instNeutral > t.instSell > t.instStrongSell
  }

  /** Buy thresholds are positive and sell thresholds negative. */
  predicate SignSeparated(t: TrendThresholds) {
    t.foreignStrongBuy > 0 && t.foreignBuy > 0 && t.foreignSell < 0 && t.foreignStrongSell < 0 &&
    t.instStrongBuy > 0 && t.instBuy > 0 && t.instStrongSell < 0
  }

  function DefaultThresholds(): (t: TrendThresholds)
    ensures ThresholdsOrdered(t) && SignSeparated(t)
    ensures t.foreignStrongBuy == 5_000_000 && t.foreignBuy == 2_000_000
    ensures t.foreignSell == -2_000_000 && t.foreignStrongSell == -5_000_000
    ensures t.instStrongBuy == 3_000_000 && t.instBuy == 1_000_000 && t.instStrongSell == -3_000_000
  {
    TrendThresholds(5_000_000, 2_000_000, -1_000_000, -2_000_000, -5_000_000,
                    3_000_000, 1_000_000, -500_000, -1_000_000, -3_000_000,
                    12.0, 8.0)
  }

  /** `MarketGateConfig`. */
  datatype MarketGateConfig = MarketGateConfig(usdKrwSafe: real, usdKrwWarning: real, usdKrwDanger: real,
                                               kospiMaShort: int, kospiMaLong: int,
                                               foreignNetBuyThreshold: int)

  function DefaultMarketGateConfig(): (c: MarketGateConfig)
    ensures c.usdKrwSafe < c.usdKrwWarning < c.usdKrwDanger
    ensures c.usdKrwSafe == 1350.0 && c.usdKrwWarning == 1400.0 && c.usdKrwDanger == 1450.0
    ensures c.kospiMaShort < c.kospiMaLong
  {
    MarketGateConfig(1350.0, 1400.0, 1450.0, 20, 60, 500_000_000_000)
  }

  /** `BacktestConfig`. Percentages are in percent. */
  datatype BacktestConfig = BacktestConfig(
    entryTrigger: SignalType, minScore: int, minConsecutiveDays: int,
    stopLossPct: real, takeProfitPct: real, trailingStopPct: real, maxHoldDays: int,
    rsiExitThreshold: int, exitOnForeignSell: bool, foreignSellDays: int,
    allowedRegimes: seq<string>, useUsdKrwGate: bool,
    initialCapital: real, positionSizePct: real, maxPositions: int,
    commissionPct: real, slippagePct: real, taxPct: real)

  function DefaultBacktestConfig(): (c: BacktestConfig)
    ensures c.allowedRegimes == [RegimeName(KrBullish), RegimeName(KrNeutral)]
    ensures c.commissionPct == 0.015 && c.slippagePct == 0.1 && c.taxPct == 0.23
    ensures c.stopLossPct < c.takeProfitPct
  {
    BacktestConfig(DoubleBuy, 60, 3, 5.0, 15.0, 5.0, 15, 70, true, 2,
                   ["KR_BULLISH", "KR_NEUTRAL"], true,
                   100_000_000.0, 10.0, 10, 0.015, 0.1, 0.23)
  }

  /** `get_total_cost_pct`: commission on both legs, plus slippage and the sell-side tax. */
  function TotalCostPct(c: BacktestConfig): (pct: real)
    ensures c.commissionPct >= 0.0 && c.slippagePct >= 0.0 && c.taxPct >= 0.0 ==>
              pct >= c.commissionPct + c.slippagePct + c.taxPct
  {
    (c.commissionPct * 2.0) + c.slippagePct + c.taxPct
  }

  /** The default round trip costs 0.36%. */
  lemma DefaultTotalCost()
    ensures TotalCostPct(DefaultBacktestConfig()) == 0.36
    ensures TotalCostPct(Conservative()) == 0.36 && TotalCostPct(Aggressive()) == 0.36
  {
  }

  /** `should_trade_in_regime`. */
  function ShouldTradeInRegime(c: BacktestConfig, regime: string): (ok: bool)
    ensures ok <==> exists i :: 0 <= i < |c.allowedRegimes| && c.allowedRegimes[i] == regime
  {
    regime in c.allowedRegimes
  }

  /** With the default allow-list only the bullish and neutral regimes trade. */
  lemma DefaultRegimes(r: MarketRegime)
    ensures ShouldTradeInRegime(DefaultBacktestConfig(), RegimeName(r)) <==> r != KrBearish
  {
    if r == KrBearish {
      assert RegimeName(r) != "KR_BULLISH" && RegimeName(r) != "KR_NEUTRAL";
    }
  }

  /** `conservative`: the defaults with a tighter stop, a nearer target and smaller positions. */
  function Conservative(): (c: BacktestConfig)
    ensures c.stopLossPct == 3.0 && c.takeProfitPct == 10.0 && c.stopLossPct < c.takeProfitPct
    ensures c.entryTrigger == DoubleBuy && c.minScore == 70 && c.maxPositions == 5
    ensures c.allowedRegimes == DefaultBacktestConfig().allowedRegimes
    ensures c.commissionPct == DefaultBacktestConfig().commissionPct
  {
    DefaultBacktestConfig().(entryTrigger := DoubleBuy, minScore := 70, minConsecutiveDays := 5,
                             stopLossPct := 3.0, takeProfitPct := 10.0, trailingStopPct := 4.0,
                             maxHoldDays := 10, exitOnForeignSell := true, foreignSellDays := 1,
                             positionSizePct := 5.0, maxPositions := 5)
  }

  /** `aggressive`: the defaults with a wider stop, a farther target and larger positions. */
  function Aggressive(): (c: BacktestConfig)
    ensures c.stopLossPct == 7.0 && c.takeProfitPct == 25.0 && c.stopLossPct < c.takeProfitPct
    ensures c.entryTrigger == ForeignerBuy && c.minScore == 50 && c.maxPositions == 15
    ensures c.foreignSellDays == DefaultBacktestConfig().foreignSellDays
    ensures c.allowedRegimes == DefaultBacktestConfig().allowedRegimes
  {
    DefaultBacktestConfig().(entryTrigger := ForeignerBuy, minScore := 50, minConsecutiveDays := 3,
                             stopLossPct := 7.0, takeProfitPct := 25.0, trailingStopPct := 6.0,
                             maxHoldDays := 20, exitOnForeignSell := false,
                             positionSizePct := 15.0, maxPositions := 15)
  }
}
