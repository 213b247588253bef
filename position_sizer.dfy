/**
 * R-based position sizing (engine/position_sizer.py): one R is a fixed
 * fraction of capital scaled by the grade's multiplier, and the share count is
 * the largest whole number whose per-share risk stays within one R.
 */
module Sizer {

  import opened Series
  import opened EngineConfig

  /** The dictionary `calculate_position` returns. */
  datatype PositionPlan = PositionPlan(rValue: real, riskPerShare: real, quantity: int,
                                       positionValue: real, positionPct: real)

  /** The plan for a grade that is not traded. */
  function ZeroPlan(): (p: PositionPlan)
    ensures p.rValue == 0.0 && p.riskPerShare == 0.0 && p.quantity == 0
    ensures p.positionValue == 0.0 && p.positionPct == 0.0
  {
    PositionPlan(0.0, 0.0, 0, 0.0, 0.0)
  }

  /** The grade's `r_multiplier`, or 1.0 for a grade the table does not list. */
  function GradeMultiplier(table: map<Grade, GradeConfig>, g: Grade): (m: real)
    ensures g in table ==> m == table[g].rMultiplier
    ensures g !in table ==> m == 1.0
  {
    if g in table then table[g].rMultiplier else 1.0
  }

  /** A position's share of the capital in percent, or 0 without capital. */
  function PctOfCapital(positionValue: real, capital: real): real {
    if capital > 0.0 then (positionValue / capital) * 100.0 else 0.0
  }

  /** One R: the capital times the R fraction, scaled by the grade's multiplier. */
  function RiskBudget(capital: real, rRatio: real, table: map<Grade, GradeConfig>, grade: Grade): real {
    capital * rRatio * GradeMultiplier(table, grade)
  }

  /**
   * `calculate_position` as a function of the sizer's state and its
   * arguments. Grade C is all zero; a non-positive per-share risk keeps R but
   * buys nothing; otherwise the quantity is R over the risk, truncated, and
   * never risks more than one R.
   */
  function PlanFor(capital: real, rRatio: real, table: map<Grade, GradeConfig>,
                   entry: real, stop: real, grade: Grade): (p: PositionPlan)
    ensures grade == C ==> p == ZeroPlan()
    ensures grade != C ==> p.rValue == RiskBudget(capital, rRatio, table, grade)
    ensures grade != C && entry - stop <= 0.0 ==>
              p.riskPerShare == 0.0 && p.quantity == 0 && p.positionValue == 0.0 && p.positionPct == 0.0
    ensures grade != C && entry - stop > 0.0 ==>
              p.riskPerShare == entry - stop &&
              p.quantity == Trunc(p.rValue / p.riskPerShare) &&
              p.positionValue == p.quantity as real * entry &&
              p.positionPct == PctOfCapital(p.positionValue, capital)
  {
    if grade == C then ZeroPlan()
    else
      var rValue := RiskBudget(capital, rRatio, table, grade);
      if entry - stop <= 0.0 then PositionPlan(rValue, 0.0, 0, 0.0, 0.0)
      else SizedPlan(capital, rValue, entry - stop, entry)
  }

  /**
   * The plan for a positive per-share risk: for a non-negative R, the largest
   * whole number of shares whose risk stays within R, bought at the entry.
   */
  function SizedPlan(capital: real, rValue: real, riskPerShare: real, entry: real): (p: PositionPlan)
    requires riskPerShare > 0.0
    ensures p.rValue == rValue && p.riskPerShare == riskPerShare
    ensures p.quantity == Trunc(rValue / riskPerShare)
    ensures rValue >= 0.0 ==>
              p.quantity >= 0 &&
              p.quantity as real * riskPerShare <= rValue < (p.quantity + 1) as real * riskPerShare
    ensures p.positionValue == p.quantity as real * entry
    ensures p.positionPct == PctOfCapital(p.positionValue, capital)
  {
    var quantity := Trunc(rValue / riskPerShare);
    QuotientBounds(rValue, riskPerShare, quantity);
    var positionValue := quantity as real * entry;
    PositionPlan(rValue, riskPerShare, quantity, positionValue, PctOfCapital(positionValue, capital))
  }

  /**
   * The share count never risks more than one R, and one more share would:
   * `quantity * risk_per_share <= r_value < (quantity + 1) * risk_per_share`.
   */
  lemma QuantityWithinOneR(capital: real, rRatio: real, table: map<Grade, GradeConfig>,
                           entry: real, stop: real, grade: Grade)
    requires grade != C && entry - stop > 0.0
    ensures var p := PlanFor(capital, rRatio, table, entry, stop, grade);
            p.rValue >= 0.0 ==>
              p.quantity >= 0 &&
              p.quantity as real * p.riskPerShare <= p.rValue < (p.quantity + 1) as real * p.riskPerShare
  {
    var p := PlanFor(capital, rRatio, table, entry, stop, grade);
    QuotientBounds(p.rValue, p.riskPerShare, p.quantity);
  }

  /** Truncating a non-negative quotient gives the largest multiple not above the dividend. */
  lemma QuotientBounds(r: real, d: real, q: int)
    requires d > 0.0
    requires q == Trunc(r / d)
    ensures r >= 0.0 ==> q >= 0 && q as real * d <= r < (q + 1) as real * d
  {
    if r >= 0.0 {
      var x := r / d;
      var qr := q as real;
      assert x * d == r;
      PositiveProduct(x, d);
      assert qr <= x < qr + 1.0;
      ProductOrder(qr, x, d);
      ProductOrder(x, qr + 1.0, d);
      var q1 := (q + 1) as real;
      assert q1 == qr + 1.0;
      assert r < q1 * d;
    }
  }

  /** Multiplying by a positive factor keeps the order. */
  lemma ProductOrder(a: real, b: real, d: real)
    requires d > 0.0 && a <= b
    ensures a * d <= b * d
    ensures a < b ==> a * d < b * d
  {
    PositiveProduct(b - a, d);
    assert (b - a) * d == b * d - a * d;
  }

  lemma PositiveProduct(a: real, b: real)
    requires b > 0.0
    ensures a >= 0.0 ==> a * b >= 0.0
    ensures a > 0.0 ==> a * b > 0.0
  {
  }

  /** A price lowered by a fraction of itself. */
  function Lowered(price: real, f: real): real {
    price * (1.0 - f)
  }

  /** A price raised by a fraction of itself. */
  function Raised(price: real, f: real): real {
    price * (1.0 + f)
  }

  /** A fraction in (0, 1) lowers a positive price to a positive price below it. */
  lemma LoweredBracket(price: real, f: real)
    requires price > 0.0 && 0.0 < f < 1.0
    ensures 0.0 < Lowered(price, f) < price
  {
    PositiveProduct(f, price);
    PositiveProduct(1.0 - f, price);
    assert price * (1.0 - f) == price - price * f;
    assert price * (1.0 - f) > 0.0;
    assert Lowered(price, f) == price * (1.0 - f);
  }

  /** A positive fraction raises a positive price above it. */
  lemma RaisedAbove(price: real, f: real)
    requires price > 0.0 && f > 0.0
    ensures Raised(price, f) > price
  {
    PositiveProduct(f, price);
    assert price * (1.0 + f) == price + price * f;
    assert Raised(price, f) == price * (1.0 + f);
  }

  /** `calculate_stop_loss`: the entry lowered by the stop-loss fraction. */
  function StopLoss(cfg: SignalConfig, entry: real): real {
    Lowered(entry, cfg.stopLossPct)
  }

  /** `calculate_target_price`: the entry raised by the take-profit fraction. */
  function TargetPrice(cfg: SignalConfig, entry: real): real {
    Raised(entry, cfg.takeProfitPct)
  }

  /** For a positive entry and a stop fraction in (0, 1) the stop is positive and below the entry. */
  lemma StopBelowEntry(cfg: SignalConfig, entry: real)
    requires entry > 0.0 && 0.0 < cfg.stopLossPct < 1.0
    ensures 0.0 < StopLoss(cfg, entry) < entry
  {
    LoweredBracket(entry, cfg.stopLossPct);
  }

  /** For a positive entry and a positive take-profit fraction the target is above the entry. */
  lemma TargetAboveEntry(cfg: SignalConfig, entry: real)
    requires entry > 0.0 && cfg.takeProfitPct > 0.0
    ensures TargetPrice(cfg, entry) > entry
  {
    RaisedAbove(entry, cfg.takeProfitPct);
  }

  /** The plan sized at the configured stop below a positive entry risks at most one R. */
  lemma StopSizedPlan(cfg: SignalConfig, capital: real, rRatio: real, entry: real, grade: Grade)
    requires entry > 0.0 && 0.0 < cfg.stopLossPct < 1.0 && grade != C
    ensures StopLoss(cfg, entry) < entry
    ensures var p := PlanFor(capital, rRatio, cfg.gradeConfigs, entry, StopLoss(cfg, entry), grade);
            p.rValue >= 0.0 ==> 0 <= p.quantity && p.quantity as real * (entry - StopLoss(cfg, entry)) <= p.rValue
  {
    StopBelowEntry(cfg, entry);
    QuantityWithinOneR(capital, rRatio, cfg.gradeConfigs, entry, StopLoss(cfg, entry), grade);
  }

  /** `calculate_risk_reward`: reward over risk, or 0 when the risk is not positive. */
  function RiskReward(entry: real, stop: real, target: real): (rr: real)
    ensures entry - stop <= 0.0 ==> rr == 0.0
    ensures entry - stop > 0.0 ==> rr * (entry - stop) == target - entry
  {
    var risk := entry - stop;
    var reward := target - entry;
    if risk <= 0.0 then 0.0 else reward / risk
  }

  /** With the default configuration the stop and the target bracket the entry: 0.97 and 1.05 of it. */
  lemma DefaultBracket(entry: real)
    requires entry > 0.0
    ensures StopLoss(DefaultSignalConfig(), entry) == entry * 0.97
    ensures TargetPrice(DefaultSignalConfig(), entry) == entry * 1.05
    ensures StopLoss(DefaultSignalConfig(), entry) < entry < TargetPrice(DefaultSignalConfig(), entry)
  {
    StopBelowEntry(DefaultSignalConfig(), entry);
    TargetAboveEntry(DefaultSignalConfig(), entry);
  }

  /** The sized branch of `calculate_position`: the quantity, its cost and its share of the capital. */
  method SizePosition(capital: real, rValue: real, riskPerShare: real, entry: real) returns (plan: PositionPlan)
    requires riskPerShare > 0.0
    ensures plan == SizedPlan(capital, rValue, riskPerShare, entry)
  {
    var quantity := Trunc(rValue / riskPerShare);
    var positionValue := quantity as real * entry;
    var positionPct := if capital > 0.0 then (positionValue / capital) * 100.0 else 0.0;
    plan := PositionPlan(rValue, riskPerShare, quantity, positionValue, positionPct);
  }

  /** Position sizer state: the configuration, the capital and the R fraction. */
  class PositionSizer {
    const config: SignalConfig
    var capital: real
    var rRatio: real

    /** A fresh sizer: capital 100,000,000 and R at 0.5% of it. */
    constructor(config: SignalConfig)
      ensures this.config == config
      ensures capital == 100_000_000.0 && rRatio == 0.005
    {
      this.config := config;
      capital := 100_000_000.0;
      rRatio := 0.005;
    }

    /** `set_capital`: replaces the capital and nothing else. */
    method SetCapital(c: real)
      modifies this`capital
      ensures capital == c
    {
      capital := c;
    }

    /** `calculate_position` on the current capital. */
    method CalculatePosition(entry: real, stop: real, grade: Grade) returns (plan: PositionPlan)
      ensures plan == PlanFor(capital, rRatio, config.gradeConfigs, entry, stop, grade)
    {
      if grade == C {
        plan := ZeroPlan();
      } else {
        var rValue := RiskBudget(capital, rRatio, config.gradeConfigs, grade);
        var riskPerShare := entry - stop;
        if riskPerShare <= 0.0 {
          plan := PositionPlan(rValue, 0.0, 0, 0.0, 0.0);
        } else {
          plan := SizePosition(capital, rValue, riskPerShare, entry);
        }
      }
    }

    method CalculateStopLoss(entry: real) returns (s: real)
      ensures s == StopLoss(config, entry)
    {
      s := entry * (1.0 - config.stopLossPct);
    }

    method CalculateTargetPrice(entry: real) returns (t: real)
      ensures t == TargetPrice(config, entry)
    {
      t := entry * (1.0 + config.takeProfitPct);
    }

    method CalculateRiskReward(entry: real, stop: real, target: real) returns (rr: real)
      ensures rr == RiskReward(entry, stop, target)
    {
      rr := RiskReward(entry, stop, target);
    }
  }

  /**
   * The worked example: capital 1e8, entry 10000, stop 9700, grade A gives
   * R 500000, 1666 shares, 16,660,000 invested and 16.66% of capital.
   */
  lemma WorkedExample()
    ensures PlanFor(100_000_000.0, 0.005, DefaultGradeConfigs(), 10000.0, 9700.0, A)
            == PositionPlan(500000.0, 300.0, 1666, 16660000.0, 16.66)
  {
    var p := PlanFor(100_000_000.0, 0.005, DefaultGradeConfigs(), 10000.0, 9700.0, A);
    assert p.rValue == 500000.0;
    QuantityWithinOneR(100_000_000.0, 0.005, DefaultGradeConfigs(), 10000.0, 9700.0, A);
    assert p.quantity as real * 300.0 <= 500000.0 < (p.quantity + 1) as real * 300.0;
    assert p.quantity == 1666;
  }

  /** A fresh sizer with the default configuration produces the worked example. */
  method FreshSizerExample() returns (plan: PositionPlan)
    ensures plan == PositionPlan(500000.0, 300.0, 1666, 16660000.0, 16.66)
  {
    var sizer := new PositionSizer(DefaultSignalConfig());
    plan := sizer.CalculatePosition(10000.0, 9700.0, A);
    WorkedExample();
  }
}
