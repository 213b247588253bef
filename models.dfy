/**
 * The backtest trade record (models.py): a trade is open until it has an
 * exit price, and its return, profit, R multiple, win flag and holding days
 * are derived from its entry and exit. A Python expression that raises (a
 * division by a zero entry price, a subtraction from a missing exit time) is
 * `None`.
 */
module Models {

  import opened Wrappers
  import opened Json

  const SecondsPerDay: int := 86400

  datatype Trade = Trade(
    ticker: string,
    name: string,
    entryTime: int,
    entryPrice: real,
    entryType: string,
    entryScore: int,
    exitTime: Option<int>,
    exitPrice: Option<real>,
    exitReason: Option<string>,
    quantity: int,
    positionValue: real,
    stopLoss: real,
    takeProfit: Option<real>,
    foreignNet5d: int,
    instNet5d: int,
    marketRegime: string)
  {
    /** A trade is closed exactly when it has an exit price. */
    predicate IsClosed() {
      exitPrice.Some?
    }

    /** The return in percent of the entry price; 0 while open, `None` for a closed trade entered at 0. */
    function ReturnPct(): (r: Option<real>)
      ensures !IsClosed() ==> r == Some(0.0)
      ensures IsClosed() ==> (r.None? <==> entryPrice == 0.0)
      ensures IsClosed() && r.Some? ==> r.value * entryPrice == (exitPrice.value - entryPrice) * 100.0
    {
      if !IsClosed() then Some(0.0)
      else if entryPrice == 0.0 then None
      else Some(((exitPrice.value - entryPrice) / entryPrice) * 100.0)
    }

    /** The profit or loss in money: the price move times the share count, 0 while open. */
    function Pnl(): (p: real)
      ensures !IsClosed() ==> p == 0.0
    {
      if !IsClosed() then 0.0 else (exitPrice.value - entryPrice) * quantity as real
    }

    /**
     * The reward in units of the initial risk: 0 while open, without a stop,
     * or when the stop is not below the entry; otherwise the price move over
     * the distance from entry to stop.
     */
    function RMultiple(): (r: real)
      ensures !IsClosed() || stopLoss == 0.0 || entryPrice - stopLoss <= 0.0 ==> r == 0.0
      ensures IsClosed() && stopLoss != 0.0 && entryPrice - stopLoss > 0.0 ==>
                r * (entryPrice - stopLoss) == exitPrice.value - entryPrice
    {
      if !IsClosed() || stopLoss == 0.0 then 0.0
      else
        var risk := entryPrice - stopLoss;
        if risk <= 0.0 then 0.0 else (exitPrice.value - entryPrice) / risk
    }

    /** Whether the return is positive; `None` when the return raises. */
    function IsWinner(): (w: Option<bool>)
      ensures w.None? <==> ReturnPct().None?
      ensures w.Some? ==> (w.value <==> ReturnPct().value > 0.0)
    {
      match ReturnPct()
      case None => None
      case Some(r) => Some(r > 0.0)
    }

    /**
     * Whole days between entry and exit, by floor division: 0 while open,
     * `None` for a closed trade without an exit time.
     */
    function HoldingDays(): (d: Option<int>)
      ensures !IsClosed() ==> d == Some(0)
      ensures IsClosed() ==> (d.None? <==> exitTime.None?)
      ensures IsClosed() && d.Some? ==>
                d.value * SecondsPerDay <= exitTime.value - entryTime < (d.value + 1) * SecondsPerDay
    {
      if !IsClosed() then Some(0)
      else if exitTime.None? then None
      else Some((exitTime.value - entryTime) / SecondsPerDay)
    }

    /** `to_dict`: the sixteen fields in declaration order, then the six derived values; `None` when one of them raises. */
    function ToDict(): (d: Option<JsonValue>)
      ensures d.None? <==> ReturnPct().None? || HoldingDays().None?
      ensures d.Some? ==> d.value.JObject? && |d.value.fields| == 22
      ensures d.Some? ==> d.value.fields[..16] == RecordFields()
      ensures d.Some? ==> Keys(d.value.fields[16..]) == ["is_closed", "return_pct", "pnl", "r_multiple", "is_winner", "holding_days"]
      ensures d.Some? ==> d.value.fields[16..] == DerivedFields()
    {
      if ReturnPct().None? || HoldingDays().None? then None
      else
        var base := RecordFields();
        var derived := DerivedFields();
        assert (base + derived)[16..] == derived;
        assert (base + derived)[..16] == base;
        Some(JObject(base + derived))
    }

    /** The sixteen stored fields, in declaration order. */
    function RecordFields(): (f: seq<(string, JsonValue)>)
      ensures |f| == 16
      ensures Keys(f) == ["ticker", "name", "entry_time", "entry_price", "entry_type", "entry_score",
                          "exit_time", "exit_price", "exit_reason", "quantity", "position_value", "stop_loss",
                          "take_profit", "foreign_net_5d", "inst_net_5d", "market_regime"]
      ensures f[1].1 == JStr(name) && f[3].1 == JReal(entryPrice) && f[7].1 == OptReal(exitPrice)
      ensures f[9].1 == JInt(quantity) && f[11].1 == JReal(stopLoss)
    {
      [("ticker", JStr(ticker)), ("name", JStr(name)),
       ("entry_time", JInt(entryTime)), ("entry_price", JReal(entryPrice)),
       ("entry_type", JStr(entryType)), ("entry_score", JInt(entryScore)),
       ("exit_time", OptInt(exitTime)), ("exit_price", OptReal(exitPrice)),
       ("exit_reason", OptStr(exitReason)), ("quantity", JInt(quantity)),
       ("position_value", JReal(positionValue)), ("stop_loss", JReal(stopLoss)),
       ("take_profit", OptReal(takeProfit)), ("foreign_net_5d", JInt(foreignNet5d)),
       ("inst_net_5d", JInt(instNet5d)), ("market_regime", JStr(marketRegime))]
    }

    /** The six derived values, for a trade whose return and holding time do not raise. */
    function DerivedFields(): (f: seq<(string, JsonValue)>)
      requires ReturnPct().Some? && HoldingDays().Some?
      ensures |f| == 6
      ensures Keys(f) == ["is_closed", "return_pct", "pnl", "r_multiple", "is_winner", "holding_days"]
      ensures f[0].1 == JBool(IsClosed()) && f[1].1 == JReal(ReturnPct().value) && f[5].1 == JInt(HoldingDays().value)
      ensures f[2].1 == JReal(Pnl()) && f[3].1 == JReal(RMultiple()) && f[4].1 == JBool(IsWinner().value)
    {
      [("is_closed", JBool(IsClosed())), ("return_pct", JReal(ReturnPct().value)),
       ("pnl", JReal(Pnl())), ("r_multiple", JReal(RMultiple())),
       ("is_winner", JBool(IsWinner().value)), ("holding_days", JInt(HoldingDays().value))]
    }
  }

  /** An open trade reports no return, no profit, no R multiple, no holding time and is not a winner. */
  lemma OpenTradeIsFlat(t: Trade)
    requires !t.IsClosed()
    ensures t.ReturnPct() == Some(0.0) && t.Pnl() == 0.0 && t.RMultiple() == 0.0
    ensures t.HoldingDays() == Some(0) && t.IsWinner() == Some(false)
  {
  }

  /** For a positive entry price a trade wins exactly when it exits above its entry. */
  lemma WinnerIffExitAboveEntry(t: Trade)
    requires t.IsClosed() && t.entryPrice > 0.0
    ensures t.IsWinner() == Some(t.exitPrice.value > t.entryPrice)
  {
    var r := t.ReturnPct().value;
    var move := t.exitPrice.value - t.entryPrice;
    assert r * t.entryPrice == move * 100.0;
    SignOfQuotient(r, t.entryPrice, move * 100.0);
  }

  /** With a positive entry price and a positive share count, a winner is exactly a trade with a positive profit. */
  lemma WinnerIffProfit(t: Trade)
    requires t.IsClosed() && t.entryPrice > 0.0 && t.quantity > 0
    ensures t.IsWinner() == Some(t.Pnl() > 0.0)
  {
    WinnerIffExitAboveEntry(t);
    var move := t.exitPrice.value - t.entryPrice;
    var q := t.quantity as real;
    assert t.Pnl() == move * q;
    SignOfQuotient(move, q, move * q);
  }

  /** When `x * d == y` with `d > 0`, `x` and `y` have the same sign. */
  lemma SignOfQuotient(x: real, d: real, y: real)
    requires d > 0.0 && x * d == y
    ensures x > 0.0 <==> y > 0.0
  {
    if x > 0.0 {
      assert x * d > 0.0;
    } else {
      assert (-x) * d >= 0.0;
    }
  }

  /** The R multiple of a trade that exits at its stop is -1. */
  lemma StoppedOutIsMinusOneR(t: Trade)
    requires t.IsClosed() && t.exitPrice.value == t.stopLoss
    requires t.stopLoss != 0.0 && t.entryPrice - t.stopLoss > 0.0
    ensures t.RMultiple() == -1.0
  {
    var risk := t.entryPrice - t.stopLoss;
    var m := t.RMultiple();
    assert m * risk == t.exitPrice.value - t.entryPrice;
    assert t.exitPrice.value - t.entryPrice == -risk;
    assert (m + 1.0) * risk == m * risk + risk;
    SignOfQuotient(m + 1.0, risk, 0.0);
    SignOfQuotient(-(m + 1.0), risk, 0.0);
  }
}
