/**
 * `TradingConstraints`: the rule book a proposed trade must pass, and the
 * per-day trade counter it keeps.
 */
module Constraints {
  import opened Common

  /** The seven configurable limits; a missing config key takes its default. */
  datatype Limits = Limits(
    maxPositionSizePct: real,
    maxPortfolioConcentration: real,
    maxTradesPerDay: int,
    minCashReservePct: real,
    stopLossPct: real,
    minHoldingDays: int,
    minConvictionScore: real)

  /** The optional config entries, as the config dictionary supplies them. */
  datatype LimitsConfig = LimitsConfig(
    maxPositionSizePct: Option<real>,
    maxPortfolioConcentration: Option<real>,
    maxTradesPerDay: Option<int>,
    minCashReservePct: Option<real>,
    stopLossPct: Option<real>,
    minHoldingDays: Option<int>,
    minConvictionScore: Option<real>)

  function LimitsOf(c: LimitsConfig): (l: Limits)
    ensures c.maxTradesPerDay.None? ==> l.maxTradesPerDay == 10
    ensures c.minConvictionScore.None? ==> l.minConvictionScore == 7.0
  {
    Limits(
      c.maxPositionSizePct.GetOr(10.0),
      c.maxPortfolioConcentration.GetOr(30.0),
      c.maxTradesPerDay.GetOr(10),
      c.minCashReservePct.GetOr(5.0),
      c.stopLossPct.GetOr(5.0),
      c.minHoldingDays.GetOr(7),
      c.minConvictionScore.GetOr(7.0))
  }

  /** A proposed trade; a key missing from the dictionary is None. */
  datatype Trade = Trade(
    ticker: Option<string>,
    action: Option<string>,
    quantity: Option<real>,
    convictionScore: Option<real>,
    estimatedPrice: Option<real>)

  /** One entry of `portfolio_state["positions"]`. */
  datatype Holding = Holding(qty: Option<real>, holdingDays: Option<int>, unrealizedPlPct: Option<real>)

  datatype PortfolioState = PortfolioState(
    cash: Option<real>,
    portfolioValue: Option<real>,
    positions: Option<map<string, Holding>>)

  /** The reason a trade is turned down, in the order the checks run. */
  datatype Rejection =
    | LowConviction
    | DailyLimitReached
    | InsufficientCash
    | PositionTooLarge
    | CashReserveViolated
    | NoPositionToSell
    | SellExceedsHolding
    | HoldingPeriodTooShort

  datatype Verdict = Valid | Rejected(reason: Rejection)

  function Conviction(t: Trade): real { t.convictionScore.GetOr(0.0) }
  function Action(t: Trade): string { Upper(t.action.GetOr("")) }
  function Quantity(t: Trade): real { t.quantity.GetOr(0.0) }
  function Cost(t: Trade): real { Quantity(t) * t.estimatedPrice.GetOr(0.0) }
  function Cash(p: PortfolioState): real { p.cash.GetOr(0.0) }
  function Value(p: PortfolioState): real { p.portfolioValue.GetOr(0.0) }
  function Positions(p: PortfolioState): map<string, Holding> { p.positions.GetOr(map[]) }

  /**
   * The rule book stated as one conjunction: what an acceptable trade looks
   * like, independent of the order in which `validate_trade` checks it.
   */
  predicate Acceptable(l: Limits, tradesToday: int, t: Trade, p: PortfolioState) {
    && Conviction(t) >= l.minConvictionScore
    && tradesToday < l.maxTradesPerDay
    && (Action(t) == "BUY" ==>
          && Cost(t) <= Cash(p)
          && (Value(p) > 0.0 ==> Cost(t) / Value(p) * 100.0 <= l.maxPositionSizePct)
          && Cash(p) - Cost(t) >= Value(p) * (l.minCashReservePct / 100.0))
    && (Action(t) == "SELL" ==>
          && t.ticker.GetOr("") in Positions(p)
          && var h := Positions(p)[t.ticker.GetOr("")];
             && Quantity(t) <= h.qty.GetOr(0.0)
             && (h.unrealizedPlPct.GetOr(0.0) <= -l.stopLossPct
                 || h.holdingDays.GetOr(0) >= l.minHoldingDays))
  }

  class TradingConstraints {
    const limits: Limits
    var tradesToday: int

    constructor (config: LimitsConfig)
      ensures limits == LimitsOf(config) && tradesToday == 0
    {
      limits := LimitsOf(config);
      tradesToday := 0;
    }

    /**
     * `validate_trade`: reads the limits and the counter, changes nothing.
     * It accepts exactly the trades the rule book allows, and a rejection
     * names the first check that failed.
     */
    function ValidateTrade(t: Trade, p: PortfolioState): (v: Verdict)
      reads this
      ensures v.Valid? <==> Acceptable(limits, tradesToday, t, p)
      ensures Conviction(t) < limits.minConvictionScore ==> v == Rejected(LowConviction)
      ensures tradesToday >= limits.maxTradesPerDay ==> v.Rejected?
      ensures Conviction(t) >= limits.minConvictionScore && tradesToday >= limits.maxTradesPerDay ==>
                v == Rejected(DailyLimitReached)
      ensures v.Valid? && Action(t) == "BUY" ==>
                Cost(t) <= Cash(p) && Cash(p) - Cost(t) >= Value(p) * limits.minCashReservePct / 100.0
      ensures v.Valid? && Action(t) == "BUY" && Value(p) > 0.0 ==>
                Cost(t) / Value(p) * 100.0 <= limits.maxPositionSizePct
      ensures v.Valid? && Action(t) == "SELL" ==>
                t.ticker.GetOr("") in Positions(p) && Quantity(t) <= Positions(p)[t.ticker.GetOr("")].qty.GetOr(0.0)
      ensures v.Valid? && Action(t) == "SELL" &&
              Positions(p)[t.ticker.GetOr("")].holdingDays.GetOr(0) < limits.minHoldingDays ==>
                Positions(p)[t.ticker.GetOr("")].unrealizedPlPct.GetOr(0.0) <= -limits.stopLossPct
      ensures Action(t) != "BUY" && Action(t) != "SELL" ==>
                (v.Valid? <==> Conviction(t) >= limits.minConvictionScore && tradesToday < limits.maxTradesPerDay)
    {
      if Conviction(t) < limits.minConvictionScore then Rejected(LowConviction)
      else if tradesToday >= limits.maxTradesPerDay then Rejected(DailyLimitReached)
      else if Action(t) == "BUY" then
        var cash, cost, value := Cash(p), Cost(t), Value(p);
        if cost > cash then Rejected(InsufficientCash)
        else if value > 0.0 && cost / value * 100.0 > limits.maxPositionSizePct then Rejected(PositionTooLarge)
        else if cash - cost < value * (limits.minCashReservePct / 100.0) then Rejected(CashReserveViolated)
        else Valid
      else if Action(t) == "SELL" then
        var positions, ticker := Positions(p), t.ticker.GetOr("");
        if ticker !in positions then Rejected(NoPositionToSell)
        else
          var h := positions[ticker];
          if Quantity(t) > h.qty.GetOr(0.0) then Rejected(SellExceedsHolding)
          else if h.unrealizedPlPct.GetOr(0.0) <= -limits.stopLossPct then Valid
          else if h.holdingDays.GetOr(0) < limits.minHoldingDays then Rejected(HoldingPeriodTooShort)
          else Valid
      else Valid
    }

    /** `increment_trade_count`. */
    method IncrementTradeCount()
      modifies this
      ensures tradesToday == old(tradesToday) + 1
    {
      tradesToday := tradesToday + 1;
    }

    /** `reset_daily_counter`. */
    method ResetDailyCounter()
      modifies this
      ensures tradesToday == 0
    {
      tradesToday := 0;
    }
  }
}
