/**
 * The tool set offered to the trading LLM: the read-only broker tools that
 * survive the allow-list, plus one validated write tool that can only buy,
 * with a mandatory stop-loss and take-profit (a bracket order).
 */
module SafeTools {
  import opened Common

  /** A broker tool, identified by its name. */
  datatype Tool = Tool(name: string)

  const BracketToolName: string := "place_buy_bracket_order"

  /** The entries of `ALLOWED_TOOL_NAMES`, sixteen read operations. */
  const AllowedToolList: seq<string> := [
    "get_account", "get_positions", "get_position", "get_open_orders", "get_orders", "get_order",
    "get_stock_quote", "get_stock_bars", "get_stock_latest_bar", "get_stock_latest_quote",
    "get_stock_latest_trade", "get_stock_snapshot", "get_market_clock",
    "get_stock_historical_bars", "get_stock_historical_quotes", "get_stock_historical_trades"
  ]

  /** `ALLOWED_TOOL_NAMES`. */
  const AllowedToolNames: set<string> := set n | n in AllowedToolList

  predicate IsAllowed(t: Tool) { t.name in AllowedToolNames }

  /** Every allowed name is a `get_` read; the write tool is not among them. */
  lemma AllowedNamesAreReads()
    ensures forall n :: n in AllowedToolNames ==> StartsWith(n, "get_")
    ensures BracketToolName !in AllowedToolNames
  {
    forall i | 0 <= i < |AllowedToolList|
      ensures AllowedToolList[i][..4] == "get_"
    {
    }
    assert BracketToolName[0] == 'p';
  }

  /** `filter_safe_tools`: the allowed tools of the input, in input order. */
  method FilterSafeTools(all: seq<Tool>) returns (safe: seq<Tool>)
    ensures safe == Filter(all, IsAllowed)
    ensures forall i :: 0 <= i < |safe| ==> safe[i].name in AllowedToolNames
    ensures forall i :: 0 <= i < |all| && all[i].name in AllowedToolNames ==> all[i] in safe
  {
    safe := [];
    var i := 0;
    while i < |all|
      invariant 0 <= i <= |all|
      invariant safe == Filter(all[..i], IsAllowed)
    {
      FilterSnoc(all[..i], all[i], IsAllowed);
      assert all[..i + 1] == all[..i] + [all[i]];
      if all[i].name in AllowedToolNames {
        safe := safe + [all[i]];
      }
      i := i + 1;
    }
    assert all[..i] == all;
  }

  /** `get_safe_trading_tools`: the filtered reads followed by the one write tool. */
  method GetSafeTradingTools(all: seq<Tool>) returns (tools: seq<Tool>)
    ensures |tools| >= 1 && tools[|tools| - 1] == Tool(BracketToolName)
    ensures tools[..|tools| - 1] == Filter(all, IsAllowed)
    ensures forall i :: 0 <= i < |tools| - 1 ==> tools[i].name in AllowedToolNames
    ensures forall i :: 0 <= i < |tools| && tools[i].name !in AllowedToolNames ==> i == |tools| - 1
  {
    var readTools := FilterSafeTools(all);
    tools := readTools + [Tool(BracketToolName)];
    assert tools[..|tools| - 1] == readTools;
  }

  // ---------------------------------------------------------------------
  // place_buy_bracket_order: validation

  /** The arguments of `place_buy_bracket_order`; an omitted optional is None. */
  datatype BracketRequest = BracketRequest(
    symbol: string,
    qty: Option<real>,
    stopLossPrice: Option<real>,
    takeProfitPrice: Option<real>,
    orderType: string,
    limitPrice: Option<real>,
    timeInForce: string,
    extendedHours: bool)

  datatype BracketRejection =
    | QtyMissingOrNotPositive
    | QtyNotWhole
    | StopLossMissingOrNotPositive
    | TakeProfitMissingOrNotPositive
    | ExtendedHoursNeedsLimitType
    | ExtendedHoursNeedsDay
    | ExtendedHoursNeedsLimitPrice
    | LimitTypeNeedsLimitPrice
    | StopLossNotBelowEntry
    | TakeProfitNotAboveEntry

  predicate IsWhole(x: real) { x == (x.Floor as real) }

  /** Python truthiness of an optional float. */
  predicate Truthy(x: Option<real>) { x.Some? && x.value != 0.0 }

  /** The requirements on a bracket request, stated as one conjunction. */
  predicate AcceptableBracket(r: BracketRequest) {
    && r.qty.Some? && r.qty.value > 0.0 && IsWhole(r.qty.value)
    && r.stopLossPrice.Some? && r.stopLossPrice.value > 0.0
    && r.takeProfitPrice.Some? && r.takeProfitPrice.value > 0.0
    && (r.extendedHours ==> r.orderType == "limit" && r.timeInForce == "day" && r.limitPrice.Some?)
    && (r.orderType == "limit" ==> r.limitPrice.Some?)
    && (Truthy(r.limitPrice) ==>
          r.stopLossPrice.value < r.limitPrice.value < r.takeProfitPrice.value)
  }

  /** The validation section: the first failed check, or None when the request may be submitted. */
  function ValidateBracket(r: BracketRequest): (v: Option<BracketRejection>)
    ensures v.None? <==> AcceptableBracket(r)
    ensures (r.qty.None? || r.qty.value <= 0.0) ==> v == Some(QtyMissingOrNotPositive)
    ensures r.qty.Some? && r.qty.value > 0.0 && !IsWhole(r.qty.value) ==> v == Some(QtyNotWhole)
    ensures v.None? ==> r.stopLossPrice.value > 0.0 && r.takeProfitPrice.value > 0.0
    ensures v.None? && Truthy(r.limitPrice) ==>
              r.stopLossPrice.value < r.limitPrice.value < r.takeProfitPrice.value
  {
    if r.qty.None? || r.qty.value <= 0.0 then Some(QtyMissingOrNotPositive)
    else if r.qty.value != (r.qty.value.Floor as real) then Some(QtyNotWhole)
    else if r.stopLossPrice.None? || r.stopLossPrice.value <= 0.0 then Some(StopLossMissingOrNotPositive)
    else if r.takeProfitPrice.None? || r.takeProfitPrice.value <= 0.0 then Some(TakeProfitMissingOrNotPositive)
    else if r.extendedHours && r.orderType != "limit" then Some(ExtendedHoursNeedsLimitType)
    else if r.extendedHours && r.timeInForce != "day" then Some(ExtendedHoursNeedsDay)
    else if r.extendedHours && r.limitPrice.None? then Some(ExtendedHoursNeedsLimitPrice)
    else if r.orderType == "limit" && r.limitPrice.None? then Some(LimitTypeNeedsLimitPrice)
    else if Truthy(r.limitPrice) && r.stopLossPrice.value >= r.limitPrice.value then Some(StopLossNotBelowEntry)
    else if Truthy(r.limitPrice) && r.takeProfitPrice.value <= r.limitPrice.value then Some(TakeProfitNotAboveEntry)
    else None
  }

  // ---------------------------------------------------------------------
  // place_buy_bracket_order: the order sent to the broker

  datatype Side = Buy | Sell
  datatype TimeInForce = Day | Gtc | Ioc | Fok
  datatype Entry = MarketEntry | LimitEntry(price: real)

  datatype BracketOrder = BracketOrder(
    symbol: string,
    side: Side,
    qty: int,
    timeInForce: TimeInForce,
    entry: Entry,
    stopPrice: real,
    takeProfitPrice: real,
    extendedHours: bool)

  /** `tif_map.get(time_in_force.lower(), TimeInForce.DAY)`. */
  function TimeInForceOf(s: string): (t: TimeInForce)
    ensures Lower(s) == "gtc" <==> t == Gtc
    ensures Lower(s) == "ioc" <==> t == Ioc
    ensures Lower(s) == "fok" <==> t == Fok
  {
    var l := Lower(s);
    if l == "gtc" then Gtc else if l == "ioc" then Ioc else if l == "fok" then Fok else Day
  }

  /** What the tool returns: a validation rejection, a failure while building or
      submitting, or the order the broker accepted. */
  datatype BracketResult =
    | Rejected(reason: BracketRejection)
    | Failed
    | Submitted(order: BracketOrder)

  /**
   * `place_buy_bracket_order`. `submitSucceeds` is the broker's answer to the
   * submission. A type other than "market" builds a limit order, whose missing
   * limit price trips the internal assertion and ends in the error status.
   */
  function PlaceBuyBracketOrder(r: BracketRequest, submitSucceeds: bool): (res: BracketResult)
    ensures res.Rejected? <==> !AcceptableBracket(r)
    ensures res.Submitted? ==> res.order.side == Buy
    ensures res.Submitted? ==> res.order.qty > 0 && res.order.qty as real == r.qty.value
    ensures res.Submitted? ==> 0.0 < res.order.stopPrice && 0.0 < res.order.takeProfitPrice
    ensures res.Submitted? && res.order.entry.LimitEntry? && res.order.entry.price != 0.0 ==>
              res.order.stopPrice < res.order.entry.price < res.order.takeProfitPrice
    ensures res.Submitted? && r.extendedHours ==> res.order.entry.LimitEntry? && res.order.timeInForce == Day
    ensures res.Submitted? ==> submitSucceeds
  {
    match ValidateBracket(r)
    case Some(reason) => Rejected(reason)
    case None =>
      if r.orderType != "market" && r.limitPrice.None? then Failed
      else if !submitSucceeds then Failed
      else
        Submitted(BracketOrder(
          r.symbol, Buy, r.qty.value.Floor, TimeInForceOf(r.timeInForce),
          if r.orderType == "market" then MarketEntry else LimitEntry(r.limitPrice.value),
          r.stopLossPrice.value, r.takeProfitPrice.value, r.extendedHours))
  }
}
