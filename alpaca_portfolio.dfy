/**
 * The Alpaca vendor layer of the portfolio manager: the dictionaries it
 * builds from the broker's account, positions and orders, the position
 * lookup by ticker, and the guard in front of a market order. What the
 * broker returns is a parameter: the records it lists, or its reply to an
 * order.
 */
module AlpacaPortfolio {
  import opened Common

  // ---------------------------------------------------------------------
  // Account

  /** The broker's account record; an absent key is None. */
  datatype BrokerAccount = BrokerAccount(
    cash: Option<real>, buyingPower: Option<real>, portfolioValue: Option<real>,
    equity: Option<real>, paperTrading: Option<bool>)

  /** The dictionary `get_alpaca_account_info` returns. */
  datatype AccountInfo = AccountInfo(
    cash: real, buyingPower: real, portfolioValue: real, equity: real, paperTrading: bool)

  /** `get_alpaca_account_info`: each amount the broker omits reads 0, the paper flag True. */
  function AccountInfoOf(a: BrokerAccount): (r: AccountInfo)
    ensures a.cash.None? ==> r.cash == 0.0
    ensures a.buyingPower.None? ==> r.buyingPower == 0.0
    ensures a.portfolioValue.None? ==> r.portfolioValue == 0.0
    ensures a.paperTrading.None? ==> r.paperTrading
    ensures a.cash.Some? ==> r.cash == a.cash.value
    ensures a.paperTrading.Some? ==> r.paperTrading == a.paperTrading.value
  {
    AccountInfo(a.cash.GetOr(0.0), a.buyingPower.GetOr(0.0), a.portfolioValue.GetOr(0.0),
                a.equity.GetOr(0.0), a.paperTrading.GetOr(true))
  }

  // ---------------------------------------------------------------------
  // Positions

  /** A position as the broker lists it; `unrealizedPlpc` is a fraction (0.05 = 5%). */
  datatype BrokerPosition = BrokerPosition(
    symbol: string, qty: real, side: Option<string>, avgEntryPrice: real, currentPrice: real,
    marketValue: real, costBasis: real, unrealizedPl: real, unrealizedPlpc: real,
    changeToday: Option<real>)

  /** A position as `get_alpaca_positions` returns it; `unrealizedPlPct` is a percentage. */
  datatype Position = Position(
    ticker: string, qty: real, side: string, avgEntryPrice: real, currentPrice: real,
    marketValue: real, costBasis: real, unrealizedPl: real, unrealizedPlPct: real,
    changeToday: real)

  /** One entry of `get_alpaca_positions`. */
  function Reshape(p: BrokerPosition): (r: Position)
    ensures r.ticker == p.symbol && r.qty == p.qty && r.marketValue == p.marketValue
    ensures r.unrealizedPlPct == p.unrealizedPlpc * 100.0
    ensures r.side == (if p.side.Some? then p.side.value else "long")
    ensures r.changeToday == (if p.changeToday.Some? then p.changeToday.value else 0.0)
  {
    Position(p.symbol, p.qty, p.side.GetOr("long"), p.avgEntryPrice, p.currentPrice,
             p.marketValue, p.costBasis, p.unrealizedPl, p.unrealizedPlpc * 100.0,
             p.changeToday.GetOr(0.0))
  }

  /**
   * What `get_positions` returns: the broker's positions, or, when the
   * broker call fails, the one-entry list `[{"error": ...}]`.
   */
  datatype PositionListing = PositionsListed(positions: seq<BrokerPosition>) | PositionsListingError(error: string)

  /** `str(KeyError('symbol'))`: what `pos['symbol']` raises on the error entry. */
  const SymbolKeyError: string := "'symbol'"

  /** What `get_alpaca_positions` returns, or the text of the exception it raises. */
  datatype PositionsResult = Positions(positions: seq<Position>) | PositionsRaised(error: string)

  /**
   * `get_alpaca_positions`: one reshaped entry per listed position, in
   * broker order. On the error listing the loop reads `pos['symbol']` of
   * the error entry and raises KeyError.
   */
  method GetAlpacaPositions(listing: PositionListing) returns (result: PositionsResult)
    ensures result.PositionsRaised? <==> listing.PositionsListingError?
    ensures result.PositionsRaised? ==> result.error == SymbolKeyError
    ensures listing.PositionsListed? ==>
              |result.positions| == |listing.positions|
              && forall i :: 0 <= i < |listing.positions| ==> result.positions[i] == Reshape(listing.positions[i])
  {
    if listing.PositionsListingError? {
      return PositionsRaised(SymbolKeyError);
    }
    var positions := listing.positions;
    var reshaped := [];
    var i := 0;
    while i < |positions|
      invariant 0 <= i <= |positions|
      invariant |reshaped| == i
      invariant forall k :: 0 <= k < i ==> reshaped[k] == Reshape(positions[k])
    {
      reshaped := reshaped + [Reshape(positions[i])];
      i := i + 1;
    }
    result := Positions(reshaped);
  }

  /** Tickers compare without regard to case. */
  predicate TickerMatches(p: Position, ticker: string) {
    Upper(p.ticker) == Upper(ticker)
  }

  /**
   * What `get_alpaca_position_details` returns: the position or the error
   * dictionary, or the exception `get_alpaca_positions` raised.
   */
  datatype PositionDetails = PositionFound(position: Position) | PositionNotFound(error: string) | DetailsRaised(error: string)

  /**
   * `get_alpaca_position_details`: the first listed position whose ticker
   * matches without regard to case; when none does, the error message. A
   * failed listing raises out of it.
   */
  method GetAlpacaPositionDetails(listing: PositionListing, ticker: string) returns (r: PositionDetails)
    ensures r.DetailsRaised? <==> listing.PositionsListingError?
    ensures r.DetailsRaised? ==> r.error == SymbolKeyError
    ensures listing.PositionsListed? ==>
              var broker := listing.positions;
              && (r.PositionNotFound? <==> forall i :: 0 <= i < |broker| ==> !TickerMatches(Reshape(broker[i]), ticker))
              && (r.PositionNotFound? ==> r.error == "No position found for " + ticker)
              && (r.PositionFound? ==>
                    exists i :: 0 <= i < |broker| && r.position == Reshape(broker[i])
                                && TickerMatches(r.position, ticker)
                                && forall j :: 0 <= j < i ==> !TickerMatches(Reshape(broker[j]), ticker))
  {
    var listed := GetAlpacaPositions(listing);
    if listed.PositionsRaised? {
      return DetailsRaised(listed.error);
    }
    var broker := listing.positions;
    var positions := listed.positions;
    var i := 0;
    while i < |positions|
      invariant 0 <= i <= |positions|
      invariant forall j :: 0 <= j < i ==> !TickerMatches(Reshape(broker[j]), ticker)
    {
      if TickerMatches(positions[i], ticker) {
        assert positions[i] == Reshape(broker[i]);
        return PositionFound(positions[i]);
      }
      i := i + 1;
    }
    return PositionNotFound("No position found for " + ticker);
  }

  // ---------------------------------------------------------------------
  // Market orders

  /** The arguments `place_market_order` receives. */
  datatype MarketOrder = MarketOrder(symbol: string, qty: int, side: string)

  /** The broker's reply: an order (its id, if any) or a dictionary with an `error`. */
  datatype BrokerReply = Placed(id: Option<string>) | Rejected(error: string)

  /** What `execute_alpaca_trade` returns. */
  datatype TradeResult =
    | TradeInvalid(error: string)
    | TradeFailed(error: string, ticker: string, action: string)
    | TradeDone(ticker: string, action: string, quantity: int, orderId: string, reasoning: string)

  /** The action is BUY or SELL in some case. */
  predicate KnownAction(action: string) {
    Upper(action) == "BUY" || Upper(action) == "SELL"
  }

  /**
   * `execute_alpaca_trade`: an unknown action or a quantity that is not
   * positive is refused before the broker is asked; otherwise the broker is
   * sent the lower-cased action, and its error or its order id is reported.
   */
  function ExecuteAlpacaTrade(ticker: string, action: string, quantity: int, reasoning: string,
                              place: MarketOrder -> BrokerReply): (r: TradeResult)
    ensures r.TradeInvalid? <==> !KnownAction(action) || quantity <= 0
    ensures !KnownAction(action) ==> r.error == "Invalid action: " + action + ". Must be BUY or SELL"
    ensures KnownAction(action) && quantity <= 0 ==>
              r.error == "Invalid quantity: " + IntText(quantity) + ". Must be greater than 0"
    ensures r.TradeFailed? ==> place(MarketOrder(ticker, quantity, Lower(action))) == Rejected(r.error)
                               && r.ticker == ticker && r.action == action
    ensures r.TradeDone? ==> place(MarketOrder(ticker, quantity, Lower(action))).Placed?
                             && r == TradeDone(ticker, action, quantity,
                                               place(MarketOrder(ticker, quantity, Lower(action))).id.GetOr(""),
                                               reasoning)
  {
    if !KnownAction(action) then TradeInvalid("Invalid action: " + action + ". Must be BUY or SELL")
    else if quantity <= 0 then TradeInvalid("Invalid quantity: " + IntText(quantity) + ". Must be greater than 0")
    else match place(MarketOrder(ticker, quantity, Lower(action)))
      case Rejected(e) => TradeFailed(e, ticker, action)
      case Placed(id) => TradeDone(ticker, action, quantity, id.GetOr(""), reasoning)
  }

  /** A refused trade never reaches the broker: its result is the same whatever the broker would do. */
  lemma RefusedTradeSkipsBroker(ticker: string, action: string, quantity: int, reasoning: string,
                                place1: MarketOrder -> BrokerReply, place2: MarketOrder -> BrokerReply)
    requires !KnownAction(action) || quantity <= 0
    ensures ExecuteAlpacaTrade(ticker, action, quantity, reasoning, place1)
         == ExecuteAlpacaTrade(ticker, action, quantity, reasoning, place2)
  {
  }

  /** A text whose upper case is `u` has, as its lower case, the lower case of `u`. */
  lemma LowerOfUpper(s: string, u: string)
    requires Upper(s) == u
    ensures Lower(s) == Lower(u)
  {
    forall i | 0 <= i < |s|
      ensures Lower(s)[i] == Lower(u)[i]
    {
      assert u[i] == UpperChar(s[i]);
    }
  }

  /** The broker only ever sees the side "buy" or "sell". */
  lemma BrokerSideIsBuyOrSell(action: string)
    requires KnownAction(action)
    ensures Upper(action) == "BUY" ==> Lower(action) == "buy"
    ensures Upper(action) == "SELL" ==> Lower(action) == "sell"
  {
    if Upper(action) == "BUY" {
      LowerOfUpper(action, "BUY");
      assert Lower("BUY") == "buy";
    } else {
      LowerOfUpper(action, "SELL");
      assert Lower("SELL") == "sell";
    }
  }

  // ---------------------------------------------------------------------
  // Order listings

  /** An order as the broker lists it: an error entry, or its fields (None where absent). */
  datatype BrokerOrder =
    | BrokerOrderError
    | BrokerOrder(id: Option<string>, symbol: Option<string>, side: Option<string>, qty: Option<real>,
                  orderType: Option<string>, status: Option<string>, timeInForce: Option<string>,
                  createdAt: Option<string>, filledQty: Option<real>, filledAvgPrice: Option<real>,
                  limitPrice: Option<real>, stopPrice: Option<real>)

  /** One entry of the order listings. */
  datatype ListedOrder = ListedOrder(
    id: string, symbol: string, side: string, qty: real, orderType: string, status: string,
    timeInForce: string, createdAt: string, filledQty: real, filledAvgPrice: Option<real>,
    limitPrice: Option<real>, stopPrice: Option<real>)

  /** The entry for one order: absent texts read "", absent amounts 0, and the side is upper-cased. */
  function ListOrder(o: BrokerOrder): (r: ListedOrder)
    requires o.BrokerOrder?
    ensures r.side == Upper(o.side.GetOr(""))
    ensures r.symbol == o.symbol.GetOr("") && r.id == o.id.GetOr("")
    ensures r.limitPrice == o.limitPrice && r.stopPrice == o.stopPrice
  {
    ListedOrder(o.id.GetOr(""), o.symbol.GetOr(""), Upper(o.side.GetOr("")), o.qty.GetOr(0.0),
                o.orderType.GetOr(""), o.status.GetOr(""), o.timeInForce.GetOr(""),
                o.createdAt.GetOr(""), o.filledQty.GetOr(0.0), o.filledAvgPrice, o.limitPrice, o.stopPrice)
  }

  /** The listing of `orders`, as the loop builds it front to back. */
  function Listed(orders: seq<BrokerOrder>): seq<ListedOrder>
  {
    if |orders| == 0 then []
    else
      var init, last := orders[..|orders| - 1], orders[|orders| - 1];
      if last.BrokerOrderError? then Listed(init) else Listed(init) + [ListOrder(last)]
  }

  /**
   * `get_alpaca_open_orders` and `get_alpaca_all_orders`: error entries are
   * skipped, every other order gives one entry, in broker order.
   */
  method ListOrders(orders: seq<BrokerOrder>) returns (result: seq<ListedOrder>)
    ensures result == Listed(orders)
  {
    result := [];
    var i := 0;
    while i < |orders|
      invariant 0 <= i <= |orders|
      invariant result == Listed(orders[..i])
    {
      assert orders[..i + 1][..i] == orders[..i];
      if !orders[i].BrokerOrderError? {
        result := result + [ListOrder(orders[i])];
      }
      i := i + 1;
    }
    assert orders[..i] == orders;
  }

  /** How many entries are not errors. */
  function OrderCount(orders: seq<BrokerOrder>): nat {
    if |orders| == 0 then 0
    else (if orders[0].BrokerOrderError? then 0 else 1) + OrderCount(orders[1..])
  }

  lemma {:induction false} OrderCountSnoc(orders: seq<BrokerOrder>, o: BrokerOrder)
    ensures OrderCount(orders + [o]) == OrderCount(orders) + (if o.BrokerOrderError? then 0 else 1)
  {
    if |orders| > 0 {
      assert (orders + [o])[1..] == orders[1..] + [o];
      OrderCountSnoc(orders[1..], o);
    } else {
      assert (orders + [o])[1..] == [];
    }
  }

  /**
   * The listing has one entry per non-error order, every entry comes from
   * an order of the input, and every side is upper case.
   */
  lemma {:induction false} ListedMeans(orders: seq<BrokerOrder>)
    ensures |Listed(orders)| == OrderCount(orders)
    ensures forall i :: 0 <= i < |Listed(orders)| ==>
              exists k :: 0 <= k < |orders| && orders[k].BrokerOrder? && Listed(orders)[i] == ListOrder(orders[k])
    ensures forall i, j :: 0 <= i < |Listed(orders)| && 0 <= j < |Listed(orders)[i].side| ==>
              !IsLowerChar(Listed(orders)[i].side[j])
  {
    if |orders| > 0 {
      var init, last := orders[..|orders| - 1], orders[|orders| - 1];
      assert orders == init + [last];
      ListedMeans(init);
      OrderCountSnoc(init, last);
      forall i | 0 <= i < |Listed(init)|
        ensures exists k :: 0 <= k < |orders| && orders[k].BrokerOrder? && Listed(orders)[i] == ListOrder(orders[k])
      {
        var k :| 0 <= k < |init| && init[k].BrokerOrder? && Listed(init)[i] == ListOrder(init[k]);
        assert orders[k] == init[k];
      }
      if last.BrokerOrder? {
        assert Listed(orders)[|Listed(init)|] == ListOrder(orders[|orders| - 1]);
      }
    }
  }
}
