/**
 * `TradingExecutor`: the decision phase. The LLM is invoked at most twenty
 * times; every tool call it makes is dispatched to a handler; buys and sells
 * that reach the broker are appended to `trades_executed`.
 *
 * The account, position and order lists are the snapshot taken before the
 * phase; every guard reads that snapshot. Everything a handler learns from
 * outside (the latest trade price, the broker's answer, whether the modify
 * call raised, whether the fresh position listing failed) travels with the
 * tool call as its `Effects`.
 */
module TradingExecutor {
  import opened Common

  // ---------------------------------------------------------------------
  // Inputs

  /** The outcome of Python's `float(raw)` on a tool argument. */
  datatype NumArg = Number(value: real) | NotANumber

  /** The `quantity` argument of a sell: the literal "all" or something `float` is applied to. */
  datatype SellQty = SellAll | SellAmount(amount: NumArg)

  /** The arguments a tool call may carry, with the handlers' defaults for missing keys
      (`ticker` "", `order_value` 0, `quantity` 0, `order_id` ""). */
  datatype ToolArgs = ToolArgs(
    ticker: string,
    reportType: string,
    orderValue: NumArg,
    quantity: SellQty,
    reasoning: string,
    orderId: string)

  /** `place_market_order` reports broker errors in its result instead of raising. */
  datatype BrokerReply = Accepted(id: string) | BrokerError(message: string)

  function OrderIdOf(b: BrokerReply): Option<string> {
    if b.Accepted? then Some(b.id) else None
  }

  /** What the outside world answers while one call is handled: None for a price
      fetch that raised; `positionsListingFails` when the fresh `get_positions`
      answered with its one error entry. The broker's cancel call reports its
      errors in its result and never raises, so nothing about it is needed. */
  datatype Effects = Effects(
    latestPrice: Option<real>,
    broker: BrokerReply,
    modifySucceeds: bool,
    positionsListingFails: bool)

  /** A tool name as `_handle_tool_call` tells them apart: one of the ten it
      handles, or any other string, which it echoes back. */
  datatype ToolName =
    | ReadAnalysisReport | ReadHistoricalReport | GetAnalysisStatus | PlaceBuyOrder | PlaceSellOrder
    | CancelOrderTool | GetCurrentPositions | GetOpenOrders | ModifyOrderTool | ReviewAndDecide
    | Unknown(name: string)

  /** The ten names the handler's if-chain compares against. */
  const KnownToolNames: set<string> := {
    "read_analysis_report", "read_historical_report", "get_analysis_status", "place_buy_order",
    "place_sell_order", "cancel_order", "get_current_positions", "get_open_orders", "modify_order",
    "review_and_decide"
  }

  /** The string the LLM sends for a tool. */
  function NameText(t: ToolName): string {
    match t
    case ReadAnalysisReport => "read_analysis_report"
    case ReadHistoricalReport => "read_historical_report"
    case GetAnalysisStatus => "get_analysis_status"
    case PlaceBuyOrder => "place_buy_order"
    case PlaceSellOrder => "place_sell_order"
    case CancelOrderTool => "cancel_order"
    case GetCurrentPositions => "get_current_positions"
    case GetOpenOrders => "get_open_orders"
    case ModifyOrderTool => "modify_order"
    case ReviewAndDecide => "review_and_decide"
    case Unknown(n) => n
  }

  /** The if-chain on `tool_name`: which branch a name takes. */
  function ParseToolName(n: string): (t: ToolName)
    ensures NameText(t) == n
    ensures t.Unknown? <==> n !in KnownToolNames
  {
    if n == "read_analysis_report" then ReadAnalysisReport
    else if n == "read_historical_report" then ReadHistoricalReport
    else if n == "get_analysis_status" then GetAnalysisStatus
    else if n == "place_buy_order" then PlaceBuyOrder
    else if n == "place_sell_order" then PlaceSellOrder
    else if n == "cancel_order" then CancelOrderTool
    else if n == "get_current_positions" then GetCurrentPositions
    else if n == "get_open_orders" then GetOpenOrders
    else if n == "modify_order" then ModifyOrderTool
    else if n == "review_and_decide" then ReviewAndDecide
    else Unknown(n)
  }

  /** A tool that is not echoed is recognised by its own name: parsing the text
      of a known tool gives that tool back. */
  lemma ParseNameText(t: ToolName)
    requires t.Unknown? ==> t.name !in KnownToolNames
    ensures ParseToolName(NameText(t)) == t
  {
  }

  datatype ToolCall = ToolCall(name: ToolName, args: ToolArgs, id: string, effects: Effects)

  datatype LlmResponse = LlmResponse(content: string, toolCalls: seq<ToolCall>)

  /** One element of the position and open-order snapshots; a missing key is None. */
  datatype PositionSnap = PositionSnap(symbol: Option<string>, qty: real)
  datatype OrderSnap = OrderSnap(symbol: Option<string>, id: Option<string>)

  datatype Snapshot = Snapshot(cash: real, positions: seq<PositionSnap>, openOrders: seq<OrderSnap>)

  // ---------------------------------------------------------------------
  // Outputs

  datatype TradeAction = BuyAction | SellAction

  /** One entry of `trades_executed`. */
  datatype ExecutedTrade = ExecutedTrade(
    action: TradeAction,
    ticker: string,
    value: real,
    quantity: real,
    price: real,
    reasoning: string,
    orderId: Option<string>)

  /** The string a handler returns, by kind. */
  datatype Reply =
    | ReportReply(ticker: string, reportType: string)
    | HistoricalReportReply(ticker: string, reportType: string)
    | StatusReply
    | InvalidOrderValue
    | InsufficientCash
    | OrderValueTooSmall
    | PendingOrderExists
    | LessThanOneShare
    | BuyPlaced(shares: int, price: real)
    | BuyFailed
    | NoPosition
    | SellExceedsHolding
    | InvalidQuantity
    | SellPlaced(qty: real, price: real)
    | SellFailed
    | NoPendingOrder
    | Cancelled(orderId: Option<string>)
    | OrderIdRequired
    | OrderNotFound
    | Modified(orderId: Option<string>)
    | ModifyFailed
    | PositionsInfo
    | OpenOrdersInfo
    | DecisionPhaseComplete
    | Echo(toolName: string)

  /** The conversation `make_trading_decisions` builds. */
  datatype Message =
    | HumanMessage(prompt: string)
    | AiMessage(response: LlmResponse)
    | ToolMessage(reply: Reply, toolCallId: string)

  /** A handler either returns a reply (and maybe a trade to record) or raises. */
  datatype Handled = Replied(reply: Reply, trade: Option<ExecutedTrade>) | Raised

  const MinOrderValue: real := 1000.0
  const MaxIterations: nat := 20

  // ---------------------------------------------------------------------
  // First matches

  /** `next(o for o in open_orders if o.get('symbol') == ticker)`, as an index. */
  function FirstOrderFor(orders: seq<OrderSnap>, ticker: string): (k: Option<nat>)
    ensures k.Some? ==> k.value < |orders|
  {
    if |orders| == 0 then None
    else if orders[0].symbol == Some(ticker) then Some(0)
    else
      var t := FirstOrderFor(orders[1..], ticker);
      if t.None? then None else Some(t.value + 1)
  }

  /** The index found is the first order for the symbol; None means there is none. */
  lemma {:induction false} FirstOrderForMeans(orders: seq<OrderSnap>, ticker: string)
    ensures var k := FirstOrderFor(orders, ticker);
            && (k.Some? ==> orders[k.value].symbol == Some(ticker))
            && (k.Some? ==> forall j :: 0 <= j < k.value ==> orders[j].symbol != Some(ticker))
            && (k.None? ==> forall j :: 0 <= j < |orders| ==> orders[j].symbol != Some(ticker))
  {
    if |orders| > 0 && orders[0].symbol != Some(ticker) {
      FirstOrderForMeans(orders[1..], ticker);
      assert forall j :: 1 <= j < |orders| ==> orders[j] == orders[1..][j - 1];
    }
  }

  /** `next(p for p in positions if p.get('symbol') == ticker)`, as an index. */
  function FirstPositionFor(positions: seq<PositionSnap>, ticker: string): (k: Option<nat>)
    ensures k.Some? ==> k.value < |positions|
  {
    if |positions| == 0 then None
    else if positions[0].symbol == Some(ticker) then Some(0)
    else
      var t := FirstPositionFor(positions[1..], ticker);
      if t.None? then None else Some(t.value + 1)
  }

  lemma {:induction false} FirstPositionForMeans(positions: seq<PositionSnap>, ticker: string)
    ensures var k := FirstPositionFor(positions, ticker);
            && (k.Some? ==> positions[k.value].symbol == Some(ticker))
            && (k.Some? ==> forall j :: 0 <= j < k.value ==> positions[j].symbol != Some(ticker))
            && (k.None? ==> forall j :: 0 <= j < |positions| ==> positions[j].symbol != Some(ticker))
  {
    if |positions| > 0 && positions[0].symbol != Some(ticker) {
      FirstPositionForMeans(positions[1..], ticker);
      assert forall j :: 1 <= j < |positions| ==> positions[j] == positions[1..][j - 1];
    }
  }

  /** `str(o.get('id', ''))[:8] == str(order_id)[:8]`, searched in order. */
  function FirstOrderWithIdPrefix(orders: seq<OrderSnap>, orderId: string): (k: Option<nat>)
    ensures k.Some? ==> k.value < |orders|
  {
    if |orders| == 0 then None
    else if Take(orders[0].id.GetOr(""), 8) == Take(orderId, 8) then Some(0)
    else
      var t := FirstOrderWithIdPrefix(orders[1..], orderId);
      if t.None? then None else Some(t.value + 1)
  }

  lemma {:induction false} FirstOrderWithIdPrefixMeans(orders: seq<OrderSnap>, orderId: string)
    ensures var k := FirstOrderWithIdPrefix(orders, orderId);
            && (k.Some? ==> Take(orders[k.value].id.GetOr(""), 8) == Take(orderId, 8))
            && (k.Some? ==> forall j :: 0 <= j < k.value ==> Take(orders[j].id.GetOr(""), 8) != Take(orderId, 8))
            && (k.None? ==> forall j :: 0 <= j < |orders| ==> Take(orders[j].id.GetOr(""), 8) != Take(orderId, 8))
  {
    if |orders| > 0 && Take(orders[0].id.GetOr(""), 8) != Take(orderId, 8) {
      FirstOrderWithIdPrefixMeans(orders[1..], orderId);
      assert forall j :: 1 <= j < |orders| ==> orders[j] == orders[1..][j - 1];
    }
  }

  // ---------------------------------------------------------------------
  // Handlers

  /** Whole shares bought with `v` at price `p`: `q` full shares fit, `q + 1` do not. */
  lemma WholeShares(v: real, p: real, q: int)
    requires p > 0.0 && (q as real) <= v / p < (q as real) + 1.0
    ensures (q as real) * p <= v < (q as real) * p + p
  {
    var x, r := v / p, q as real;
    assert x * p == v;
    MulMonotone(r, x, p);
    assert x < r + 1.0;
    MulMonotone(x, r + 1.0, p);
    assert x * p < (r + 1.0) * p;
    assert v < (r + 1.0) * p;
    assert (r + 1.0) * p == r * p + p;
    assert v < r * p + p;
  }

  lemma MulMonotone(a: real, b: real, p: real)
    requires p > 0.0 && a <= b
    ensures a * p <= b * p
    ensures a < b ==> a * p < b * p
  {
  }

  /**
   * `_handle_buy_order`. The refusals come in the order: not a number, more
   * than the account's cash, under $1,000, a pending order for the symbol.
   * An accepted buy spends qty = int(order_value / price) whole shares.
   */
  function BuyOrder(a: ToolArgs, s: Snapshot, e: Effects): (h: Handled)
    ensures h.Replied?
    ensures h.trade.Some? ==> h.trade.value.action == BuyAction
  {
    match a.orderValue
    case NotANumber => Replied(InvalidOrderValue, None)
    case Number(v) =>
      if v > s.cash then Replied(InsufficientCash, None)
      else if v < MinOrderValue then Replied(OrderValueTooSmall, None)
      else if FirstOrderFor(s.openOrders, a.ticker).Some? then Replied(PendingOrderExists, None)
      else match e.latestPrice
        case None => Replied(BuyFailed, None)
        case Some(p) =>
          if p == 0.0 then Replied(BuyFailed, None)  // ZeroDivisionError inside the try
          else
            var q := Trunc(v / p);
            if q < 1 then Replied(LessThanOneShare, None)
            else
              Replied(BuyPlaced(q, p),
                      Some(ExecutedTrade(BuyAction, a.ticker, q as real * p, q as real, p, a.reasoning,
                                         OrderIdOf(e.broker))))
  }

  /** The guards of `_handle_buy_order` and what an accepted buy records. */
  lemma BuyOrderContract(a: ToolArgs, s: Snapshot, e: Effects)
    ensures var h := BuyOrder(a, s, e);
            && (a.orderValue.NotANumber? ==> h.reply == InvalidOrderValue)
            && (a.orderValue.Number? && a.orderValue.value > s.cash ==> h.reply == InsufficientCash)
            && (a.orderValue.Number? && a.orderValue.value <= s.cash && a.orderValue.value < MinOrderValue ==>
                  h.reply == OrderValueTooSmall)
            && ((a.orderValue.Number? && MinOrderValue <= a.orderValue.value <= s.cash
                 && FirstOrderFor(s.openOrders, a.ticker).Some?) ==> h.reply == PendingOrderExists)
            && (h.trade.Some? <==> h.reply.BuyPlaced?)
    ensures var h := BuyOrder(a, s, e);
            h.trade.Some? ==>
              var t, v := h.trade.value, a.orderValue.value;
              && t.ticker == a.ticker && t.reasoning == a.reasoning
              && MinOrderValue <= v <= s.cash
              && FirstOrderFor(s.openOrders, a.ticker).None?
              && e.latestPrice == Some(t.price) && t.price > 0.0
              && t.quantity >= 1.0 && t.quantity == (t.quantity.Floor as real)
              && t.value == t.quantity * t.price
              && t.value <= v < t.value + t.price
              && t.orderId == OrderIdOf(e.broker)
  {
    var h := BuyOrder(a, s, e);
    if h.trade.Some? {
      var v, p := a.orderValue.value, e.latestPrice.value;
      assert p != 0.0;
      WholeShares(v, p, Trunc(v / p));
    }
  }

  /**
   * `_handle_sell_order`. Refused when no position has the symbol, when the
   * quantity exceeds the held quantity, or when it is not positive; "all"
   * sells exactly the held quantity. A quantity `float` cannot read raises
   * out of the handler.
   */
  function SellOrder(a: ToolArgs, s: Snapshot, e: Effects): (h: Handled)
    ensures h.Raised? <==> FirstPositionFor(s.positions, a.ticker).Some? && a.quantity.SellAmount? && a.quantity.amount.NotANumber?
    ensures h.Replied? && h.trade.Some? ==> h.trade.value.action == SellAction
  {
    match FirstPositionFor(s.positions, a.ticker)
    case None => Replied(NoPosition, None)
    case Some(k) =>
      var available := s.positions[k].qty;
      if a.quantity.SellAmount? && a.quantity.amount.NotANumber? then Raised
      else
        var q := if a.quantity.SellAll? then available else a.quantity.amount.value;
        if q > available then Replied(SellExceedsHolding, None)
        else if q <= 0.0 then Replied(InvalidQuantity, None)
        else match e.latestPrice
          case None => Replied(SellFailed, None)
          case Some(p) =>
            Replied(SellPlaced(q, p),
                    Some(ExecutedTrade(SellAction, a.ticker, q * p, q, p, a.reasoning, OrderIdOf(e.broker))))
  }

  /** The guards of `_handle_sell_order` and what an accepted sell records. */
  lemma SellOrderContract(a: ToolArgs, s: Snapshot, e: Effects)
    ensures var h := SellOrder(a, s, e);
            && (FirstPositionFor(s.positions, a.ticker).None? ==> h == Replied(NoPosition, None))
            && (h.Replied? && h.trade.Some? <==> h.Replied? && h.reply.SellPlaced?)
    ensures var h := SellOrder(a, s, e);
            h.Replied? && h.trade.Some? ==>
              var t, k := h.trade.value, FirstPositionFor(s.positions, a.ticker);
              && t.ticker == a.ticker && t.reasoning == a.reasoning
              && k.Some? && 0.0 < t.quantity <= s.positions[k.value].qty
              && (a.quantity.SellAll? ==> t.quantity == s.positions[k.value].qty)
              && (a.quantity.SellAmount? ==> t.quantity == a.quantity.amount.value)
              && e.latestPrice == Some(t.price) && t.value == t.quantity * t.price
              && t.orderId == OrderIdOf(e.broker)
  {
  }

  /**
   * `_handle_cancel_order`: cancels the first open order for the symbol.
   * The broker's cancel call never raises, so whenever such an order
   * exists the reply is that it was cancelled, whatever the broker did.
   */
  function CancelOrder(a: ToolArgs, s: Snapshot, e: Effects): (h: Handled)
    ensures h.Replied? && h.trade.None?
    ensures h.reply.Cancelled? <==> FirstOrderFor(s.openOrders, a.ticker).Some?
    ensures h.reply.Cancelled? ==> h.reply.orderId == s.openOrders[FirstOrderFor(s.openOrders, a.ticker).value].id
    ensures FirstOrderFor(s.openOrders, a.ticker).None? <==> h.reply == NoPendingOrder
  {
    match FirstOrderFor(s.openOrders, a.ticker)
    case None => Replied(NoPendingOrder, None)
    case Some(k) => Replied(Cancelled(s.openOrders[k].id), None)
  }

  /** `_handle_modify_order`: needs a non-empty order id; matches on its first eight characters. */
  function ModifyOrder(a: ToolArgs, s: Snapshot, e: Effects): (h: Handled)
    ensures h.Replied? && h.trade.None?
    ensures a.orderId == "" <==> h.reply == OrderIdRequired
    ensures h.reply.Modified? ==>
              var k := FirstOrderWithIdPrefix(s.openOrders, a.orderId);
              a.orderId != "" && k.Some? && h.reply.orderId == s.openOrders[k.value].id && e.modifySucceeds
    ensures h.reply == OrderNotFound <==> a.orderId != "" && FirstOrderWithIdPrefix(s.openOrders, a.orderId).None?
  {
    if a.orderId == "" then Replied(OrderIdRequired, None)
    else match FirstOrderWithIdPrefix(s.openOrders, a.orderId)
      case None => Replied(OrderNotFound, None)
      case Some(k) =>
        if e.modifySucceeds then Replied(Modified(s.openOrders[k].id), None) else Replied(ModifyFailed, None)
  }

  /** `_handle_tool_call`: dispatch on the tool name. */
  function Dispatch(c: ToolCall, s: Snapshot): (h: Handled)
    ensures h.Replied? && h.trade.Some? ==> c.name.PlaceBuyOrder? || c.name.PlaceSellOrder?
    ensures h.Raised? <==> Raises(c, s)
    ensures c.name.ReviewAndDecide? ==> h == Replied(DecisionPhaseComplete, None)
    ensures c.name.Unknown? ==> h == Replied(Echo(c.name.name), None)
  {
    match c.name
    case ReadAnalysisReport => Replied(ReportReply(c.args.ticker, c.args.reportType), None)
    case ReadHistoricalReport => Replied(HistoricalReportReply(c.args.ticker, c.args.reportType), None)
    case GetAnalysisStatus => Replied(StatusReply, None)
    case PlaceBuyOrder => BuyOrder(c.args, s, c.effects)
    case PlaceSellOrder => SellOrder(c.args, s, c.effects)
    case CancelOrderTool => CancelOrder(c.args, s, c.effects)
    case GetCurrentPositions => if c.effects.positionsListingFails then Raised else Replied(PositionsInfo, None)
    case GetOpenOrders => Replied(OpenOrdersInfo, None)
    case ModifyOrderTool => ModifyOrder(c.args, s, c.effects)
    case ReviewAndDecide => Replied(DecisionPhaseComplete, None)
    case Unknown(name) => Replied(Echo(name), None)
  }

  /** The trade a handled call appends to `trades_executed`, if any. */
  function Recorded(h: Handled): seq<ExecutedTrade> {
    if h.Replied? && h.trade.Some? then [h.trade.value] else []
  }

  /** The trades one call appends. */
  function CallTrades(c: ToolCall, s: Snapshot): seq<ExecutedTrade> {
    Recorded(Dispatch(c, s))
  }

  /**
   * The two handlers that can raise: a sell of a held symbol whose quantity
   * `float` cannot read, and the positions listing, which reads the
   * `'symbol'` key of the error entry a failed `get_positions` returns.
   */
  predicate Raises(c: ToolCall, s: Snapshot) {
    || (&& c.name.PlaceSellOrder?
        && FirstPositionFor(s.positions, c.args.ticker).Some?
        && c.args.quantity.SellAmount? && c.args.quantity.amount.NotANumber?)
    || (c.name.GetCurrentPositions? && c.effects.positionsListingFails)
  }

  /** A call after which the phase ends: the completion tool, or a handler that raised. */
  predicate EndsPhase(c: ToolCall, s: Snapshot) {
    c.name.ReviewAndDecide? || Raises(c, s)
  }

  // ---------------------------------------------------------------------
  // The decision loop, as a reference definition

  /** The index of the first call of a response that ends the phase. */
  function FirstStop(calls: seq<ToolCall>, s: Snapshot): (k: Option<nat>)
    ensures k.Some? ==> k.value < |calls| && EndsPhase(calls[k.value], s)
    ensures k.Some? ==> forall j :: 0 <= j < k.value ==> !EndsPhase(calls[j], s)
    ensures k.None? ==> forall j :: 0 <= j < |calls| ==> !EndsPhase(calls[j], s)
  {
    if |calls| == 0 then None
    else if EndsPhase(calls[0], s) then Some(0)
    else
      var t := FirstStop(calls[1..], s);
      if t.None? then None else Some(t.value + 1)
  }

  /** The calls of one response that are handled: up to and including the first that ends the phase. */
  function HandledIn(calls: seq<ToolCall>, s: Snapshot): seq<ToolCall> {
    match FirstStop(calls, s)
    case Some(k) => calls[..k + 1]
    case None => calls
  }

  /** Handling call `j` after a prefix with no stop: it is the first stop, or the
      prefix grows by one call with still no stop. */
  lemma StopAt(calls: seq<ToolCall>, s: Snapshot, j: nat)
    requires j < |calls| && FirstStop(calls[..j], s).None?
    ensures EndsPhase(calls[j], s) ==> FirstStop(calls, s) == Some(j) && HandledIn(calls, s) == calls[..j + 1]
    ensures !EndsPhase(calls[j], s) ==> FirstStop(calls[..j + 1], s).None?
  {
    assert forall m :: 0 <= m < j ==> calls[..j][m] == calls[m];
    assert forall m :: 0 <= m < j ==> calls[..j + 1][m] == calls[m];
    if EndsPhase(calls[j], s) {
      var k := FirstStop(calls, s);
      assert k.Some?;
      assert !(k.value < j) && !(j < k.value);
    }
  }

  /** One LLM invocation of the phase: its answer and the tool calls of it that got handled. */
  datatype Round = Round(response: LlmResponse, handled: seq<ToolCall>)

  /** An answer after which no further invocation follows: no tool calls, or a
      call that ends the phase. */
  predicate Ends(r: LlmResponse, s: Snapshot) {
    |r.toolCalls| == 0 || FirstStop(r.toolCalls, s).Some?
  }

  /** The decision loop run on scripted LLM answers, from invocation `i` on:
      invocation `i` answers `llm[i]`; there are at most twenty invocations, and
      an invocation past the end of the script raises, which ends the phase. */
  function RoundsFrom(llm: seq<LlmResponse>, s: Snapshot, i: nat): seq<Round>
    decreases MaxIterations - i
  {
    if i >= MaxIterations || i >= |llm| then []
    else
      var r := llm[i];
      [Round(r, HandledIn(r.toolCalls, s))] + if Ends(r, s) then [] else RoundsFrom(llm, s, i + 1)
  }

  /** All handled calls of the rounds, in order. */
  function CallsOf(rounds: seq<Round>): seq<ToolCall> {
    if |rounds| == 0 then [] else rounds[0].handled + CallsOf(rounds[1..])
  }

  /** The messages the rounds append after the prompt: each answer, then the
      tool messages of its handled calls. */
  function Conversation(rounds: seq<Round>, s: Snapshot): seq<Message> {
    if |rounds| == 0 then []
    else [AiMessage(rounds[0].response)] + Answers(rounds[0].handled, s) + Conversation(rounds[1..], s)
  }

  function TradesOf(calls: seq<ToolCall>, s: Snapshot): seq<ExecutedTrade> {
    if |calls| == 0 then [] else TradesOf(calls[..|calls| - 1], s) + CallTrades(calls[|calls| - 1], s)
  }

  lemma {:induction false} TradesOfAppend(a: seq<ToolCall>, b: seq<ToolCall>, s: Snapshot)
    ensures TradesOf(a + b, s) == TradesOf(a, s) + TradesOf(b, s)
    decreases |b|
  {
    if |b| > 0 {
      assert (a + b)[..|a + b| - 1] == a + b[..|b| - 1];
      TradesOfAppend(a, b[..|b| - 1], s);
    } else {
      assert a + b == a;
    }
  }

  /** The tool message a handled call adds to the conversation; a call whose handler raised adds none. */
  function Answer(c: ToolCall, s: Snapshot): seq<Message> {
    match Dispatch(c, s)
    case Raised => []
    case Replied(r, _) => [ToolMessage(r, c.id)]
  }

  function Answers(calls: seq<ToolCall>, s: Snapshot): seq<Message> {
    if |calls| == 0 then [] else Answers(calls[..|calls| - 1], s) + Answer(calls[|calls| - 1], s)
  }

  lemma AnswersSnoc(calls: seq<ToolCall>, j: nat, s: Snapshot)
    requires j < |calls|
    ensures Answers(calls[..j + 1], s) == Answers(calls[..j], s) + Answer(calls[j], s)
  {
    assert calls[..j + 1][..j] == calls[..j];
  }

  /** The trades recorded so far, extended by one response's trades, are the
      trades of the calls handled so far extended by that response's calls. */
  lemma TradesAccumulate(start: seq<ExecutedTrade>, before: seq<ExecutedTrade>, after: seq<ExecutedTrade>,
                         handled: seq<ToolCall>, now: seq<ToolCall>, s: Snapshot)
    requires before == start + TradesOf(handled, s) && after == before + TradesOf(now, s)
    ensures after == start + TradesOf(handled + now, s)
  {
    TradesOfAppend(handled, now, s);
  }

  lemma TradesOfSnoc(calls: seq<ToolCall>, j: nat, s: Snapshot)
    requires j < |calls|
    ensures TradesOf(calls[..j + 1], s) == TradesOf(calls[..j], s) + CallTrades(calls[j], s)
  {
    assert calls[..j + 1][..j] == calls[..j];
  }

  lemma {:induction false} CallsOfSnoc(rounds: seq<Round>, x: Round)
    ensures CallsOf(rounds + [x]) == CallsOf(rounds) + x.handled
  {
    if |rounds| == 0 {
      assert [x][1..] == [];
      assert CallsOf([x]) == x.handled + [];
    } else {
      assert (rounds + [x])[1..] == rounds[1..] + [x];
      CallsOfSnoc(rounds[1..], x);
    }
  }

  lemma {:induction false} ConversationSnoc(rounds: seq<Round>, x: Round, s: Snapshot)
    ensures Conversation(rounds + [x], s) == Conversation(rounds, s) + [AiMessage(x.response)] + Answers(x.handled, s)
  {
    if |rounds| == 0 {
      assert [x][1..] == [];
      assert Conversation([x], s) == [AiMessage(x.response)] + Answers(x.handled, s) + [];
    } else {
      assert (rounds + [x])[1..] == rounds[1..] + [x];
      ConversationSnoc(rounds[1..], x, s);
    }
  }

  lemma ConcatRegroup<T>(a: seq<T>, b: seq<T>, c: seq<T>, d: seq<T>)
    ensures (a + b) + (c + d) == a + (b + c + d)
  {
  }

  /** The rounds from `i` start with the round of the `i`-th answer, and go on
      past it exactly when that answer does not end the phase. */
  lemma RoundsStep(llm: seq<LlmResponse>, s: Snapshot, i: nat, done: seq<Round>, whole: seq<Round>, ends: bool)
    requires i < MaxIterations && i < |llm|
    requires done + RoundsFrom(llm, s, i) == whole
    requires ends <==> Ends(llm[i], s)
    ensures var d := done + [Round(llm[i], HandledIn(llm[i].toolCalls, s))];
            && (ends ==> d == whole)
            && (!ends ==> d + RoundsFrom(llm, s, i + 1) == whole)
  {
    var round := Round(llm[i], HandledIn(llm[i].toolCalls, s));
    var d := done + [round];
    assert RoundsFrom(llm, s, i) == [round] + if ends then [] else RoundsFrom(llm, s, i + 1);
    if ends {
      assert d == done + RoundsFrom(llm, s, i);
    } else {
      assert d + RoundsFrom(llm, s, i + 1) == done + RoundsFrom(llm, s, i);
    }
  }

  /** One further round adds its trades and its messages to those of the rounds done. */
  lemma RoundRecorded(s: Snapshot, prompt: string, done: seq<Round>, round: Round,
                      start: seq<ExecutedTrade>, before: seq<ExecutedTrade>, after: seq<ExecutedTrade>,
                      messages: seq<Message>, added: seq<Message>)
    requires before == start + TradesOf(CallsOf(done), s)
    requires after == before + TradesOf(round.handled, s)
    requires messages == [HumanMessage(prompt)] + Conversation(done, s)
    requires added == [AiMessage(round.response)] + Answers(round.handled, s)
    ensures after == start + TradesOf(CallsOf(done + [round]), s)
    ensures messages + added == [HumanMessage(prompt)] + Conversation(done + [round], s)
  {
    TradesAccumulate(start, before, after, CallsOf(done), round.handled, s);
    CallsOfSnoc(done, round);
    ConversationSnoc(done, round, s);
    ConcatRegroup([HumanMessage(prompt)], Conversation(done, s), [AiMessage(round.response)], Answers(round.handled, s));
  }

  /** The LLM is invoked at most twenty times, and never more often than it answers. */
  lemma {:induction false} InvocationsBounded(llm: seq<LlmResponse>, s: Snapshot, i: nat)
    requires i <= MaxIterations
    ensures |RoundsFrom(llm, s, i)| <= MaxIterations - i
    ensures i <= |llm| ==> |RoundsFrom(llm, s, i)| <= |llm| - i
    decreases MaxIterations - i
  {
    if i < MaxIterations && i < |llm| && !Ends(llm[i], s) {
      InvocationsBounded(llm, s, i + 1);
    }
  }

  /** Every round but the last handled all the calls of its answer and none of
      them ended the phase. */
  lemma {:induction false} OnlyLastRoundStops(llm: seq<LlmResponse>, s: Snapshot, i: nat, k: nat)
    requires k + 1 < |RoundsFrom(llm, s, i)|
    ensures var r := RoundsFrom(llm, s, i)[k];
            && r.handled == r.response.toolCalls && |r.handled| > 0
            && forall m :: 0 <= m < |r.handled| ==> !EndsPhase(r.handled[m], s)
    decreases MaxIterations - i
  {
    var r := llm[i];
    assert !Ends(r, s);
    if k > 0 {
      OnlyLastRoundStops(llm, s, i + 1, k - 1);
    }
  }

  /** Nothing is handled after a call that ends the phase: if `review_and_decide`
      is handled at all, it is the last call handled. */
  lemma {:induction false} NothingAfterDone(llm: seq<LlmResponse>, s: Snapshot, i: nat)
    ensures forall j :: 0 <= j < |CallsOf(RoundsFrom(llm, s, i))| - 1 ==> !EndsPhase(CallsOf(RoundsFrom(llm, s, i))[j], s)
    decreases MaxIterations - i
  {
    if i < MaxIterations && i < |llm| {
      var r := llm[i];
      var calls, rounds := r.toolCalls, RoundsFrom(llm, s, i);
      var now := HandledIn(calls, s);
      if Ends(r, s) {
        assert rounds == [Round(r, now)];
        assert CallsOf(rounds) == now + CallsOf([]);
        if FirstStop(calls, s).Some? {
          assert CallsOf(rounds) == calls[..FirstStop(calls, s).value + 1];
        }
      } else {
        NothingAfterDone(llm, s, i + 1);
        var rest := CallsOf(RoundsFrom(llm, s, i + 1));
        assert rounds[1..] == RoundsFrom(llm, s, i + 1);
        assert forall m :: 0 <= m < |calls| ==> !EndsPhase(calls[m], s);
        assert CallsOf(rounds) == calls + rest;
        forall j | 0 <= j < |calls + rest| - 1
          ensures !EndsPhase((calls + rest)[j], s)
        {
          if j >= |calls| {
            assert (calls + rest)[j] == rest[j - |calls|];
          } else {
            assert (calls + rest)[j] == calls[j];
          }
        }
      }
    }
  }

  predicate IsTradeCall(c: ToolCall) { c.name.PlaceBuyOrder? || c.name.PlaceSellOrder? }

  function CountTradeCalls(calls: seq<ToolCall>): nat {
    if |calls| == 0 then 0
    else CountTradeCalls(calls[..|calls| - 1]) + (if IsTradeCall(calls[|calls| - 1]) then 1 else 0)
  }

  /** Only buy and sell calls record trades, at most one each. */
  lemma {:induction false} TradesBounded(calls: seq<ToolCall>, s: Snapshot)
    ensures |TradesOf(calls, s)| <= CountTradeCalls(calls) <= |calls|
  {
    if |calls| > 0 {
      TradesBounded(calls[..|calls| - 1], s);
    }
  }

  /** The cash guard reads the snapshot, which no buy updates: two buys that each
      ask for the whole cash both reach the broker in one phase, together
      spending more than the cash. */
  lemma SnapshotCashAllowsOverspend(cash: real, price: real, e: Effects)
    requires cash >= 2000.0 && 0.0 < price <= cash / 2.0 && e.latestPrice == Some(price)
    ensures var s := Snapshot(cash, [], []);
            var a := ToolArgs("AAA", "", Number(cash), SellAmount(Number(0.0)), "", "");
            var b := ToolArgs("BBB", "", Number(cash), SellAmount(Number(0.0)), "", "");
            var t := TradesOf([ToolCall(PlaceBuyOrder, a, "1", e), ToolCall(PlaceBuyOrder, b, "2", e)], s);
            |t| == 2 && t[0].value + t[1].value > cash
  {
    var s := Snapshot(cash, [], []);
    var a := ToolArgs("AAA", "", Number(cash), SellAmount(Number(0.0)), "", "");
    var b := ToolArgs("BBB", "", Number(cash), SellAmount(Number(0.0)), "", "");
    var ca, cb := ToolCall(PlaceBuyOrder, a, "1", e), ToolCall(PlaceBuyOrder, b, "2", e);
    assert [ca, cb][..1] == [ca];
    assert [ca][..0] == [];
    assert cash / price >= 2.0;
    BuyOrderContract(a, s, e);
    BuyOrderContract(b, s, e);
    var ha, hb := BuyOrder(a, s, e), BuyOrder(b, s, e);
    assert ha.trade.Some? && hb.trade.Some?;
    assert Dispatch(ca, s) == ha && Dispatch(cb, s) == hb;
    assert TradesOf([ca], s) == [ha.trade.value];
    assert TradesOf([ca, cb], s) == [ha.trade.value, hb.trade.value];
  }

  // ---------------------------------------------------------------------
  // The executor object

  class Executor {
    var tradesExecuted: seq<ExecutedTrade>

    constructor ()
      ensures tradesExecuted == []
    {
      tradesExecuted := [];
    }

    /** `_handle_tool_call`, with its one side effect: recording a trade. */
    method HandleToolCall(c: ToolCall, s: Snapshot) returns (h: Handled)
      modifies this
      ensures h == Dispatch(c, s)
      ensures h.Raised? <==> Raises(c, s)
      ensures tradesExecuted == old(tradesExecuted) + CallTrades(c, s)
    {
      h := Dispatch(c, s);
      if h.Replied? && h.trade.Some? {
        tradesExecuted := tradesExecuted + [h.trade.value];
      }
    }

    /** The inner loop of `make_trading_decisions`: handle one response's calls
        in order until one of them ends the phase. */
    method HandleResponse(calls: seq<ToolCall>, s: Snapshot) returns (replies: seq<Message>, stopped: bool)
      modifies this
      ensures stopped <==> FirstStop(calls, s).Some?
      ensures tradesExecuted == old(tradesExecuted) + TradesOf(HandledIn(calls, s), s)
      ensures replies == Answers(HandledIn(calls, s), s)
    {
      replies := [];
      var j := 0;
      while j < |calls|
        invariant 0 <= j <= |calls|
        invariant FirstStop(calls[..j], s).None?
        invariant tradesExecuted == old(tradesExecuted) + TradesOf(calls[..j], s)
        invariant replies == Answers(calls[..j], s)
      {
        var h := HandleToolCall(calls[j], s);
        TradesOfSnoc(calls, j, s);
        AnswersSnoc(calls, j, s);
        StopAt(calls, s, j);
        if h.Replied? {
          replies := replies + [ToolMessage(h.reply, calls[j].id)];
        }
        if h.Raised? || calls[j].name.ReviewAndDecide? {
          return replies, true;
        }
        j := j + 1;
      }
      assert calls[..j] == calls;
      stopped := false;
    }

    /** One iteration of `make_trading_decisions` after the LLM answered `r`:
        the answer joins the conversation, then its calls are handled. */
    method Invoke(r: LlmResponse, s: Snapshot) returns (added: seq<Message>, ends: bool)
      modifies this
      ensures ends <==> Ends(r, s)
      ensures added == [AiMessage(r)] + Answers(HandledIn(r.toolCalls, s), s)
      ensures tradesExecuted == old(tradesExecuted) + TradesOf(HandledIn(r.toolCalls, s), s)
    {
      added := [AiMessage(r)];
      if |r.toolCalls| == 0 {
        assert HandledIn(r.toolCalls, s) == [];
        return added, true;
      }
      var replies, stopped := HandleResponse(r.toolCalls, s);
      added := added + replies;
      ends := stopped;
    }

    /** One pass of the loop of `make_trading_decisions` with an answer in the
        script: the rounds done grow by this invocation's round. */
    method Iterate(prompt: string, s: Snapshot, llm: seq<LlmResponse>, iteration: nat, messages: seq<Message>,
                   ghost start: seq<ExecutedTrade>, ghost done: seq<Round>)
      returns (next: seq<Message>, ends: bool, ghost doneNext: seq<Round>)
      requires iteration < MaxIterations && iteration < |llm|
      requires done + RoundsFrom(llm, s, iteration) == RoundsFrom(llm, s, 0)
      requires messages == [HumanMessage(prompt)] + Conversation(done, s)
      requires tradesExecuted == start + TradesOf(CallsOf(done), s)
      modifies this
      ensures doneNext == done + [Round(llm[iteration], HandledIn(llm[iteration].toolCalls, s))]
      ensures next == [HumanMessage(prompt)] + Conversation(doneNext, s)
      ensures tradesExecuted == start + TradesOf(CallsOf(doneNext), s)
      ensures ends ==> doneNext == RoundsFrom(llm, s, 0)
      ensures !ends ==> doneNext + RoundsFrom(llm, s, iteration + 1) == RoundsFrom(llm, s, 0)
    {
      ghost var before := tradesExecuted;
      var added;
      added, ends := Invoke(llm[iteration], s);
      next := messages + added;
      ghost var round := Round(llm[iteration], HandledIn(llm[iteration].toolCalls, s));
      RoundRecorded(s, prompt, done, round, start, before, tradesExecuted, messages, added);
      RoundsStep(llm, s, iteration, done, RoundsFrom(llm, s, 0), ends);
      doneNext := done + [round];
    }

    /**
     * `make_trading_decisions`. The k-th LLM invocation answers `llm[k]`; an
     * invocation past the end of the script raises, which the phase's
     * exception handler swallows, as it does a handler that raises.
     */
    method MakeTradingDecisions(prompt: string, s: Snapshot, llm: seq<LlmResponse>)
      returns (messages: seq<Message>, invocations: nat)
      modifies this
      ensures invocations == |RoundsFrom(llm, s, 0)| && invocations <= MaxIterations
      ensures tradesExecuted == old(tradesExecuted) + TradesOf(CallsOf(RoundsFrom(llm, s, 0)), s)
      ensures messages == [HumanMessage(prompt)] + Conversation(RoundsFrom(llm, s, 0), s)
    {
      messages := [HumanMessage(prompt)];
      invocations := 0;
      InvocationsBounded(llm, s, 0);
      ghost var done: seq<Round> := [];
      var iteration := 0;
      while iteration < MaxIterations
        invariant 0 <= iteration <= MaxIterations
        invariant done + RoundsFrom(llm, s, iteration) == RoundsFrom(llm, s, 0)
        invariant invocations == |done|
        invariant messages == [HumanMessage(prompt)] + Conversation(done, s)
        invariant tradesExecuted == old(tradesExecuted) + TradesOf(CallsOf(done), s)
        decreases MaxIterations - iteration
      {
        if iteration >= |llm| {
          assert done + [] == done;
          return;  // the invocation raises; the phase ends
        }
        invocations := invocations + 1;
        var ends;
        messages, ends, done := Iterate(prompt, s, llm, iteration, messages, old(tradesExecuted), done);
        if ends {
          return;
        }
        iteration := iteration + 1;
      }
      assert done + [] == done;
    }

    /** `get_trades_executed`. */
    function TradesExecuted(): (r: seq<ExecutedTrade>)
      reads this
      ensures r == tradesExecuted
    {
      tradesExecuted
    }
  }
}
