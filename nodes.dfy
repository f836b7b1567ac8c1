/**
 * The three nodes of the portfolio graph. `assess_portfolio_node` gathers
 * the market clock, the broker snapshot and the last memory summary;
 * `make_decisions_node` lets the LLM call the safe tools once;
 * `update_summary_node` writes the next memory summary. The broker, the
 * LLM, the tools and the wall clock are parameters: what each call
 * returns, or the text of the exception it raises.
 */
module Nodes {
  import opened Common
  import opened AlpacaPortfolio
  import SafeTools
  import S3Client
  import PortfolioInterface

  /** The `phase` of the portfolio state. */
  datatype Phase = Init | Assess | Decide | Execute | Complete | MarketClosed | Error

  /** What a call to the broker or the LLM gives: its value, or the text of the exception it raises. */
  datatype Fetch<T> = Fetched(value: T) | Raises(error: string)

  /** `config.get("s3_bucket_name")` is truthy. */
  predicate Configured(bucket: Option<string>) {
    bucket.Some? && |bucket.value| > 0
  }

  const BucketMissing: string := "S3_BUCKET_NAME must be configured in environment variables"

  // ---------------------------------------------------------------------
  // assess_portfolio_node

  /** The market clock; an absent key is None. */
  datatype MarketClock = MarketClock(isOpen: Option<bool>, nextOpen: Option<string>)

  /** `market_clock.get('is_open', False)`. */
  predicate MarketOpen(clock: Fetch<MarketClock>) {
    clock.Fetched? && clock.value.isOpen.GetOr(false)
  }

  /** A position as the graph state holds it; `unrealizedPlpc` is a fraction again. */
  datatype StatePosition = StatePosition(
    symbol: string, qty: real, marketValue: real, avgEntryPrice: real, currentPrice: real,
    unrealizedPlpc: real, unrealizedPl: real)

  /** One entry of `formatted_positions`. */
  function ForState(p: Position): StatePosition {
    StatePosition(p.ticker, p.qty, p.marketValue, p.avgEntryPrice, p.currentPrice,
                  p.unrealizedPlPct / 100.0, p.unrealizedPl)
  }

  /**
   * The reshaping in the node undoes the one of the broker layer: the
   * ticker comes back as the symbol and the percentage as the broker's
   * fraction, exactly.
   */
  lemma PositionRoundTrip(b: BrokerPosition)
    ensures ForState(Reshape(b)).symbol == b.symbol
    ensures ForState(Reshape(b)).unrealizedPlpc == b.unrealizedPlpc
    ensures ForState(Reshape(b)).qty == b.qty && ForState(Reshape(b)).marketValue == b.marketValue
    ensures ForState(Reshape(b)).currentPrice == b.currentPrice
  {
  }

  /** The loop that builds `formatted_positions`. */
  method FormatPositions(positions: seq<Position>) returns (formatted: seq<StatePosition>)
    ensures |formatted| == |positions|
    ensures forall i :: 0 <= i < |positions| ==> formatted[i] == ForState(positions[i])
  {
    formatted := [];
    var i := 0;
    while i < |positions|
      invariant 0 <= i <= |positions|
      invariant |formatted| == i
      invariant forall k :: 0 <= k < i ==> formatted[k] == ForState(positions[k])
    {
      formatted := formatted + [ForState(positions[i])];
      i := i + 1;
    }
  }

  /** What the node puts in the state; an empty dictionary is None. */
  datatype Snapshot = Snapshot(
    clock: Option<MarketClock>, account: Option<AccountInfo>, positions: seq<StatePosition>,
    openOrders: seq<ListedOrder>, lastSummary: string)

  /** The update the node returns; `snapshot` is None where only phase and error are returned. */
  datatype AssessUpdate = AssessUpdate(phase: Phase, error: Option<string>, snapshot: Option<Snapshot>)

  /** Nothing of the portfolio: no account, no positions, no orders, no summary. */
  predicate EmptyPortfolio(s: Snapshot) {
    s.account.None? && s.positions == [] && s.openOrders == [] && s.lastSummary == ""
  }

  /**
   * The ImportError the node's first statement raises: it imports
   * `get_alpaca_market_clock` from `alpaca_portfolio`, which defines no
   * such function; `modulePath` is the file the module was loaded from.
   */
  function MissingClockImport(modulePath: string): string {
    "cannot import name 'get_alpaca_market_clock' from 'portfoliomanager.dataflows.alpaca_portfolio' ("
    + modulePath + ")"
  }

  /**
   * `assess_portfolio_node` as written: the import at the head of its `try`
   * fails before the clock is read, and the outer handler returns only the
   * phase "error" and the exception's text. Whatever the market, the bucket
   * and the broker, no iteration is ever assessed.
   */
  method AssessPortfolioNode(modulePath: string, clock: Fetch<MarketClock>, bucket: Option<string>,
                             account: BrokerAccount, positions: PositionListing, orders: seq<BrokerOrder>)
    returns (u: AssessUpdate)
    ensures u.phase == Error && u.snapshot.None?
    ensures u.error == Some(MissingClockImport(modulePath))
  {
    return AssessUpdate(Error, Some(MissingClockImport(modulePath)), None);
  }

  /**
   * `assess_portfolio_node` with the clock function it means to import
   * (`get_market_clock` of the broker layer): the clock is read first; a
   * closed market or a failing clock ends the node with an empty portfolio.
   * A missing bucket ends it in "error" with the ValueError's text, and so
   * does a failed position listing, with the KeyError's text; the account
   * and the open orders are read by wrappers that never raise. Otherwise
   * the snapshot holds the account, the reshaped positions, the listed
   * open orders and the last summary ("" where there is none or it cannot
   * be read).
   */
  method AssessWithMarketClock(clock: Fetch<MarketClock>, bucket: Option<string>,
                               store: S3Client.S3ReportManager, summaryFails: bool,
                               account: BrokerAccount, positions: PositionListing, orders: seq<BrokerOrder>)
    returns (u: AssessUpdate)
    requires store.Valid()
    ensures u.phase == MarketClosed || u.phase == Error || u.phase == Assess
    ensures u.phase == MarketClosed <==> clock.Fetched? && !MarketOpen(clock)
    ensures u.phase == Assess <==> MarketOpen(clock) && Configured(bucket) && positions.PositionsListed?
    ensures u.phase != Assess ==> u.error.Some? && (u.snapshot.Some? ==> EmptyPortfolio(u.snapshot.value))
    ensures clock.Raises? ==>
              u == AssessUpdate(Error, Some("Could not check market status: " + clock.error),
                                Some(Snapshot(None, None, [], [], "")))
    ensures u.phase == MarketClosed ==>
              u == AssessUpdate(MarketClosed, Some("Market is closed. Next open: " + clock.value.nextOpen.GetOr("Unknown")),
                                Some(Snapshot(Some(clock.value), None, [], [], "")))
    ensures MarketOpen(clock) && !Configured(bucket) ==> u == AssessUpdate(Error, Some(BucketMissing), None)
    ensures MarketOpen(clock) && Configured(bucket) && positions.PositionsListingError? ==>
              u == AssessUpdate(Error, Some(SymbolKeyError), None)
    ensures u.phase == Assess ==>
              u.error.None? && u.snapshot.Some?
              && u.snapshot.value.clock == Some(clock.value)
              && u.snapshot.value.account == Some(AccountInfoOf(account))
              && |u.snapshot.value.positions| == |positions.positions|
              && (forall i :: 0 <= i < |positions.positions| ==>
                    u.snapshot.value.positions[i] == ForState(Reshape(positions.positions[i])))
              && u.snapshot.value.openOrders == Listed(orders)
              && u.snapshot.value.lastSummary == store.GetLastSummary(summaryFails).GetOr("")
  {
    if clock.Raises? {
      return AssessUpdate(Error, Some("Could not check market status: " + clock.error),
                          Some(Snapshot(None, None, [], [], "")));
    }
    if !MarketOpen(clock) {
      return AssessUpdate(MarketClosed, Some("Market is closed. Next open: " + clock.value.nextOpen.GetOr("Unknown")),
                          Some(Snapshot(Some(clock.value), None, [], [], "")));
    }
    if !Configured(bucket) {
      return AssessUpdate(Error, Some(BucketMissing), None);
    }
    var lastSummary := store.GetLastSummary(summaryFails).GetOr("");
    var info := AccountInfoOf(account);
    var held := GetAlpacaPositions(positions);
    if held.PositionsRaised? {
      return AssessUpdate(Error, Some(held.error), None);
    }
    var open := ListOrders(orders);
    var formatted := FormatPositions(held.positions);
    u := AssessUpdate(Assess, None, Some(Snapshot(Some(clock.value), Some(info), formatted, open, lastSummary)));
  }

  // ---------------------------------------------------------------------
  // The run number: `re.search(r'Run #(\d+)', last_summary)`

  const RunTag: string := "Run #"

  /** "Run #" followed by a digit starts at position `k`. */
  predicate RunAt(s: string, k: nat) {
    k + |RunTag| < |s| && s[k..k + |RunTag|] == RunTag && IsDigitChar(s[k + |RunTag|])
  }

  /** The leftmost position from `k` on where the pattern matches. */
  function FirstRunAt(s: string, k: nat): (r: Option<nat>)
    requires k <= |s|
    ensures r.Some? ==> k <= r.value < |s| && RunAt(s, r.value) && forall j :: k <= j < r.value ==> !RunAt(s, j)
    ensures r.None? ==> forall j :: k <= j <= |s| ==> !RunAt(s, j)
    decreases |s| - k
  {
    if k == |s| then None
    else if RunAt(s, k) then Some(k)
    else FirstRunAt(s, k + 1)
  }

  /** The number after the first "Run #", or None where the pattern does not match. */
  function RunNumber(s: string): (n: Option<nat>)
    ensures n.None? <==> forall k :: 0 <= k <= |s| ==> !RunAt(s, k)
    ensures n.Some? ==> Contains(s, RunTag)
  {
    match FirstRunAt(s, 0)
    case None => None
    case Some(k) =>
      assert StartsWith(s[k..], RunTag) by {
        assert s[k..][..|RunTag|] == s[k..k + |RunTag|];
      }
      ContainsInSuffix(s, k, RunTag);
      Some(DigitsValue(LeadingDigits(s[k + |RunTag|..])))
  }

  /** `run_count` in `make_decisions_node`: the number read, or 1. */
  function DecisionRunCount(lastSummary: string): (n: nat)
    ensures !Contains(lastSummary, RunTag) ==> n == 1
  {
    match RunNumber(lastSummary)
    case None => 1
    case Some(n) => n
  }

  /** `run_count` in `update_summary_node`: one past the number read, or 1. */
  function SummaryRunCount(lastSummary: string): (n: nat)
    ensures n >= 1
    ensures !Contains(lastSummary, RunTag) ==> n == 1
    ensures RunNumber(lastSummary).Some? ==> n == DecisionRunCount(lastSummary) + 1
  {
    match RunNumber(lastSummary)
    case None => 1
    case Some(n) => n + 1
  }

  /** No "Run #" can start before a text that holds no '#'. */
  lemma NoRunBefore(pre: string, rest: string, k: nat)
    requires forall i :: 0 <= i < |pre| ==> pre[i] != '#'
    requires StartsWith(rest, RunTag)
    requires k < |pre|
    ensures !RunAt(pre + rest, k)
  {
    var s := pre + rest;
    if k + |RunTag| < |s| {
      if k + 4 < |pre| {
        assert s[k..k + |RunTag|][4] == pre[k + 4];
      } else {
        assert s[k..k + |RunTag|][4] == rest[k + 4 - |pre|] == RunTag[k + 4 - |pre|];
      }
    }
  }

  /** A match with none before it is the one `re.search` finds. */
  lemma FirstRunIs(s: string, k: nat)
    requires RunAt(s, k) && forall j :: 0 <= j < k ==> !RunAt(s, j)
    ensures FirstRunAt(s, 0) == Some(k)
  {
  }

  /** "Run #" opens the text after `pre`, and the digits of n follow it. */
  lemma RunAfter(pre: string, n: nat, post: string)
    requires |post| == 0 || !IsDigitChar(post[0])
    ensures RunAt(pre + RunTag + NatToString(n) + post, |pre|)
    ensures DigitsValue(LeadingDigits((pre + RunTag + NatToString(n) + post)[|pre| + |RunTag|..])) == n
  {
    var d := NatToString(n);
    var s := pre + RunTag + d + post;
    assert s[|pre|..|pre| + |RunTag|] == RunTag;
    assert s[|pre| + |RunTag|..] == d + post;
    LeadingDigitsOfDigits(d, post);
    NatToStringRoundTrip(n);
  }

  /**
   * A summary whose first '#' opens "Run #n" gives back n: the decisions
   * read n and the next summary counts n + 1.
   */
  lemma RunNumberReadsBack(pre: string, n: nat, post: string)
    requires forall i :: 0 <= i < |pre| ==> pre[i] != '#'
    requires |post| == 0 || !IsDigitChar(post[0])
    ensures RunNumber(pre + RunTag + NatToString(n) + post) == Some(n)
    ensures DecisionRunCount(pre + RunTag + NatToString(n) + post) == n
    ensures SummaryRunCount(pre + RunTag + NatToString(n) + post) == n + 1
  {
    var rest := RunTag + NatToString(n) + post;
    var s := pre + rest;
    assert s == pre + RunTag + NatToString(n) + post;
    assert StartsWith(rest, RunTag) by {
      assert rest[..|RunTag|] == RunTag;
    }
    forall k | 0 <= k < |pre|
      ensures !RunAt(s, k)
    {
      NoRunBefore(pre, rest, k);
    }
    RunAfter(pre, n, post);
    FirstRunIs(s, |pre|);
  }

  // ---------------------------------------------------------------------
  // make_decisions_node

  /** A tool call the LLM requests; an absent name is None (read as "unknown"), an absent id "". */
  datatype ToolCall = ToolCall(name: Option<string>, args: map<string, string>, id: Option<string>)

  function CallName(c: ToolCall): string {
    c.name.GetOr("unknown")
  }

  /** The conversation of the decision node. */
  datatype Message =
    | SystemMessage(content: string)
    | HumanMessage(content: string)
    | AiMessage(toolCalls: seq<ToolCall>)
    | ToolMessage(content: string, toolCallId: string)

  const SystemPrompt: string := "You are an autonomous portfolio manager with full trading authority."

  /** The tools bound to the LLM: the allowed reads of the broker's tools, then the bracket-order tool. */
  function Offered(all: seq<SafeTools.Tool>): (tools: seq<SafeTools.Tool>)
    ensures |tools| >= 1 && tools[|tools| - 1] == SafeTools.Tool(SafeTools.BracketToolName)
  {
    Filter(all, SafeTools.IsAllowed) + [SafeTools.Tool(SafeTools.BracketToolName)]
  }

  /** `[t for t in safe_tools if t.name == name][0]`, or None for an empty match. */
  function FirstNamed(tools: seq<SafeTools.Tool>, name: string): (r: Option<SafeTools.Tool>)
    ensures r.None? <==> forall i :: 0 <= i < |tools| ==> tools[i].name != name
    ensures r.Some? ==> r.value in tools && r.value.name == name
  {
    if |tools| == 0 then None
    else if tools[0].name == name then Some(tools[0])
    else FirstNamed(tools[1..], name)
  }

  /** The record appended to `executed_trades` (its timestamp is left out). */
  datatype ExecutedTrade = ExecutedTrade(
    ticker: string, action: string, quantity: Option<string>, orderValue: Option<string>,
    orderType: string, stopLossPrice: Option<string>, takeProfitPrice: Option<string>,
    status: string, toolResult: string)

  function Arg(args: map<string, string>, key: string): Option<string> {
    if key in args then Some(args[key]) else None
  }

  /** The record of a bracket order that ran; an absent quantity or notional reads 0. */
  function TradeRecord(args: map<string, string>, result: string): (t: ExecutedTrade)
    ensures |t.toolResult| <= 500 && t.status == "submitted"
  {
    ExecutedTrade(Arg(args, "symbol").GetOr("UNKNOWN"), Upper(Arg(args, "side").GetOr("UNKNOWN")),
                  Arg(args, "qty"), Arg(args, "notional"), Arg(args, "type").GetOr("market"),
                  Arg(args, "stop_loss_price"), Arg(args, "take_profit_price"), "submitted", Take(result, 500))
  }

  /** What one requested call adds to the conversation and to the trades. */
  datatype Handled = Handled(message: Option<Message>, trade: Option<ExecutedTrade>)

  /**
   * One turn of the tool loop: a call naming no offered tool adds nothing;
   * otherwise the first tool with that name runs, and its result, or the
   * error it raises, becomes a tool message. A call to `tradeTool` that
   * returns is also recorded as a trade.
   */
  function HandleCall(c: ToolCall, tools: seq<SafeTools.Tool>,
                      invoke: (SafeTools.Tool, map<string, string>) -> PortfolioInterface.CallOutcome,
                      tradeTool: string): (h: Handled)
    ensures FirstNamed(tools, CallName(c)).None? ==> h == Handled(None, None)
    ensures FirstNamed(tools, CallName(c)).Some? ==> h.message.Some? && h.message.value.ToolMessage?
    ensures h.trade.Some? ==> CallName(c) == tradeTool && FirstNamed(tools, CallName(c)).Some?
                              && invoke(FirstNamed(tools, CallName(c)).value, c.args).Returned?
  {
    match FirstNamed(tools, CallName(c))
    case None => Handled(None, None)
    case Some(t) =>
      match invoke(t, c.args)
      case Raised(e) =>
        Handled(Some(ToolMessage("Error executing " + CallName(c) + ": " + e, c.id.GetOr(""))), None)
      case Returned(v) =>
        Handled(Some(ToolMessage(v, c.id.GetOr(""))),
                if CallName(c) == tradeTool then Some(TradeRecord(c.args, v)) else None)
  }

  function ToolMessages(calls: seq<ToolCall>, tools: seq<SafeTools.Tool>,
                        invoke: (SafeTools.Tool, map<string, string>) -> PortfolioInterface.CallOutcome,
                        tradeTool: string): seq<Message>
  {
    if |calls| == 0 then []
    else
      var h := HandleCall(calls[|calls| - 1], tools, invoke, tradeTool);
      ToolMessages(calls[..|calls| - 1], tools, invoke, tradeTool) + (if h.message.Some? then [h.message.value] else [])
  }

  function Trades(calls: seq<ToolCall>, tools: seq<SafeTools.Tool>,
                  invoke: (SafeTools.Tool, map<string, string>) -> PortfolioInterface.CallOutcome,
                  tradeTool: string): seq<ExecutedTrade>
  {
    if |calls| == 0 then []
    else
      var h := HandleCall(calls[|calls| - 1], tools, invoke, tradeTool);
      Trades(calls[..|calls| - 1], tools, invoke, tradeTool) + (if h.trade.Some? then [h.trade.value] else [])
  }

  /** A call naming no offered tool runs nothing and adds neither a message nor a trade. */
  lemma UnknownCallAddsNothing(calls: seq<ToolCall>, c: ToolCall, tools: seq<SafeTools.Tool>,
                               invoke: (SafeTools.Tool, map<string, string>) -> PortfolioInterface.CallOutcome,
                               tradeTool: string)
    requires forall i :: 0 <= i < |tools| ==> tools[i].name != CallName(c)
    ensures ToolMessages(calls + [c], tools, invoke, tradeTool) == ToolMessages(calls, tools, invoke, tradeTool)
    ensures Trades(calls + [c], tools, invoke, tradeTool) == Trades(calls, tools, invoke, tradeTool)
  {
    assert (calls + [c])[..|calls|] == calls;
  }

  /** Every call naming an offered tool adds exactly one tool message. */
  lemma {:induction false} OneMessagePerKnownCall(calls: seq<ToolCall>, tools: seq<SafeTools.Tool>,
                                                  invoke: (SafeTools.Tool, map<string, string>) -> PortfolioInterface.CallOutcome,
                                                  tradeTool: string)
    ensures |ToolMessages(calls, tools, invoke, tradeTool)| == KnownCalls(calls, tools)
    ensures forall i :: 0 <= i < |ToolMessages(calls, tools, invoke, tradeTool)| ==>
              ToolMessages(calls, tools, invoke, tradeTool)[i].ToolMessage?
  {
    if |calls| > 0 {
      OneMessagePerKnownCall(calls[..|calls| - 1], tools, invoke, tradeTool);
    }
  }

  /** How many calls name an offered tool. */
  function KnownCalls(calls: seq<ToolCall>, tools: seq<SafeTools.Tool>): nat {
    if |calls| == 0 then 0
    else KnownCalls(calls[..|calls| - 1], tools) + (if FirstNamed(tools, CallName(calls[|calls| - 1])).Some? then 1 else 0)
  }

  /** The tool the source records trades for. */
  const AsWrittenTradeTool: string := "place_bracket_order"

  /** An allowed read is not named "place_bracket_order". */
  lemma ReadIsNotAsWrittenTool(n: string)
    requires n in SafeTools.AllowedToolNames
    ensures n != AsWrittenTradeTool
  {
    SafeTools.AllowedNamesAreReads();
    assert n[0] == 'g';
  }

  /** The only offered names are the allowed reads and the bracket-order tool; "place_bracket_order" is none of them. */
  lemma AsWrittenToolNeverOffered(all: seq<SafeTools.Tool>)
    ensures FirstNamed(Offered(all), AsWrittenTradeTool).None?
  {
    var readTools := Filter(all, SafeTools.IsAllowed);
    var tools := Offered(all);
    assert tools == readTools + [SafeTools.Tool(SafeTools.BracketToolName)];
    forall i | 0 <= i < |tools|
      ensures tools[i].name != AsWrittenTradeTool
    {
      if i < |readTools| {
        assert tools[i] == readTools[i];
        ReadIsNotAsWrittenTool(readTools[i].name);
      } else {
        assert tools[i].name[7] == 'u' && AsWrittenTradeTool[7] == 'r';
      }
    }
  }

  /** `executed_trades` as written: whatever the LLM calls, nothing is ever recorded. */
  function AsWrittenExecutedTrades(calls: seq<ToolCall>, all: seq<SafeTools.Tool>,
                                   invoke: (SafeTools.Tool, map<string, string>) -> PortfolioInterface.CallOutcome)
    : (r: seq<ExecutedTrade>)
    ensures r == []
  {
    AsWrittenToolNeverOffered(all);
    AsWrittenRecordsNothing(calls, Offered(all), invoke);
    Trades(calls, Offered(all), invoke, AsWrittenTradeTool)
  }

  lemma {:induction false} AsWrittenRecordsNothing(calls: seq<ToolCall>, tools: seq<SafeTools.Tool>,
                                                   invoke: (SafeTools.Tool, map<string, string>) -> PortfolioInterface.CallOutcome)
    requires FirstNamed(tools, AsWrittenTradeTool).None?
    ensures Trades(calls, tools, invoke, AsWrittenTradeTool) == []
  {
    if |calls| > 0 {
      AsWrittenRecordsNothing(calls[..|calls| - 1], tools, invoke);
    }
  }

  /** How many calls of the bracket-order tool returned a result. */
  function BracketOrdersPlaced(calls: seq<ToolCall>,
                               invoke: (SafeTools.Tool, map<string, string>) -> PortfolioInterface.CallOutcome): nat
  {
    if |calls| == 0 then 0
    else
      var c := calls[|calls| - 1];
      BracketOrdersPlaced(calls[..|calls| - 1], invoke)
        + (if CallName(c) == SafeTools.BracketToolName
              && invoke(SafeTools.Tool(SafeTools.BracketToolName), c.args).Returned? then 1 else 0)
  }

  /** The bracket-order tool is always found, as itself. */
  lemma BracketToolIsOffered(all: seq<SafeTools.Tool>)
    ensures FirstNamed(Offered(all), SafeTools.BracketToolName) == Some(SafeTools.Tool(SafeTools.BracketToolName))
  {
    var tools := Offered(all);
    var r := FirstNamed(tools, SafeTools.BracketToolName);
    assert tools[|tools| - 1].name == SafeTools.BracketToolName;
  }

  /** Recording the tool that is offered: one trade for every bracket order that returned. */
  lemma {:induction false} CorrectedRecordsEveryOrder(calls: seq<ToolCall>, all: seq<SafeTools.Tool>,
                                                      invoke: (SafeTools.Tool, map<string, string>) -> PortfolioInterface.CallOutcome)
    ensures |Trades(calls, Offered(all), invoke, SafeTools.BracketToolName)| == BracketOrdersPlaced(calls, invoke)
  {
    if |calls| > 0 {
      BracketToolIsOffered(all);
      CorrectedRecordsEveryOrder(calls[..|calls| - 1], all, invoke);
    }
  }

  /** The loop over the requested tool calls, in the order the LLM gave them. */
  method RunToolCalls(calls: seq<ToolCall>, tools: seq<SafeTools.Tool>,
                      invoke: (SafeTools.Tool, map<string, string>) -> PortfolioInterface.CallOutcome,
                      tradeTool: string)
    returns (replies: seq<Message>, trades: seq<ExecutedTrade>)
    ensures replies == ToolMessages(calls, tools, invoke, tradeTool)
    ensures trades == Trades(calls, tools, invoke, tradeTool)
  {
    replies, trades := [], [];
    var i := 0;
    while i < |calls|
      invariant 0 <= i <= |calls|
      invariant replies == ToolMessages(calls[..i], tools, invoke, tradeTool)
      invariant trades == Trades(calls[..i], tools, invoke, tradeTool)
    {
      assert calls[..i + 1][..i] == calls[..i];
      var h := HandleCall(calls[i], tools, invoke, tradeTool);
      if h.trade.Some? {
        trades := trades + [h.trade.value];
      }
      if h.message.Some? {
        replies := replies + [h.message.value];
      }
      i := i + 1;
    }
    assert calls[..i] == calls;
  }

  /** What `make_decisions_node` returns. */
  datatype DecisionUpdate = DecisionUpdate(phase: Phase, executedTrades: seq<ExecutedTrade>, error: Option<string>)

  /**
   * The body of `make_decisions_node`, recording trades for calls of
   * `tradeTool`: after a failed assessment nothing is asked of the LLM.
   * Otherwise the LLM is asked once; each tool call it requests is handled
   * in order, and the LLM is asked once more when there was any. An
   * exception from either LLM call leaves no trades and its text as the
   * error.
   */
  method DecisionNode(tradeTool: string, phase: Phase, all: seq<SafeTools.Tool>, prompt: string,
                      first: Fetch<seq<ToolCall>>,
                      invoke: (SafeTools.Tool, map<string, string>) -> PortfolioInterface.CallOutcome,
                      finalFails: Option<string>)
    returns (u: DecisionUpdate, conversation: seq<Message>)
    ensures phase == Error ==> u == DecisionUpdate(Error, [], None) && conversation == []
    ensures phase != Error ==> u.phase == Execute
    ensures phase != Error && first.Raises? ==> u == DecisionUpdate(Execute, [], Some(first.error)) && conversation == []
    ensures phase != Error && first.Fetched? ==>
              conversation == [SystemMessage(SystemPrompt), HumanMessage(prompt), AiMessage(first.value)]
                              + ToolMessages(first.value, Offered(all), invoke, tradeTool)
    ensures phase != Error && first.Fetched? && |first.value| > 0 && finalFails.Some? ==>
              u == DecisionUpdate(Execute, [], finalFails)
    ensures phase != Error && first.Fetched? && (|first.value| == 0 || finalFails.None?) ==>
              u == DecisionUpdate(Execute, Trades(first.value, Offered(all), invoke, tradeTool), None)
  {
    if phase == Error {
      return DecisionUpdate(Error, [], None), [];
    }
    var tools := SafeTools.GetSafeTradingTools(all);
    assert tools == Offered(all) by {
      assert tools == tools[..|tools| - 1] + [tools[|tools| - 1]];
    }
    if first.Raises? {
      return DecisionUpdate(Execute, [], Some(first.error)), [];
    }
    var calls := first.value;
    var replies, trades := RunToolCalls(calls, tools, invoke, tradeTool);
    conversation := [SystemMessage(SystemPrompt), HumanMessage(prompt), AiMessage(calls)] + replies;
    if |calls| > 0 && finalFails.Some? {
      return DecisionUpdate(Execute, [], finalFails), conversation;
    }
    u := DecisionUpdate(Execute, trades, None);
  }

  /**
   * `make_decisions_node` as written: trades are recorded for calls named
   * "place_bracket_order", a tool the LLM is never offered, so however the
   * LLM trades, `executed_trades` stays empty; the conversation is the one
   * `DecisionNode` states.
   */
  method MakeDecisionsNode(phase: Phase, all: seq<SafeTools.Tool>, prompt: string, first: Fetch<seq<ToolCall>>,
                           invoke: (SafeTools.Tool, map<string, string>) -> PortfolioInterface.CallOutcome,
                           finalFails: Option<string>)
    returns (u: DecisionUpdate, conversation: seq<Message>)
    ensures u.executedTrades == []
    ensures phase == Error ==> u == DecisionUpdate(Error, [], None) && conversation == []
    ensures phase != Error ==> u.phase == Execute
    ensures phase != Error && first.Raises? ==> u.error == Some(first.error) && conversation == []
    ensures phase != Error && first.Fetched? ==>
              conversation == [SystemMessage(SystemPrompt), HumanMessage(prompt), AiMessage(first.value)]
                              + ToolMessages(first.value, Offered(all), invoke, AsWrittenTradeTool)
    ensures phase != Error && first.Fetched? ==>
              u.error == (if |first.value| > 0 && finalFails.Some? then finalFails else None)
  {
    u, conversation := DecisionNode(AsWrittenTradeTool, phase, all, prompt, first, invoke, finalFails);
    if first.Fetched? {
      var none := AsWrittenExecutedTrades(first.value, all, invoke);
    }
  }

  /**
   * `make_decisions_node` recording the bracket-order tool the LLM is
   * offered: when the run ends without an LLM error, one trade for every
   * bracket order that returned, in call order.
   */
  method CorrectedMakeDecisionsNode(phase: Phase, all: seq<SafeTools.Tool>, prompt: string, first: Fetch<seq<ToolCall>>,
                                    invoke: (SafeTools.Tool, map<string, string>) -> PortfolioInterface.CallOutcome,
                                    finalFails: Option<string>)
    returns (u: DecisionUpdate, conversation: seq<Message>)
    ensures phase == Error ==> u == DecisionUpdate(Error, [], None) && conversation == []
    ensures phase != Error ==> u.phase == Execute
    ensures phase != Error && first.Raises? ==> u == DecisionUpdate(Execute, [], Some(first.error)) && conversation == []
    ensures phase != Error && first.Fetched? ==>
              conversation == [SystemMessage(SystemPrompt), HumanMessage(prompt), AiMessage(first.value)]
                              + ToolMessages(first.value, Offered(all), invoke, SafeTools.BracketToolName)
    ensures phase != Error && first.Fetched? && |first.value| > 0 && finalFails.Some? ==>
              u == DecisionUpdate(Execute, [], finalFails)
    ensures phase != Error && first.Fetched? && (|first.value| == 0 || finalFails.None?) ==>
              u == DecisionUpdate(Execute, Trades(first.value, Offered(all), invoke, SafeTools.BracketToolName), None)
              && |u.executedTrades| == BracketOrdersPlaced(first.value, invoke)
  {
    u, conversation := DecisionNode(SafeTools.BracketToolName, phase, all, prompt, first, invoke, finalFails);
    if first.Fetched? {
      CorrectedRecordsEveryOrder(first.value, all, invoke);
    }
  }

  // ---------------------------------------------------------------------
  // update_summary_node

  const ErrorSummaryHead: string := "ERROR SUMMARY\nRun Date: "
  const ErrorSummaryStatus: string := "\nStatus: Error occurred during portfolio assessment\n\nError: "
  const ErrorSummaryTail: string :=
    "\n\nAction Taken: No trading operations performed (error in assessment)"
    + "\nNext Steps: Check logs and fix the issue before running again\n"

  /** The summary saved after a failed assessment. */
  function ErrorSummary(now: string, iterationId: string, errorMsg: string): string {
    ErrorSummaryHead + now + "\nIteration ID: " + iterationId + ErrorSummaryStatus + errorMsg + ErrorSummaryTail
  }

  /** What `update_summary_node` returns; an absent key is None. */
  datatype SummaryUpdate = SummaryUpdate(phase: Phase, summary: Option<string>, runCount: Option<nat>, error: Option<string>)

  /**
   * `update_summary_node`: always "complete". A closed market writes nothing
   * and counts run 0; a failed assessment saves the error summary once, when
   * a bucket is configured, and counts run 0; otherwise the LLM's summary is
   * saved and the run count is one past the last one.
   */
  method UpdateSummaryNode(phase: Phase, error: Option<string>, iterationId: string, now: string,
                           bucket: Option<string>, store: S3Client.S3ReportManager, lastSummary: string,
                           reply: Fetch<string>, firstFails: bool, secondFails: bool)
    returns (u: SummaryUpdate)
    requires store.Valid()
    modifies store`objects
    ensures store.Valid()
    ensures u.phase == Complete
    ensures phase == MarketClosed ==> u == SummaryUpdate(Complete, None, Some(0), None)
                                      && store.objects == old(store.objects)
    ensures phase == Error ==>
              u == SummaryUpdate(Complete, Some(ErrorSummary(now, iterationId, error.GetOr("Unknown error occurred"))),
                                 Some(0), Some(error.GetOr("Unknown error occurred")))
    ensures phase == Error && !Configured(bucket) ==> store.objects == old(store.objects)
    ensures phase == Error && Configured(bucket) ==>
              store.objects == S3Client.AfterSaveSummary(old(store.objects), u.summary.value, iterationId, firstFails, secondFails)
    ensures phase != MarketClosed && phase != Error && !Configured(bucket) ==>
              u == SummaryUpdate(Complete, None, None, Some(BucketMissing)) && store.objects == old(store.objects)
    ensures phase != MarketClosed && phase != Error && Configured(bucket) && reply.Raises? ==>
              u == SummaryUpdate(Complete, None, None, Some(reply.error)) && store.objects == old(store.objects)
    ensures phase != MarketClosed && phase != Error && Configured(bucket) && reply.Fetched? ==>
              u == SummaryUpdate(Complete, None, Some(SummaryRunCount(lastSummary)), None)
              && store.objects == S3Client.AfterSaveSummary(old(store.objects), reply.value, iterationId, firstFails, secondFails)
  {
    if phase == MarketClosed {
      return SummaryUpdate(Complete, None, Some(0), None);
    }
    if phase == Error {
      var errorMsg := error.GetOr("Unknown error occurred");
      var summary := ErrorSummary(now, iterationId, errorMsg);
      if Configured(bucket) {
        var _ := store.SaveSummary(summary, iterationId, firstFails, secondFails);
      }
      return SummaryUpdate(Complete, Some(summary), Some(0), Some(errorMsg));
    }
    if !Configured(bucket) {
      return SummaryUpdate(Complete, None, None, Some(BucketMissing));
    }
    var runCount := SummaryRunCount(lastSummary);
    if reply.Raises? {
      return SummaryUpdate(Complete, None, None, Some(reply.error));
    }
    var _ := store.SaveSummary(reply.value, iterationId, firstFails, secondFails);
    u := SummaryUpdate(Complete, None, Some(runCount), None);
  }
}
