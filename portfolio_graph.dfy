/**
 * The portfolio graph: its edges, the routing `should_trade` makes after
 * the assessment, the initial state of an iteration, and one iteration run
 * from that state through the nodes to the end.
 */
module PortfolioGraph {
  import opened Common
  import opened Nodes
  import SafeTools
  import S3Client
  import PortfolioInterface
  import AlpacaPortfolio

  datatype NodeName = AssessPortfolio | MakeDecisions | UpdateSummary

  /** `should_trade`: skip the trading after a closed market or a failed assessment. */
  function ShouldTrade(phase: Phase): (next: NodeName)
    ensures next == UpdateSummary <==> phase == MarketClosed || phase == Error
    ensures next == MakeDecisions <==> phase != MarketClosed && phase != Error
  {
    if phase == MarketClosed then UpdateSummary
    else if phase == Error then UpdateSummary
    else MakeDecisions
  }

  /** The node after `node`, given the phase it ended in; None is the end of the graph. */
  function Successor(node: NodeName, phase: Phase): Option<NodeName> {
    match node
    case AssessPortfolio => Some(ShouldTrade(phase))
    case MakeDecisions => Some(UpdateSummary)
    case UpdateSummary => None
  }

  /** The nodes a run visits from the start, given the phase the assessment ends in. */
  function Route(assessed: Phase): seq<NodeName> {
    var second := Successor(AssessPortfolio, assessed).value;
    if second == UpdateSummary then [AssessPortfolio, UpdateSummary]
    else [AssessPortfolio, second, Successor(second, Execute).value]
  }

  /**
   * Every run starts at the assessment and ends at the summary, with the
   * decisions at most once in between, and only when the assessment did
   * not end in a closed market or an error.
   */
  lemma RouteOrder(assessed: Phase, decided: Phase)
    ensures Route(assessed)[0] == AssessPortfolio
    ensures Route(assessed)[|Route(assessed)| - 1] == UpdateSummary
    ensures Successor(UpdateSummary, decided).None?
    ensures |Route(assessed)| <= 3
    ensures forall i, j :: 0 <= i < j < |Route(assessed)| ==> Route(assessed)[i] != Route(assessed)[j]
    ensures MakeDecisions in Route(assessed) <==> assessed != MarketClosed && assessed != Error
    ensures forall i :: 0 <= i < |Route(assessed)| - 1 ==>
              Successor(Route(assessed)[i], if i == 0 then assessed else decided) == Some(Route(assessed)[i + 1])
  {
    var r := Route(assessed);
    if ShouldTrade(assessed) == MakeDecisions {
      assert r == [AssessPortfolio, MakeDecisions, UpdateSummary];
    } else {
      assert r == [AssessPortfolio, UpdateSummary];
    }
  }

  /** The state an iteration starts from. */
  datatype GraphState = GraphState(
    iterationId: string, phase: Phase, messages: seq<Message>, lastSummary: string, error: Option<string>)

  /** `initial_state` of `run_portfolio_iteration`. */
  function InitialState(iterationId: string): (s: GraphState)
    ensures s.iterationId == iterationId && s.phase == Init && s.messages == []
    ensures s.lastSummary == "" && s.error.None?
  {
    GraphState(iterationId, Init, [], "", None)
  }

  /** The state after the assessment's update is merged in. */
  function AfterAssess(s: GraphState, u: AssessUpdate): GraphState {
    var withError := if u.error.Some? then u.error else s.error;
    var summary := if u.snapshot.Some? then u.snapshot.value.lastSummary else s.lastSummary;
    GraphState(s.iterationId, u.phase, s.messages, summary, withError)
  }

  /**
   * The nodes after the assessment, run along `Route` from the state the
   * assessment left: the decisions when it did not end in a closed market
   * or an error, with trades recorded for `tradeTool`; then the summary.
   */
  method RunNodes(
    assessed: AssessUpdate, iterationId: string, now: string, bucket: Option<string>, store: S3Client.S3ReportManager,
    tradeTool: string, all: seq<SafeTools.Tool>, prompt: string, first: Fetch<seq<ToolCall>>,
    invoke: (SafeTools.Tool, map<string, string>) -> PortfolioInterface.CallOutcome, finalFails: Option<string>,
    reply: Fetch<string>, firstFails: bool, secondFails: bool)
    returns (trace: seq<NodeName>, conversation: seq<Message>, trades: seq<ExecutedTrade>, finalPhase: Phase)
    requires store.Valid()
    modifies store`objects
    ensures store.Valid()
    ensures finalPhase == Complete
    ensures trace == Route(assessed.phase)
    ensures assessed.phase == MarketClosed || assessed.phase == Error ==>
              conversation == [] && trades == [] && MakeDecisions !in trace
    ensures assessed.phase == MarketClosed ==> store.objects == old(store.objects)
    ensures assessed.phase == Error && !Configured(bucket) ==> store.objects == old(store.objects)
    ensures assessed.phase == Error && Configured(bucket) ==>
              store.objects == S3Client.AfterSaveSummary(
                                 old(store.objects), ErrorSummary(now, iterationId, assessed.error.GetOr("Unknown error occurred")),
                                 iterationId, firstFails, secondFails)
    ensures assessed.phase != MarketClosed && assessed.phase != Error && first.Fetched?
            && (|first.value| == 0 || finalFails.None?) ==>
              trades == Trades(first.value, Offered(all), invoke, tradeTool)
  {
    var state := AfterAssess(InitialState(iterationId), assessed);
    RouteOrder(assessed.phase, Execute);
    trace := [AssessPortfolio];
    conversation, trades := [], [];
    if ShouldTrade(state.phase) == MakeDecisions {
      trace := trace + [MakeDecisions];
      var decided;
      decided, conversation := DecisionNode(tradeTool, state.phase, all, prompt, first, invoke, finalFails);
      trades := decided.executedTrades;
      state := state.(phase := decided.phase, error := if decided.error.Some? then decided.error else state.error);
    }
    trace := trace + [UpdateSummary];
    var summarized := UpdateSummaryNode(state.phase, state.error, iterationId, now, bucket, store,
                                        state.lastSummary, reply, firstFails, secondFails);
    finalPhase := summarized.phase;
  }

  /**
   * `run_portfolio_iteration` as written: the assessment always fails on
   * its import, so every run goes straight to the summary, which ends in
   * "complete" having saved the error summary when a bucket is configured.
   * The LLM is never asked and no trade is placed.
   */
  method RunPortfolioIteration(
    modulePath: string, iterationId: string, now: string, bucket: Option<string>, store: S3Client.S3ReportManager,
    clock: Fetch<MarketClock>, account: AlpacaPortfolio.BrokerAccount,
    positions: AlpacaPortfolio.PositionListing, orders: seq<AlpacaPortfolio.BrokerOrder>,
    all: seq<SafeTools.Tool>, prompt: string, first: Fetch<seq<ToolCall>>,
    invoke: (SafeTools.Tool, map<string, string>) -> PortfolioInterface.CallOutcome, finalFails: Option<string>,
    reply: Fetch<string>, firstFails: bool, secondFails: bool)
    returns (assessed: AssessUpdate, trace: seq<NodeName>, conversation: seq<Message>,
             trades: seq<ExecutedTrade>, finalPhase: Phase)
    requires store.Valid()
    modifies store`objects
    ensures store.Valid()
    ensures finalPhase == Complete
    ensures assessed == AssessUpdate(Error, Some(MissingClockImport(modulePath)), None)
    ensures trace == [AssessPortfolio, UpdateSummary]
    ensures conversation == [] && trades == []
    ensures !Configured(bucket) ==> store.objects == old(store.objects)
    ensures Configured(bucket) ==>
              store.objects == S3Client.AfterSaveSummary(
                                 old(store.objects), ErrorSummary(now, iterationId, MissingClockImport(modulePath)),
                                 iterationId, firstFails, secondFails)
  {
    assessed := AssessPortfolioNode(modulePath, clock, bucket, account, positions, orders);
    trace, conversation, trades, finalPhase :=
      RunNodes(assessed, iterationId, now, bucket, store, AsWrittenTradeTool, all, prompt, first, invoke,
               finalFails, reply, firstFails, secondFails);
  }

  /**
   * `run_portfolio_iteration` with both nodes corrected: the assessment
   * reads the broker's clock, and the decisions record the bracket orders
   * the LLM places. The run follows `Route`; after a closed market or a
   * failed assessment the LLM is never asked and no trade is recorded, and
   * after a closed market the store is untouched.
   */
  method RunCorrectedIteration(
    iterationId: string, now: string, bucket: Option<string>, store: S3Client.S3ReportManager,
    clock: Fetch<MarketClock>, summaryFails: bool, account: AlpacaPortfolio.BrokerAccount,
    positions: AlpacaPortfolio.PositionListing, orders: seq<AlpacaPortfolio.BrokerOrder>,
    all: seq<SafeTools.Tool>, prompt: string, first: Fetch<seq<ToolCall>>,
    invoke: (SafeTools.Tool, map<string, string>) -> PortfolioInterface.CallOutcome, finalFails: Option<string>,
    reply: Fetch<string>, firstFails: bool, secondFails: bool)
    returns (assessed: AssessUpdate, trace: seq<NodeName>, conversation: seq<Message>,
             trades: seq<ExecutedTrade>, finalPhase: Phase)
    requires store.Valid()
    modifies store`objects
    ensures store.Valid()
    ensures finalPhase == Complete
    ensures trace == Route(assessed.phase)
    ensures MakeDecisions in trace <==> MarketOpen(clock) && Configured(bucket) && positions.PositionsListed?
    ensures assessed.phase == MarketClosed || assessed.phase == Error ==>
              conversation == [] && trades == [] && MakeDecisions !in trace
    ensures assessed.phase == MarketClosed ==> store.objects == old(store.objects)
    ensures MakeDecisions in trace && first.Fetched? && (|first.value| == 0 || finalFails.None?) ==>
              trades == Trades(first.value, Offered(all), invoke, SafeTools.BracketToolName)
              && |trades| == BracketOrdersPlaced(first.value, invoke)
  {
    assessed := AssessWithMarketClock(clock, bucket, store, summaryFails, account, positions, orders);
    RouteOrder(assessed.phase, Execute);
    trace, conversation, trades, finalPhase :=
      RunNodes(assessed, iterationId, now, bucket, store, SafeTools.BracketToolName, all, prompt, first, invoke,
               finalFails, reply, firstFails, secondFails);
    if MakeDecisions in trace && first.Fetched? {
      CorrectedRecordsEveryOrder(first.value, all, invoke);
    }
  }
}
