# MintTrader portfolio manager in Dafny

MintTrader is an LLM-driven stock portfolio manager for an Alpaca brokerage
account. In each iteration it reads the market clock and a broker snapshot,
recalls the memory summary it stored in S3 during the previous run, and lets
an LLM trade through a small set of safe tools. It then writes a new summary.
An older single-pass orchestrator does the same job as one long prompt loop.
That loop requests at most a few TradingAgents analyses, runs one web search,
and makes trading decisions that must pass a rule book of constraints.

This project models the decision logic of the manager in Dafny:

- the trading constraints and the daily trade counter;
- the allow-list of safe tools and the guarded bracket-order tool;
- the trading executor's tool dispatch and its record of executed trades;
- the analysis quota and the report files;
- the orchestrator's single pass;
- the stock selector's exclusion lists and freshness buckets;
- the report manager's tracking header and summaries;
- the S3 memory of the manager;
- the three nodes of the portfolio graph and the route between them;
- the scheduler's once-per-day rule;
- the technical indicators of the trading prompt.

The model uses these types:

- Objects whose fields the source updates in place are Dafny classes. These
  are the constraints, the executor, the analysis handler, the orchestrator,
  the helpers, the watchlist, the S3 store and the scheduler.
- Pure helpers are functions, each with lemmas about it.
- Loops are `while` loops proved against a specification function.

The LLM, the broker, the storage service, the file system and the clock are
parameters of the members that meet them: the outcome that the call returns,
or the exception it raises. Prices and amounts are `real`.

The module `Common` holds shared helpers: Option, ASCII case, ordered
de-duplication and decimal numerals. The module `Dates` holds calendar
arithmetic that matches Python's `datetime`. Both are used throughout.

## Model

| member | source | states |
|---|---|---|
| AlpacaCommon.RequireEnv | tradingagents/dataflows/alpaca_common.py:17-30 | a credential exists exactly when the variable is set and non-empty, and it is that value; otherwise the ValueError message |
| AlpacaCommon.GetApiKey | tradingagents/dataflows/alpaca_common.py:17-22 | the API key is found exactly when ALPACA_API_KEY is set and non-empty |
| AlpacaCommon.GetSecretKey | tradingagents/dataflows/alpaca_common.py:25-30 | the secret key is found exactly when ALPACA_SECRET_KEY is set and non-empty |
| AlpacaCommon.IsPaperMode | tradingagents/dataflows/alpaca_common.py:33-36 | an unset variable means paper mode; a set one means paper mode exactly when its lower case is one of the "true" words |
| AlpacaCommon.PaperModeIgnoresCase | tradingagents/dataflows/alpaca_common.py:33-36 | a value and its lower-cased form select the same mode |
| AlpacaCommon.DataCutoff | tradingagents/dataflows/alpaca_common.py:141-142 | the cutoff is a valid moment exactly 16 minutes before now |
| AlpacaCommon.ClampToCutoff | tradingagents/dataflows/alpaca_common.py:144-148 | the result never lies after the cutoff; a date at or before the cutoff is kept, and a later one becomes the cutoff |
| AlpacaCommon.ClampIdempotent | tradingagents/dataflows/alpaca_common.py:144-148 | clamping twice against the same now is clamping once |
| AlpacaCommon.ValidateAlpacaDate | tradingagents/dataflows/alpaca_common.py:123-148 | a result exists exactly when the "%Y-%m-%d" text parses, and it is the parsed date clamped to the cutoff |
| ApiConfig.Mask | tests/integration_scripts/check_api_config.py:22-26 | the mask has the value's length; a value longer than eight keeps its first four and last four characters around stars; a shorter one is all stars |
| ApiConfig.CheckEnvVar | tests/integration_scripts/check_api_config.py:18-29 | the variable is reported set exactly when it is non-empty; an unset one shows "Not set", a set one shows its mask |
| ApiConfig.MaskHides | tests/integration_scripts/check_api_config.py:22-26 | any character the mask shows belongs to the first four or last four of a value longer than eight, and is that character |
| AnalysisHandler.ReportPathInjective | portfoliomanager/analysis_handler.py:71-86 | two report names give the same file of one directory exactly when they are equal |
| AnalysisHandler.Request | portfoliomanager/analysis_handler.py:37-113 | the quota refusal comes exactly when the count has reached the quota, then the duplicate refusal, then the error reply when the analysis raises; only a completed analysis changes the tracking, by one more count, the ticker appended and its record stored |
| AnalysisHandler.RequestKeepsConsistent | portfoliomanager/analysis_handler.py:49-98 | every request keeps the counter equal to the number of distinct tickers recorded and no larger than the quota |
| AnalysisHandler.QuotaHolds | portfoliomanager/analysis_handler.py:49-98 | after any sequence of requests the tracking stays consistent and at most the quota of analyses has run |
| AnalysisHandler.SectionsDistinct | portfoliomanager/analysis_handler.py:74-82 | the seven saved report sections have distinct names |
| AnalysisHandler.WriteSectionsKeeps | portfoliomanager/analysis_handler.py:84-87 | saving the sections leaves every other file present, absent or unchanged as before |
| AnalysisHandler.WriteSectionsFinds | portfoliomanager/analysis_handler.py:84-87 | a non-empty section ends up, readable and with its own text, in its own file |
| AnalysisHandler.ReadReportFrom | portfoliomanager/analysis_handler.py:115-147 | "not analyzed" exactly for an unknown ticker; then "not found" exactly when the file is missing, listing the stems of the directory; the content exactly when the file is readable, and it is that file's text |
| AnalysisHandler.ReadAfterRequest | portfoliomanager/analysis_handler.py:84-145 | after a completed analysis, reading one of its non-empty sections returns that section's text |
| AnalysisHandler.DateUsed | portfoliomanager/analysis_handler.py:172 | the given date, or "latest" when the date is None or empty |
| AnalysisHandler.ReadHistoricalFrom | portfoliomanager/analysis_handler.py:149-178 | the error reply exactly when the fetch raises, "not found" exactly when it finds nothing, otherwise the fetched text with the date used |
| AnalysisHandler.AnalysisHandler.constructor | portfoliomanager/analysis_handler.py:16-35 | a new handler has the given directory and quota, no analyses, and a consistent state |
| AnalysisHandler.AnalysisHandler.RequestAnalysis | portfoliomanager/analysis_handler.py:37-113 | the handler's tracking takes exactly the step `Request` states; the report files are written only for a completed analysis; the state stays consistent |
| AnalysisHandler.AnalysisHandler.ReadReport | portfoliomanager/analysis_handler.py:115-147 | reading a report changes nothing and answers as `ReadReportFrom` states over the handler's records |
| AnalysisHandler.AnalysisHandler.ReadHistoricalReport | portfoliomanager/analysis_handler.py:149-178 | with the S3 client shown, which has no `get_report_from_s3`, every historical read ends in the error reply |
| AnalysisHandler.AnalysisHandler.GetStatus | portfoliomanager/analysis_handler.py:180-186 | the status reports the count and the remaining quota; in a consistent state it lists each analysed ticker once, as many as the count |
| AnalysisHandler.AnalysisHandler.GetAnalyzedStocks | portfoliomanager/analysis_handler.py:188-190 | the records dictionary itself, holding as many tickers as the count |
| AlpacaPortfolio.AccountInfoOf | portfoliomanager/dataflows/alpaca_portfolio.py:19-33 | every amount the broker omits reads 0.0 and an omitted paper flag reads true; present values are passed through |
| AlpacaPortfolio.Reshape | portfoliomanager/dataflows/alpaca_portfolio.py:47-58 | a position keeps its symbol, quantity and market value; the P/L fraction becomes a percentage; the side defaults to "long" and the day's change to 0.0 |
| AlpacaPortfolio.GetAlpacaPositions | portfoliomanager/dataflows/alpaca_portfolio.py:36-62 | it raises KeyError('symbol') exactly when the broker listing is its error entry; otherwise one reshaped entry per broker position, in broker order |
| AlpacaPortfolio.GetAlpacaPositionDetails | portfoliomanager/dataflows/alpaca_portfolio.py:65-81 | the KeyError of the failed listing propagates exactly when the listing failed; otherwise "No position found for <ticker>" exactly when no ticker matches without regard to case, and else the first matching position |
| AlpacaPortfolio.ExecuteAlpacaTrade | portfoliomanager/dataflows/alpaca_portfolio.py:84-125 | refused, with the source's messages, exactly when the action is not BUY/SELL in some case or the quantity is not positive; otherwise the broker gets the lower-cased side, and its error or its order id is the result |
| AlpacaPortfolio.RefusedTradeSkipsBroker | portfoliomanager/dataflows/alpaca_portfolio.py:101-107 | a refused trade has the same result whatever the broker would do, so the broker is never asked |
| AlpacaPortfolio.BrokerSideIsBuyOrSell | portfoliomanager/dataflows/alpaca_portfolio.py:109-113 | an accepted action reaches the broker as "buy" or "sell" |
| AlpacaPortfolio.ListOrder | portfoliomanager/dataflows/alpaca_portfolio.py:139-194 | an order's entry has its upper-cased side, and its symbol and id with "" where absent, and its limit and stop prices |
| AlpacaPortfolio.ListOrders | portfoliomanager/dataflows/alpaca_portfolio.py:128-196 | the listing loop builds exactly the listing of the broker's orders |
| AlpacaPortfolio.OrderCountSnoc | portfoliomanager/dataflows/alpaca_portfolio.py:139-156 | one more order adds one entry unless it is an error entry |
| AlpacaPortfolio.ListedMeans | portfoliomanager/dataflows/alpaca_portfolio.py:139-194 | the listing has one entry per non-error order, each entry comes from an order of the input, and every side is upper case |
| Constraints.LimitsOf | portfoliomanager/utils/constraints.py:13-29 | a missing config key takes its default, such as 10 trades a day and a conviction of 7 |
| Constraints.TradingConstraints.constructor | portfoliomanager/utils/constraints.py:13-29 | the limits are read from the config and the day's counter starts at 0 |
| Constraints.TradingConstraints.ValidateTrade | portfoliomanager/utils/constraints.py:31-98 | a trade is accepted exactly when the rule book allows it. Low conviction is rejected first, then a day at its limit. An accepted buy is affordable, keeps the cash reserve and stays within the position size. An accepted sell is of a held quantity, and inside the holding period only at the stop-loss. Any other action passes on conviction and the daily limit alone |
| Constraints.TradingConstraints.IncrementTradeCount | portfoliomanager/utils/constraints.py:100-102 | the day's counter grows by one |
| Constraints.TradingConstraints.ResetDailyCounter | portfoliomanager/utils/constraints.py:104-106 | the day's counter is 0 |
| DataUtils.NextWeekday | tradingagents/dataflows/utils.py:91-96 | the result is a weekday at the same time of day and at most two days later; a weekday is kept, Saturday moves two days and Sunday one |
| DataUtils.GetNextWeekday | tradingagents/dataflows/utils.py:86-96 | a result exists exactly when the date (a datetime or "%Y-%m-%d" text) parses, and it is that date's next weekday |
| DataUtils.NextWeekdayIsFirst | tradingagents/dataflows/utils.py:91-96 | every day skipped before the result is a weekend day, so the result is the first weekday on or after the date |
| DataUtils.MomentOf | tradingagents/dataflows/utils.py:88-89 | a datetime is used as it is; text gives a date exactly when it parses as "%Y-%m-%d", at midnight |
| Dates.Weekday | portfoliomanager/utils/scheduler.py:62 | `weekday()` lies in 0..6 |
| Dates.DaysSinceMidnight | portfoliomanager/portfolio_helpers.py:100-101 | the `.days` from a date's midnight to a later moment is the difference of their day numbers |
| Dates.ParseIsoDate | portfoliomanager/portfolio_helpers.py:144 | a parsed "%Y-%m-%d" text is a valid calendar date and has the shape of such a text |
| Dates.FormatIsoDate | portfoliomanager/analysis_handler.py:61 | `strftime("%Y-%m-%d")` gives ten characters |
| Dates.FormatParseRoundTrip | portfoliomanager/report_manager.py:172-173 | parsing a formatted valid date gives that date back |
| History.StrLeTotal | portfoliomanager/portfolio_helpers.py:168 | any two Python strings are ordered one way or the other |
| History.StrLeTrans | portfoliomanager/portfolio_helpers.py:168 | the string order is transitive |
| History.InsertDesc | portfoliomanager/portfolio_helpers.py:168 | inserting an element adds exactly that element to the multiset and one to the length |
| History.InsertDescSorted | portfoliomanager/portfolio_helpers.py:168 | inserting into a descending list keeps it descending, and adds only that element |
| History.SortDesc | portfoliomanager/portfolio_helpers.py:168 | `sort(key=..., reverse=True)` is a permutation of its input |
| History.SortDescSorted | portfoliomanager/portfolio_helpers.py:168 | the sorted keys are descending |
| History.SortDescSameMembers | portfoliomanager/portfolio_helpers.py:168 | an element is in the sorted list exactly when it is in the input |
| History.InsertDescDistinct | portfoliomanager/portfolio_helpers.py:168 | inserting an element with a new id keeps the ids distinct |
| History.SortDescDistinct | portfoliomanager/portfolio_helpers.py:168 | sorting keeps one entry per ticker when there was one before |
| History.FirstRecentDate | portfoliomanager/portfolio_helpers.py:139-157 | a folder that is found is a directory named as a valid date no earlier than the cutoff |
| History.FirstRecentDateMeans | portfoliomanager/portfolio_helpers.py:139-157 | no folder is found exactly when none qualifies; a found folder is the first one that qualifies, as the `break` makes it |
| History.RecentIsWithinThreshold | portfoliomanager/portfolio_helpers.py:88-150 | an accepted folder's `days_ago` is at most the threshold, and it is the day difference to its date |
| LlmFactory.DetectProvider | shared/llm_factory.py:105-143 | a truthy LLM_PROVIDER is returned lower-cased. Otherwise the markers are tried in order: an OpenAI marker gives "openai", then "claude" gives "anthropic", then a Google marker gives "google", then an Ollama marker gives "ollama", and a name with none of them gives "openai" |
| LlmFactory.ExplicitProviderIgnoresModel | shared/llm_factory.py:117-120 | with LLM_PROVIDER set, the model name does not matter |
| LlmFactory.GptOssIsOpenAI | shared/llm_factory.py:123-140 | a name containing "gpt-oss" is classified openai, so the "gpt-oss" entry of the Ollama list never decides |
| LlmFactory.GptOss20bIsOpenAI | shared/llm_factory.py:123-140 | "gpt-oss:20b" is classified openai |
| LlmFactory.CreateOpenAI | shared/llm_factory.py:146-173 | the OpenAI client is refused exactly when there is neither an OPENAI_API_KEY nor an api_key argument; it is given the model and the base URL if truthy |
| LlmFactory.GetLlm | shared/llm_factory.py:38-102 | the model defaults through LLM_MODEL and the provider through detection, lower-cased. Each of the five providers builds its own client with the model; openrouter uses the OpenAI client at its own endpoint; anything else is refused |
| LlmFactory.OpenRouterUsesOpenAI | shared/llm_factory.py:93-97 | openrouter with a key builds the OpenAI client at https://openrouter.ai/api/v1 unless a base URL is given |
| LlmFactory.PyOrFirstTruthy | shared/llm_factory.py:296-314 | an `or`-chain yields its first truthy operand |
| LlmFactory.PyOrAllFalsy | shared/llm_factory.py:296-314 | an `or`-chain of falsy operands yields its last one |
| LlmFactory.PyOrAllFalsyOrSome | shared/llm_factory.py:297-301 | a chain whose last operand is present yields something present, so a model is always passed |
| LlmFactory.BuildFromChoices | shared/llm_factory.py:296-379 | a helper calls `get_llm` with the first truthy model, provider and base URL of its chains |
| LlmFactory.QuickModelPreference | shared/llm_factory.py:297-301 | the quick model is the analysis config's entry, else the top-level entry, else LLM_MODEL |
| LlmFactory.ProviderPreference | shared/llm_factory.py:303-372 | every helper's provider is the top-level entry, else the analysis config's, else the environment's value |
| LlmFactory.UrlPreference | shared/llm_factory.py:308-377 | every helper's base URL is the top-level entry, else the analysis config's, else None |
| Nodes.PositionRoundTrip | portfoliomanager/graph_v2/nodes.py:163-173 | reshaping a broker position for the portfolio view and then for the state gives back its symbol, P/L fraction, quantity, market value and price: the x100 and the /100 cancel exactly |
| Nodes.FormatPositions | portfoliomanager/graph_v2/nodes.py:163-173 | one state entry per position, in order |
| Nodes.AssessPortfolioNode | portfoliomanager/graph_v2/nodes.py:33-192 | as written: whatever the clock, the bucket and the broker answer, the node ends in phase error with the ImportError's text for `get_alpaca_market_clock` and returns no snapshot |
| Nodes.AssessWithMarketClock | portfoliomanager/graph_v2/nodes.py:33-192 | corrected import: the phase is market_closed, error or assess. market_closed exactly when the clock answers closed; assess exactly when the market is open, the bucket is configured and the position listing succeeds. A failing clock, a missing bucket and a failed listing each give their own error text. Every non-assess outcome carries an error and an empty portfolio. An assessed snapshot holds the account, the positions reshaped twice, the listed open orders and the stored summary |
| Nodes.FirstRunAt | portfoliomanager/graph_v2/nodes.py:258 | the position found is the first "Run #<digit>" at or after the start, and None means there is none |
| Nodes.RunNumber | portfoliomanager/graph_v2/nodes.py:256-260 | no number exactly when no "Run #<digit>" occurs, and a number implies the text contains "Run #" |
| Nodes.DecisionRunCount | portfoliomanager/graph_v2/nodes.py:254-260 | a summary without "Run #" gives run 1 |
| Nodes.SummaryRunCount | portfoliomanager/graph_v2/nodes.py:503-509 | the summary's run count is at least 1, is 1 without "Run #", and otherwise is one more than the decision node's number |
| Nodes.RunNumberReadsBack | portfoliomanager/graph_v2/nodes.py:254-260 | a summary whose first "#" starts "Run #N" reads back as N; the decision node uses N and the summary node N+1 |
| Nodes.Offered | portfoliomanager/graph_v2/nodes.py:245 | the tools offered to the LLM end with the bracket-order tool |
| Nodes.FirstNamed | portfoliomanager/graph_v2/nodes.py:330-336 | no tool is found exactly when none carries the name; a found tool is offered and has that name |
| Nodes.TradeRecord | portfoliomanager/graph_v2/nodes.py:343-351 | a recorded trade has status "submitted" and at most 500 characters of the tool's result |
| Nodes.HandleCall | portfoliomanager/graph_v2/nodes.py:320-370 | a call naming no offered tool produces nothing; a call naming one produces exactly one ToolMessage; a trade is recorded only for the trade tool when the tool returned |
| Nodes.UnknownCallAddsNothing | portfoliomanager/graph_v2/nodes.py:330-336 | a call naming no offered tool adds no message and no trade |
| Nodes.OneMessagePerKnownCall | portfoliomanager/graph_v2/nodes.py:330-368 | the tool loop adds exactly one ToolMessage per call that names an offered tool, whether the tool returns or raises |
| Nodes.ReadIsNotAsWrittenTool | portfoliomanager/graph_v2/safe_trading_tools.py:24-47 | no allowed read tool is called 'place_bracket_order' |
| Nodes.AsWrittenToolNeverOffered | portfoliomanager/graph_v2/nodes.py:340 | no offered tool is named 'place_bracket_order' |
| Nodes.AsWrittenExecutedTrades | portfoliomanager/graph_v2/nodes.py:340-352 | as written, the node's trade list is always empty |
| Nodes.AsWrittenRecordsNothing | portfoliomanager/graph_v2/nodes.py:340-352 | when no offered tool has the filtered name, no call is ever recorded as a trade |
| Nodes.BracketToolIsOffered | portfoliomanager/graph_v2/nodes.py:245 | the first offered tool named 'place_buy_bracket_order' is the bracket-order tool |
| Nodes.CorrectedRecordsEveryOrder | portfoliomanager/graph_v2/nodes.py:340-352 | with the offered tool's name, one trade is recorded per bracket order the broker accepted |
| Nodes.RunToolCalls | portfoliomanager/graph_v2/nodes.py:320-370 | the loop over the tool calls produces exactly the ToolMessages and trades that the specification functions state for the given trade tool |
| Nodes.DecisionNode | portfoliomanager/graph_v2/nodes.py:226-397 | phase error returns error with no trades and no conversation, so the LLM is never asked; otherwise the phase is execute. A raising LLM gives an error, no trades and no conversation. Otherwise the conversation is the system prompt, the human prompt, the reply and one ToolMessage per known call. A failing final call reports its error and no trades; otherwise the trades recorded for the trade tool are kept |
| Nodes.MakeDecisionsNode | portfoliomanager/graph_v2/nodes.py:226-397 | as written: `executed_trades` is always empty, whatever the LLM calls; the phase, the error and the conversation are those of the decision loop |
| Nodes.CorrectedMakeDecisionsNode | portfoliomanager/graph_v2/nodes.py:226-397 | recording the offered bracket-order tool: without an LLM error, the trades are one per bracket order the broker accepted, in call order; the rest is as in the decision loop |
| Nodes.UpdateSummaryNode | portfoliomanager/graph_v2/nodes.py:402-578 | the phase is always complete. market_closed gives run count 0 and writes nothing. error gives run count 0 and the error summary, saved only when a bucket is configured. A missing bucket or a raising LLM writes nothing. Otherwise the reply is saved as the summary with the next run count |
| PortfolioGraph.ShouldTrade | portfoliomanager/graph_v2/portfolio_graph.py:99-106 | update_summary exactly when the phase is market_closed or error, make_decisions otherwise |
| PortfolioGraph.RouteOrder | portfoliomanager/graph_v2/portfolio_graph.py:109-122 | every route starts at the assessment and ends at the summary, which has no successor. It has at most three distinct nodes, each joined to the next by an edge, and includes the decisions exactly when the assessment ended neither closed nor in error |
| PortfolioGraph.InitialState | portfoliomanager/graph_v2/portfolio_graph.py:163-170 | the initial state has phase init, no messages, an empty last summary and no error |
| PortfolioGraph.RunNodes | portfoliomanager/graph_v2/portfolio_graph.py:109-175 | after the assessment the nodes run along the route and end in phase complete. After a closed market or a failed assessment the LLM is never asked, no trade is recorded and the decisions node is not visited. A closed market leaves the store untouched; a failed assessment saves the error summary exactly when a bucket is configured |
| PortfolioGraph.RunPortfolioIteration | portfoliomanager/graph_v2/portfolio_graph.py:109-175 | as written: every run goes from the assessment straight to the summary and ends complete with the import error, no conversation and no trade; the error summary is saved exactly when a bucket is configured |
| PortfolioGraph.RunCorrectedIteration | portfoliomanager/graph_v2/portfolio_graph.py:109-175 | with both nodes corrected: the run follows the route, and the decisions are visited exactly when the market is open, the bucket configured and the listing succeeds. After a closed market or an error there is no conversation and no trade; after a closed market the store is untouched. A decision round without an LLM error records one trade per accepted bracket order |
| Orchestrator.BuildMarketSearchQuery | portfoliomanager/orchestrator_manager.py:346-382 | the query is the position, order and opportunity clauses joined by " \| ", and always starts with the general-market clause |
| Orchestrator.DecideStocksToAnalyze | portfoliomanager/orchestrator_manager.py:453-471 | no reply, no '['...']' span or an undecodable span gives []. Otherwise the result is the upper-cased strings of the decoded list in order, cut to at most `max_analyses`, each one of the reply's strings |
| Orchestrator.CountedTradesBound | portfoliomanager/orchestrator_manager.py:486-527 | at most one trade is counted per reviewed ticker; without buying power above 1000 and without any position symbol, none is |
| Orchestrator.PyTail | portfoliomanager/orchestrator_manager.py:334 | Python's `s[-n:]` is a suffix of `s` of length min(n, \|s\|) for positive n; for n <= 0 it drops the first -n elements |
| Orchestrator.TruncateContextAsWritten | portfoliomanager/orchestrator_manager.py:317-336 | as written: a disabled truncation or a short enough list is returned as it is; the code fails only when it indexes an empty list |
| Orchestrator.TruncateAtOneGrows | portfoliomanager/orchestrator_manager.py:328-336 | as written, a limit of 1 returns the first message followed by the whole list, one message more than the input |
| Orchestrator.TruncateAtOneExample | portfoliomanager/orchestrator_manager.py:328-336 | three messages with a limit of 1 come back as four |
| Orchestrator.TruncateContext | portfoliomanager/orchestrator_manager.py:317-336 | corrected: a list over the limit comes back with exactly max(limit, 1) messages, the first message followed by a suffix of the input, never longer than the input |
| Orchestrator.TruncationAgreesFromTwo | portfoliomanager/orchestrator_manager.py:328-336 | for every limit of at least 2 the code as written equals the corrected truncation |
| Orchestrator.DecisionOfPrecedence | portfoliomanager/orchestrator_manager.py:616-627 | the decision is BUY exactly when the BUY marker occurs, then SELL, then HOLD, else UNKNOWN; the bold markers add nothing |
| Orchestrator.ScanDates | portfoliomanager/orchestrator_manager.py:604-637 | a found folder is an accepted date folder, with the decision its file yields |
| Orchestrator.ScanDatesTakesFirst | portfoliomanager/orchestrator_manager.py:604-637 | every folder before the one found is either not accepted or has a decision file that raises |
| Orchestrator.ScanDatesTakesFirstRecent | portfoliomanager/orchestrator_manager.py:604-637 | when every decision file reads, the scan takes the first accepted date folder, or none when none is accepted |
| Orchestrator.TickerEntry | portfoliomanager/orchestrator_manager.py:592-600 | an entry comes only from a ticker directory, and carries its name |
| Orchestrator.ScanEntries | portfoliomanager/orchestrator_manager.py:592-644 | at most one entry per listed directory, each from some directory of the listing |
| Orchestrator.ScanOnePerTicker | portfoliomanager/orchestrator_manager.py:592-644 | the scan yields at most one entry per ticker |
| Orchestrator.ScanWithinThreshold | portfoliomanager/orchestrator_manager.py:588-632 | every entry is no older than the threshold in days |
| Orchestrator.RecentSorted | portfoliomanager/orchestrator_manager.py:647 | the reply is sorted by date string, newest first |
| Orchestrator.RecentOnePerTicker | portfoliomanager/orchestrator_manager.py:592-647 | the sorted reply keeps one entry per ticker |
| Orchestrator.RecentWithinThreshold | portfoliomanager/orchestrator_manager.py:588-647 | every entry of the sorted reply is no older than the threshold |
| Orchestrator.FindRecentDate | portfoliomanager/orchestrator_manager.py:604-637 | the loop over one ticker's date folders, with its `break`, computes `ScanDates` |
| Orchestrator.OrchestratorPortfolioManager.constructor | portfoliomanager/orchestrator_manager.py:42-124 | the results directory, quota and search switch come from the config or their defaults; no analyses and no searches yet; the state is valid |
| Orchestrator.OrchestratorPortfolioManager.HandleAnalysisRequest | portfoliomanager/orchestrator_manager.py:205-281 | the orchestrator's copy of the tracking takes the same `Request` step as the analysis handler and stays consistent; reports are written only for a completed analysis |
| Orchestrator.OrchestratorPortfolioManager.HandleReadReport | portfoliomanager/orchestrator_manager.py:283-315 | reads answer as `ReadReportFrom` states; an unknown ticker gives "not analyzed" |
| Orchestrator.OrchestratorPortfolioManager.HandleAnalysisStatus | portfoliomanager/orchestrator_manager.py:338-344 | the count and the remaining quota; in a consistent state each analysed ticker once |
| Orchestrator.OrchestratorPortfolioManager.HandleWebSearch | portfoliomanager/orchestrator_manager.py:529-562 | the search counter takes exactly the `Search` step and never exceeds the quota |
| Orchestrator.OrchestratorPortfolioManager.ReviewTicker | portfoliomanager/orchestrator_manager.py:486-526 | the review of one ticker counts a trade exactly when `CountsTrade` holds |
| Orchestrator.OrchestratorPortfolioManager.ExecuteTradingDecisions | portfoliomanager/orchestrator_manager.py:473-527 | the loop counts exactly `CountedTrades` over the analysed tickers in analysis order, at most one per analysed stock; no order is sent |
| Orchestrator.OrchestratorPortfolioManager.HandleRecentlyAnalyzedStocks | portfoliomanager/orchestrator_manager.py:564-653 | the reply is the scan's entries sorted by date descending (none when the directory is missing); `total_count` is its length and the threshold is echoed |
| PortfolioHelpers.S3Entry | portfoliomanager/portfolio_helpers.py:95-111 | a key gives an entry exactly when its date list is non-empty and its first date parses; the entry has that ticker and date, source 'S3' and the day count from now |
| PortfolioHelpers.S3EntriesFromKeys | portfoliomanager/portfolio_helpers.py:95-111 | every S3 entry comes from one key of the history, and distinct keys give one entry per ticker |
| PortfolioHelpers.S3EntriesComplete | portfoliomanager/portfolio_helpers.py:95-111 | every key whose first date parses contributes its entry |
| PortfolioHelpers.LocalEntry | portfoliomanager/portfolio_helpers.py:123-157 | a directory contributes only when it is a ticker directory with a date folder on or after the cutoff, and then that first folder's date, its day count and source 'Local' |
| PortfolioHelpers.MergeLocalAppends | portfoliomanager/portfolio_helpers.py:119-159 | the local pass only appends; each addition is some directory's local entry; and it keeps one entry per ticker |
| PortfolioHelpers.MergeLocalComplete | portfoliomanager/portfolio_helpers.py:119-159 | every ticker directory with a recent folder ends up listed under its ticker; with distinct directory names, a ticker not listed before gets exactly its own directory's entry |
| PortfolioHelpers.LocalEntryRecent | portfoliomanager/portfolio_helpers.py:88-150 | a local entry is at most `days_threshold` days old |
| PortfolioHelpers.MergedHistoryShape | portfoliomanager/portfolio_helpers.py:93-168 | the merged history is sorted by date newest first and has one entry per ticker |
| PortfolioHelpers.MergedHistoryEntries | portfoliomanager/portfolio_helpers.py:93-168 | every merged entry is an S3 key's entry, or a ticker directory's local entry within the threshold |
| PortfolioHelpers.MergedHistoryHasS3Keys | portfoliomanager/portfolio_helpers.py:93-168 | every S3 key whose first date parses has its entry in the merged history |
| PortfolioHelpers.MergedHistoryHasLocalDirs | portfoliomanager/portfolio_helpers.py:93-168 | every ticker directory with a folder within the threshold is in the merged history under its ticker, and with its own entry when S3 has no parsable entry for that ticker |
| PortfolioHelpers.FailedS3LeavesLocal | portfoliomanager/portfolio_helpers.py:93-116 | when the S3 fetch raises, which it always does since the S3 client has no history method, only local entries remain, each from a ticker directory |
| PortfolioHelpers.PortfolioHelpers.constructor | portfoliomanager/portfolio_helpers.py:15-29 | a fresh helper has no searches used, one allowed, and searching enabled |
| PortfolioHelpers.PortfolioHelpers.SetWebSearchConfig | portfoliomanager/portfolio_helpers.py:31-40 | both settings are replaced and the count of searches used is kept |
| PortfolioHelpers.PortfolioHelpers.PerformWebSearch | portfoliomanager/portfolio_helpers.py:42-74 | the counter takes the `Search` step: it is unchanged or grows by one, and never passes the quota; a failing search still uses quota |
| PortfolioHelpers.PortfolioHelpers.GetRecentlyAnalyzedStocks | portfoliomanager/portfolio_helpers.py:76-177 | the reply is the merged history, with the threshold and a `total_count` equal to its length |
| PortfolioHelpers.CollectS3 | portfoliomanager/portfolio_helpers.py:95-111 | the S3 loop collects exactly `S3Entries` |
| PortfolioHelpers.FirstRecentFolder | portfoliomanager/portfolio_helpers.py:139-157 | the inner loop stops at exactly the first accepted date folder |
| PortfolioHelpers.ScanLocal | portfoliomanager/portfolio_helpers.py:123-159 | the outer loop computes exactly `MergeLocal` |
| PortfolioInterface.FirstCategory | portfoliomanager/dataflows/portfolio_interface.py:94-99 | no category exactly when none lists the method; otherwise the first category that lists it |
| PortfolioInterface.GetVendor | portfoliomanager/dataflows/portfolio_interface.py:102-114 | the vendor is always one of the configured vendors, namely "alpaca" |
| PortfolioInterface.RouteToVendor | portfoliomanager/dataflows/portfolio_interface.py:117-155 | a method outside the vendor table raises ValueError; a routed one runs Alpaca's implementation and returns its value, or re-raises its exception as a RuntimeError naming the method |
| PortfolioInterface.RoutedMethodsHaveCategory | portfoliomanager/dataflows/portfolio_interface.py:22-91 | every routed method is listed in some category and implemented by Alpaca, so the inner errors of `route_to_vendor` cannot happen |
| PortfolioInterface.RoutedCategories | portfoliomanager/dataflows/portfolio_interface.py:22-91 | the trade, cancel and account methods belong to their own categories |
| ReportManager.SkipSpaces | portfoliomanager/report_manager.py:53-63 | the `\s*` of the patterns: the result is the length of the leading spaces |
| ReportManager.FirstMatch | portfoliomanager/report_manager.py:53-65 | the position found is the first match at or after the start, and None means there is none |
| ReportManager.Search | portfoliomanager/report_manager.py:53-65 | `re.search`: no match exactly when none occurs anywhere; a match implies the label occurs; a digits capture is a non-empty digit string and a date capture has the date shape |
| ReportManager.CountOf | portfoliomanager/report_manager.py:53-60 | a positive count implies its label occurs |
| ReportManager.ExtractTrackingMetadata | portfoliomanager/report_manager.py:32-70 | an empty summary, or one saying "No previous iteration", gives 0, 0 and no start date; any positive count or start date comes from its own label, and a start date has the date shape |
| ReportManager.LabelLineFound | portfoliomanager/report_manager.py:53-65 | a label line written into a text with no earlier start of the label is found by the search, with its value captured |
| ReportManager.TotalRead | portfoliomanager/report_manager.py:53-55 | the header's Total Iterations reads back |
| ReportManager.DaysRead | portfoliomanager/report_manager.py:57-60 | the header's Days Operating reads back |
| ReportManager.FirstRead | portfoliomanager/report_manager.py:62-65 | the header's First Start Date reads back |
| ReportManager.NoPreviousOnlyInBody | portfoliomanager/report_manager.py:239-244 | the header never contains "No previous iteration", so only the body can |
| ReportManager.HeaderRoundTrip | portfoliomanager/report_manager.py:32-70 | round trip: extracting the metadata from a header followed by any body without "No previous iteration" recovers the header's iterations, days and start date |
| ReportManager.NextTracking | portfoliomanager/report_manager.py:167-179 | the next count is the previous one plus one. Without a previous start date the start is today and the days are 0. With one, the start is kept and the days are counted from it; the run fails exactly when that stored date does not parse |
| ReportManager.ContextPosition | portfoliomanager/report_manager.py:127-137 | a context position has the symbol, a value and the P/L as a percentage |
| ReportManager.ContextPositions | portfoliomanager/report_manager.py:127-137 | the context keeps the first 20 positions, in order |
| ReportManager.ContextOrder | portfoliomanager/report_manager.py:138-145 | a context order has all five of its fields |
| ReportManager.ContextOrders | portfoliomanager/report_manager.py:138-145 | the context keeps the first 10 orders, and none without an order list |
| ReportManager.AnalyzedDecisionLines | portfoliomanager/report_manager.py:332-337 | the basic summary lists at most one line per analysed stock |
| ReportManager.TradeShareLines | portfoliomanager/report_manager.py:341-349 | the basic summary lists at most one line per trade |
| ReportManager.GenerateIterationSummary | portfoliomanager/report_manager.py:96-250 | the summary fails exactly when the stored start date does not parse; otherwise it is the header plus the reply, or the basic summary when the LLM raises |
| ReportManager.SummaryCountsIterations | portfoliomanager/report_manager.py:167-179 | a summary written from the LLM reply reads back with one more iteration than the previous one, with the start date kept (or today with 0 days on the first run), and the days since the start |
| ReportManager.NoToOmitsTotal | portfoliomanager/report_manager.py:322-367 | a text with no "To" cannot contain "Total Iterations:" |
| ReportManager.BasicLinesNoTo | portfoliomanager/report_manager.py:322-367 | the basic summary's lines never contain "To" |
| ReportManager.FallbackRestartsCount | portfoliomanager/report_manager.py:322-367 | the fallback summary has no metadata header, so the next extraction restarts the count at 0 |
| ReportManager.Listing | portfoliomanager/report_manager.py:254-320 | a formatter shows its placeholder exactly when it has no lines, and otherwise its lines joined by newlines |
| ReportManager.AnalyzedLines | portfoliomanager/report_manager.py:252-264 | no lines exactly when no entry is a dictionary; every line is a "- " bullet |
| ReportManager.FormatAnalyzedStocks | portfoliomanager/report_manager.py:252-264 | "None this iteration" exactly when the input is missing or holds no dictionary entry |
| ReportManager.TradeLines | portfoliomanager/report_manager.py:266-281 | no lines exactly when no trade is a dictionary; every line is a bullet |
| ReportManager.FormatTrades | portfoliomanager/report_manager.py:266-281 | "No trades this iteration" exactly when the input is missing or holds no dictionary entry |
| ReportManager.InsertByValue | portfoliomanager/report_manager.py:288-292 | inserting a position adds exactly that position |
| ReportManager.InsertByValueSorted | portfoliomanager/report_manager.py:288-292 | inserting into a list sorted by market value keeps it sorted |
| ReportManager.SortByValue | portfoliomanager/report_manager.py:288-292 | the sort by market value is a permutation |
| ReportManager.SortByValueSorted | portfoliomanager/report_manager.py:288-292 | the sort leaves market values descending |
| ReportManager.TopPositions | portfoliomanager/report_manager.py:288-292 | the top positions are min(10, n) of the input's positions |
| ReportManager.TopPositionsAreLargest | portfoliomanager/report_manager.py:288-292 | the top list is sorted, and every position left out is worth no more than any position kept |
| ReportManager.PositionLines | portfoliomanager/report_manager.py:293-303 | at most one line per row; no lines exactly when no row is a dictionary; every line is a bullet |
| ReportManager.FormatPositions | portfoliomanager/report_manager.py:283-303 | "No positions" for missing or empty input; otherwise at most 10 lines, and the placeholder exactly when none of them is a dictionary |
| ReportManager.OrderLines | portfoliomanager/report_manager.py:305-320 | no lines exactly when no row is a dictionary; every line is a bullet |
| ReportManager.FormatOrders | portfoliomanager/report_manager.py:305-320 | "No pending orders" exactly when the input is missing or holds no dictionary entry |
| ReportManager.ContextOrderShowsNone | portfoliomanager/report_manager.py:312-317 | a context order without a limit price is shown "@ $None", because the key is present with the value None |
| S3Client.SummaryKeyIsLatestOnlyForLatest | portfoliomanager/dataflows/s3_client.py:142-178 | an iteration's summary key is the latest summary's key exactly when the iteration id is "latest" |
| S3Client.KeysAreApart | portfoliomanager/dataflows/s3_client.py:80-200 | report and log keys never hit the latest summary or the position history, and a summary key never hits the position history |
| S3Client.ReportKeyIsListed | portfoliomanager/dataflows/s3_client.py:80-249 | every report key lies under its ticker's listing prefix and under the prefix of all reports |
| S3Client.MarkdownUploadKeys | portfoliomanager/dataflows/s3_client.py:79-86 | the uploads are exactly the report keys of the directory's files whose names end in ".md", hidden names included, as `Path.glob` matches them |
| S3Client.UploadsAreUnderTicker | portfoliomanager/dataflows/s3_client.py:74-95 | every object written by an upload of reports is found by `list_reports` for that ticker, and is neither the latest summary nor the position history |
| S3Client.WellKeptUnion | portfoliomanager/dataflows/s3_client.py:60-132 | writing at keys other than the latest summary and the position history keeps those two objects holding the kind of body the manager reads |
| S3Client.S3ReportManager.constructor | portfoliomanager/dataflows/s3_client.py:19-39 | the manager keeps its bucket name and region over the objects already there |
| S3Client.S3ReportManager.UploadReports | portfoliomanager/dataflows/s3_client.py:60-102 | True exactly when the reports directory exists. A missing directory writes nothing. Otherwise every markdown file, then the sibling index.html, is added under its report key |
| S3Client.S3ReportManager.PutMarkdown | portfoliomanager/dataflows/s3_client.py:79-86 | the loop adds exactly the markdown uploads |
| S3Client.S3ReportManager.UploadLog | portfoliomanager/dataflows/s3_client.py:104-132 | True exactly when the log file exists; a missing file writes nothing; otherwise the log is stored under `logs/{iteration_id}/message_tool.log` |
| S3Client.S3ReportManager.GetLastSummary | portfoliomanager/dataflows/s3_client.py:134-155 | None exactly when the read fails or there is no latest summary; otherwise the stored latest summary |
| S3Client.S3ReportManager.SaveSummary | portfoliomanager/dataflows/s3_client.py:157-190 | True exactly when both puts succeed. A failing first put writes nothing; a failing second put writes only the iteration's copy. After a success the latest summary reads back as the one saved; after a failure it is the previous one |
| S3Client.S3ReportManager.GetPositionHistory | portfoliomanager/dataflows/s3_client.py:192-213 | {} when the read fails or no history is stored; otherwise the stored dictionary |
| S3Client.S3ReportManager.SavePositionHistory | portfoliomanager/dataflows/s3_client.py:215-236 | True exactly when the put succeeds, and then the history reads back as saved; a failure writes nothing; the latest summary is untouched |
| S3Client.S3ReportManager.ListReports | portfoliomanager/dataflows/s3_client.py:238-262 | the listing is exactly the stored keys under the prefix, or none when the listing fails |
| S3Client.TickerListingIsPartOfAll | portfoliomanager/dataflows/s3_client.py:249 | a ticker's reports are among all reports |
| SafeTools.AllowedNamesAreReads | portfoliomanager/graph_v2/safe_trading_tools.py:24-47 | every allowed name starts with "get_" and the write tool is not among them |
| SafeTools.FilterSafeTools | portfoliomanager/graph_v2/safe_trading_tools.py:50-73 | the result is exactly the allowed tools of the input, in input order |
| SafeTools.GetSafeTradingTools | portfoliomanager/graph_v2/safe_trading_tools.py:343-374 | the filtered read tools followed by exactly one tool, the bracket-order write tool, which comes last |
| SafeTools.ValidateBracket | portfoliomanager/graph_v2/safe_trading_tools.py:164-235 | a request passes exactly when all the rules hold: a whole positive quantity, positive stop-loss and take-profit, extended hours only as a day limit order with a price, a limit type with a price, and a truthy limit strictly between stop and target. A missing or non-positive quantity is the first rejection |
| SafeTools.TimeInForceOf | portfoliomanager/graph_v2/safe_trading_tools.py:249-255 | "gtc", "ioc" and "fok" in any case select their own time in force; anything else is day |
| SafeTools.PlaceBuyBracketOrder | portfoliomanager/graph_v2/safe_trading_tools.py:79-338 | rejected exactly when validation fails. A submitted order is always a BUY of the whole positive quantity with positive stop and target, a non-zero limit lies strictly between them, and extended hours means a day limit order. Nothing is submitted unless the broker accepts |
| Scheduler.ParseTime | portfoliomanager/utils/scheduler.py:34-48 | a parsed "HH:MM" text has exactly one colon and gives an hour below 24 and a minute below 60 |
| Scheduler.FormatTime | portfoliomanager/utils/scheduler.py:106 | a time is written as five characters with the colon in the middle |
| Scheduler.FormatParseRoundTrip | portfoliomanager/utils/scheduler.py:34-48 | parsing a formatted valid time gives that time back |
| Scheduler.Insert | portfoliomanager/utils/scheduler.py:48 | insertion adds one element, and the head is the new time or the old head |
| Scheduler.InsertPermutes | portfoliomanager/utils/scheduler.py:48 | insertion adds exactly that time |
| Scheduler.InsertKeepsAscending | portfoliomanager/utils/scheduler.py:48 | inserting into an ascending list keeps it ascending |
| Scheduler.SortTimes | portfoliomanager/utils/scheduler.py:48 | sorting keeps the length |
| Scheduler.SortTimesSorts | portfoliomanager/utils/scheduler.py:48 | the sorted times are ascending and a permutation of the input |
| Scheduler.SortedTimesAreValid | portfoliomanager/utils/scheduler.py:48 | sorting valid times yields valid times |
| Scheduler.ParsedAll | portfoliomanager/utils/scheduler.py:44-47 | the parse fails exactly when one of the texts fails; otherwise every text's time, in order |
| Scheduler.ParseTimes | portfoliomanager/utils/scheduler.py:34-48 | the loop returns the sorted parsed times, or fails when any text fails |
| Scheduler.AnyWithinMinute | portfoliomanager/utils/scheduler.py:86-96 | true exactly when some scheduled time lies less than 60 seconds from now |
| Scheduler.ShouldRunNow | portfoliomanager/utils/scheduler.py:50-96 | true exactly on a weekday, when the last run was not today, and when some scheduled time is within the minute; so never on weekends or twice on one day |
| Scheduler.TradingScheduler.constructor | portfoliomanager/utils/scheduler.py:19-48 | the schedule holds the sorted times and there is no last run yet |
| Scheduler.TradingScheduler.Poll | portfoliomanager/utils/scheduler.py:117-140 | a poll triggers exactly when `ShouldRunNow` holds; the last run date moves to today only when the run returns normally |
| Scheduler.TradingScheduler.RunScheduled | portfoliomanager/utils/scheduler.py:98-146 | at most one success per poll; the last run date is the day of the last success, or unchanged; under a clock that never goes back the successes fall on strictly increasing days, so at most one a day, and the first differs from the old last run |
| Scheduler.TradingScheduler.RunOnce | portfoliomanager/utils/scheduler.py:148-171 | a manual run completes exactly when it does not raise, and never changes the last run date |
| Scheduler.NewScheduler | portfoliomanager/utils/scheduler.py:19-48 | construction fails exactly when some time text does not parse; otherwise a fresh valid scheduler over the sorted times with no last run |
| StockScreener.ScreenOpportunities | portfoliomanager/agents/stock_screener.py:24-91 | the picks are at most `max_picks`, duplicate-free, from the candidate pool and not held (None counts as none held); when fewer than `max_picks` are returned, every unheld candidate is among them |
| StockScreener.DedupedPoolIsPoolOrder | portfoliomanager/agents/stock_screener.py:86 | the pool with duplicates removed is one of the orders the set conversion may give |
| StockSelector.BuildMarketSearchQuery | portfoliomanager/stock_selector.py:28-65 | the query has the orchestrator's shape with the selector's opportunity clause, and always starts with the general-market clause |
| StockSelector.TickersWithinSnoc | portfoliomanager/stock_selector.py:246-257 | one more history entry adds its ticker to the set exactly when it is fresh enough |
| StockSelector.BuildExclusionList | portfoliomanager/stock_selector.py:236-257 | the loop builds the tickers under 3 days old as the exclusion set and those under 14 days old as the recent set, and the first is contained in the second |
| StockSelector.ExcludedMeans | portfoliomanager/stock_selector.py:246-257 | a ticker is excluded exactly when some entry for it is under 3 days old |
| StockSelector.NotExcluded | portfoliomanager/stock_selector.py:111-144 | the filter keeps, in order, exactly the selected stocks that are not excluded |
| StockSelector.RetryNeededMeans | portfoliomanager/stock_selector.py:114-132 | the retry is asked for exactly when the first selection decoded to a non-empty list and every ticker in it was excluded |
| StockSelector.DecideStocksToAnalyze | portfoliomanager/stock_selector.py:67-176 | the result never holds an excluded ticker and has at most `max_analyses` elements. An unparsable first reply gives []. Without a retry it is the filtered first choice; with one it is the filtered retry choice, or [] when the retry does not parse |
| StockSelector.SelectionComesFromReplies | portfoliomanager/stock_selector.py:100-162 | every returned ticker is the upper case of a string in one of the two replies |
| StockSelector.GroupByFreshness | portfoliomanager/stock_selector.py:296-314 | the loop puts into each of the three lists exactly that bucket's entries in history order, and together they hold the history |
| StockSelector.BucketCount | portfoliomanager/stock_selector.py:309-314 | a bucket holds an entry as often as the history does when the entry belongs to it, and never otherwise |
| StockSelector.BucketsCover | portfoliomanager/stock_selector.py:301-314 | the three buckets together hold each entry exactly as often as the history does |
| StockSelector.BucketsPartition | portfoliomanager/stock_selector.py:301-314 | an entry appears in its own bucket (at most 2 days, at most 6, older) and in no other |
| StockSelector.WordLength | portfoliomanager/stock_selector.py:425 | the length of the leading run of word characters |
| StockSelector.FindTickerWords | portfoliomanager/stock_selector.py:425-433 | `re.findall(r'\b[A-Z]{2,5}\b')` yields only words of two to five capital letters |
| StockSelector.FoundWordsAreWholeWords | portfoliomanager/stock_selector.py:425 | every word found stands in the text between word boundaries |
| StockSelector.WholeWordsAreFound | portfoliomanager/stock_selector.py:425 | every ticker-shaped word between word boundaries is found |
| StockSelector.PotentialTickers | portfoliomanager/stock_selector.py:424-433 | at most 20 distinct ticker words of the first 3000 characters, none a common word; when fewer than 20, every such word is there |
| StockSelector.RetryTickers | portfoliomanager/stock_selector.py:186-198 | at most 15 distinct ticker words of the first 2000 characters, none common and none excluded; when fewer than 15, every such word is there |
| Watchlist.RemoveFirst | portfoliomanager/agents/watchlist_manager.py:48-49 | `list.remove`: a present ticker loses one occurrence and nothing else changes; an absent one leaves the list equal; a duplicate-free list stays so, without the ticker |
| Watchlist.RemoveFirstAt | portfoliomanager/agents/watchlist_manager.py:48-49 | removal deletes exactly the first position holding the ticker |
| Watchlist.WatchlistManager.constructor | portfoliomanager/agents/watchlist_manager.py:13-20 | the list holds each initial ticker once |
| Watchlist.WatchlistManager.GetWatchlist | portfoliomanager/agents/watchlist_manager.py:22-29 | the tickers, duplicate-free, as a value the caller cannot change the manager through |
| Watchlist.WatchlistManager.AddTicker | portfoliomanager/agents/watchlist_manager.py:31-39 | the ticker is appended only when absent; afterwards it is present and the list stays duplicate-free |
| Watchlist.WatchlistManager.RemoveTicker | portfoliomanager/agents/watchlist_manager.py:41-49 | the ticker is removed when present and afterwards absent; every other ticker keeps its membership |
| Watchlist.WatchlistManager.FilterExisting | portfoliomanager/agents/watchlist_manager.py:51-61 | exactly the watchlist tickers not held, in watchlist order, without duplicates |
| WebSearch.PositionTickers | portfoliomanager/orchestrator_manager.py:365-368 | the symbols of the first three positions, "" for a missing one |
| WebSearch.OrderTickers | portfoliomanager/orchestrator_manager.py:371-374 | the distinct symbols of the first two open orders, at least one when there are orders |
| WebSearch.QueryParts | portfoliomanager/orchestrator_manager.py:358-382 | the general clause first, then the positions clause when there are positions, the orders clause when there are orders, and the opportunity clause exactly when there are fewer than 5 positions |
| WebSearch.QueryStartsWithGeneral | portfoliomanager/orchestrator_manager.py:358-382 | whatever the portfolio, the query opens with the general-market clause |
| WebSearch.Search | portfoliomanager/orchestrator_manager.py:539-562 | a disabled search and a search over the quota change nothing; otherwise the counter moves before the search, and the reply is the search's results or its error |
| WebSearch.SearchesBounded | portfoliomanager/portfolio_helpers.py:52-74 | however many searches are asked for, the counter never passes the quota, and a disabled search never moves it |
| TradingExecutor.ParseToolName | portfoliomanager/trading_executor.py:294-342 | the parsed tool names back the text it was parsed from, and it is unknown exactly when the text is none of the handled names |
| TradingExecutor.ParseNameText | portfoliomanager/trading_executor.py:294-342 | naming a tool and parsing the name gives the tool back |
| TradingExecutor.FirstOrderForMeans | portfoliomanager/trading_executor.py:371-373 | the order found is the first open order with the symbol, and none means no open order has it |
| TradingExecutor.FirstPositionForMeans | portfoliomanager/trading_executor.py:430-433 | the position found is the first with the symbol, and none means no position has it |
| TradingExecutor.FirstOrderWithIdPrefixMeans | portfoliomanager/trading_executor.py:515-520 | the order found is the first whose id agrees with the given id on the first 8 characters, and none means no order does |
| TradingExecutor.WholeShares | portfoliomanager/trading_executor.py:389-394 | the floor of value/price shares costs at most the value and less than one more share |
| TradingExecutor.BuyOrder | portfoliomanager/trading_executor.py:344-419 | a buy always replies, and any trade it records is a BUY |
| TradingExecutor.BuyOrderContract | portfoliomanager/trading_executor.py:353-406 | refusals in order: a non-number value, a value above the cash, a value below 1000, an open order for the symbol; a trade is recorded exactly when the buy is placed, for the symbol and reasoning asked, at the latest price > 0, of a whole number >= 1 of shares whose cost is at most the value and more than the value less one share, with the broker's order id |
| TradingExecutor.SellOrder | portfoliomanager/trading_executor.py:421-482 | the handler raises exactly for a held symbol with a quantity `float` cannot read; any trade it records is a SELL |
| TradingExecutor.SellOrderContract | portfoliomanager/trading_executor.py:430-470 | no position for the symbol is refused first; a trade is recorded exactly when the sell is placed, for the symbol and reasoning asked and a positive quantity at most the held one; "all" sells exactly the held quantity, a number sells that number |
| TradingExecutor.CancelOrder | portfoliomanager/trading_executor.py:484-506 | a cancel records no trade and never raises; it replies cancelled exactly when an open order has the symbol, for the first such order, whatever the broker answered, and "no pending order" exactly when there is none |
| TradingExecutor.ModifyOrder | portfoliomanager/trading_executor.py:508-539 | a modify records no trade and never raises; "order id required" comes exactly for an empty id; a successful modify is of the first order whose id matches on 8 characters, and "not found" comes exactly for a non-empty id no order matches |
| TradingExecutor.Dispatch | portfoliomanager/trading_executor.py:294-342 | only buy and sell calls record trades; a handler raises exactly as `Raises` states, that is a held sell with an unreadable quantity or a positions listing that failed; review_and_decide ends the phase with no trade; an unknown name is echoed and changes nothing |
| TradingExecutor.FirstStop | portfoliomanager/trading_executor.py:73-96 | the call that ends the phase is the first call that does so, and None means no call does |
| TradingExecutor.TradesBounded | portfoliomanager/trading_executor.py:395-470 | at most one trade per buy or sell call, and so no more trades than calls |
| TradingExecutor.InvocationsBounded | portfoliomanager/trading_executor.py:57-59 | the rounds run from iteration i number at most 20 - i, and at most the LLM replies left |
| TradingExecutor.OnlyLastRoundStops | portfoliomanager/trading_executor.py:73-96 | every round but the last had tool calls, handled all of them, and none of them ended the phase |
| TradingExecutor.NothingAfterDone | portfoliomanager/trading_executor.py:73-96 | across the phase, only the very last handled call can end it, so no call after a review_and_decide runs |
| TradingExecutor.SnapshotCashAllowsOverspend | portfoliomanager/trading_executor.py:359-362 | every buy is checked against the same cash figure, so two buys in one phase can together cost more than the cash |
| TradingExecutor.Executor.constructor | portfoliomanager/trading_executor.py:14-28 | a new executor has recorded no trades |
| TradingExecutor.Executor.HandleToolCall | portfoliomanager/trading_executor.py:294-342 | one call is handled as `Dispatch` states and appends exactly its own trade, if any |
| TradingExecutor.Executor.HandleResponse | portfoliomanager/trading_executor.py:75-92 | the calls of one response are handled up to and including the first that ends the phase, which stops the loop exactly when there is one; the trades appended and the replies are exactly those of the handled calls |
| TradingExecutor.Executor.Invoke | portfoliomanager/trading_executor.py:61-96 | one LLM round adds the LLM's message and the answers of its handled calls, appends their trades, and ends the phase exactly when `Ends` says |
| TradingExecutor.Executor.Iterate | portfoliomanager/trading_executor.py:59-96 | one loop iteration adds one round; the messages and the trades stay exactly those of the rounds done, and the rounds done are all the rounds once the phase ends |
| TradingExecutor.Executor.MakeTradingDecisions | portfoliomanager/trading_executor.py:30-103 | the LLM is invoked at most 20 times; the trades appended and the conversation are exactly those of the rounds run |
| TradingExecutor.Executor.TradesExecuted | portfoliomanager/trading_executor.py:581-583 | `get_trades_executed` returns the recorded trades |
| StockPromptTemplate.SumBounds | portfoliomanager/graph_v2/stock_prompt_template.py:402 | a sum of n values each between lo and hi lies between n·lo and n·hi |
| StockPromptTemplate.SumOfNonNegatives | portfoliomanager/graph_v2/stock_prompt_template.py:447-448 | a sum of non-negative values is non-negative, and zero exactly when every value is zero |
| StockPromptTemplate.Multiplier | portfoliomanager/graph_v2/stock_prompt_template.py:399 | the smoothing factor 2/(period+1) lies in (0, 1] |
| StockPromptTemplate.Ema | portfoliomanager/graph_v2/stock_prompt_template.py:393-410 | empty when there are fewer prices than the period, otherwise one value per price from the period-th on |
| StockPromptTemplate.CalculateEma | portfoliomanager/graph_v2/stock_prompt_template.py:393-410 | the loop that appends one smoothed value per price computes exactly `Ema` |
| StockPromptTemplate.EmaStartsAtMean | portfoliomanager/graph_v2/stock_prompt_template.py:401-403 | the first value is the simple mean of the first `period` prices |
| StockPromptTemplate.EmaStepBounded | portfoliomanager/graph_v2/stock_prompt_template.py:406-407 | a smoothing step from a value and a price both in [lo, hi] stays in [lo, hi] |
| StockPromptTemplate.MeanBounded | portfoliomanager/graph_v2/stock_prompt_template.py:402 | the mean of values in [lo, hi] lies in [lo, hi] |
| StockPromptTemplate.EmaBounded | portfoliomanager/graph_v2/stock_prompt_template.py:393-410 | when every price lies in [lo, hi], so does every moving-average value |
| StockPromptTemplate.Macd | portfoliomanager/graph_v2/stock_prompt_template.py:413-430 | the MACD line has one value per slow average value: empty under `slow` prices, otherwise one per price from the slow-th on |
| StockPromptTemplate.MacdBounded | portfoliomanager/graph_v2/stock_prompt_template.py:413-430 | every MACD value, a difference of two averages of prices in [lo, hi], lies in [lo - hi, hi - lo] |
| StockPromptTemplate.Changes | portfoliomanager/graph_v2/stock_prompt_template.py:442 | one change per consecutive pair of prices, each the later price less the earlier |
| StockPromptTemplate.Gains | portfoliomanager/graph_v2/stock_prompt_template.py:446 | the gains are non-negative and at least the change they come from |
| StockPromptTemplate.Losses | portfoliomanager/graph_v2/stock_prompt_template.py:447 | the losses are non-negative, and zero exactly where the change is not negative |
| StockPromptTemplate.AvgGain | portfoliomanager/graph_v2/stock_prompt_template.py:449 | the average gain is non-negative |
| StockPromptTemplate.AvgLoss | portfoliomanager/graph_v2/stock_prompt_template.py:450 | the average loss is non-negative |
| StockPromptTemplate.RsiRange | portfoliomanager/graph_v2/stock_prompt_template.py:452-456 | the RSI of a window lies in [0, 100], and is 100 exactly when the window has no loss |
| StockPromptTemplate.RsiUpToAt | portfoliomanager/graph_v2/stock_prompt_template.py:444-458 | the j-th value of the series is the RSI of the window of `period` changes starting at j |
| StockPromptTemplate.Rsi | portfoliomanager/graph_v2/stock_prompt_template.py:433-459 | empty under period + 1 prices, otherwise one value per window, as many as the prices less the period |
| StockPromptTemplate.RsiSeriesRange | portfoliomanager/graph_v2/stock_prompt_template.py:433-459 | every value of the series is the RSI of its window, lies in [0, 100], and is 100 exactly when its window has no loss |
| StockPromptTemplate.RsiLoop | portfoliomanager/graph_v2/stock_prompt_template.py:444-458 | the loop over the windows appends exactly the values of `RsiUpTo` |
| StockPromptTemplate.NextRsi | portfoliomanager/graph_v2/stock_prompt_template.py:444-458 | one loop step appends the RSI of the next window |
| StockPromptTemplate.CalculateRsi | portfoliomanager/graph_v2/stock_prompt_template.py:433-459 | `calculate_rsi` computes exactly the series `Rsi` |
| StockPromptTemplate.TrueRange | portfoliomanager/graph_v2/stock_prompt_template.py:474-477 | the true range is the largest of high - low and the distances from the high and from the low to the previous close, and is never negative |
| StockPromptTemplate.TrueRanges | portfoliomanager/graph_v2/stock_prompt_template.py:473-478 | one true range per day after the first, each from that day's high and low and the previous close |
| StockPromptTemplate.CalculateAtr | portfoliomanager/graph_v2/stock_prompt_template.py:462-485 | 0 under period + 1 highs; otherwise the mean of the last `period` true ranges; never negative |
| StockPromptTemplate.TotalReturnPct | portfoliomanager/graph_v2/stock_prompt_template.py:86-87 | 0 when the base equity is not positive or `last_equity` is missing; positive exactly when the base is positive and the portfolio value exceeds it |
| StockPromptTemplate.AssessedTotalReturnPct | portfoliomanager/graph_v2/stock_prompt_template.py:79-87 | the account the assessment stores, reshaped without `last_equity`, always shows a total return of 0 |

## Left out

- Prompt text: `get_prompt_text` of the constraints, `_build_trading_prompt` and the position and order text of the executor, the prose of `_build_selection_prompt` and `_build_retry_prompt`, the prompt builders of the trading prompt, and the summary prompt of `update_summary_node`. These are prose handed to an LLM.
- LLM calls, web searches, broker calls, latest-trade prices, `json.loads`, the S3 client and the TradingAgents analysis: each is a parameter of the member that uses it (a reply, a `Fetch` result, an outcome, a decode function). What these services do is not part of this model.
- Logging, console output, directory creation, report files written to disk, HTML report generation and the `reasoning` argument that is only logged have no effect on the modelled state.
- Floating point: money, prices, quantities and percentages are `real`, so rounding and `round(…, 2)` are not modelled. The f-string number formatting of the report manager is a `render` parameter.
- Time: the clock, `pytz` time zones, `sleep` and the `executed_at` timestamps are parameters. The scheduler's two clock reads in one poll are one `now`, and its endless loop is a finite sequence of polls. `KeyboardInterrupt` is not modelled.
- Python's `set` iteration order: the screener's pool, the watchlist's initial deduplication and the orchestrator's ticker list use first-occurrence order. `StockScreener.DedupedPoolIsPoolOrder` shows that this order is one that the set conversion may give.
- Scheduler.ParseTime: accepts only ASCII digits around the colon, while Python's `int` also accepts surrounding spaces, a sign and underscores.
- Dates.ParseIsoDate: accepts only zero-padded `YYYY-MM-DD`, while `strptime` also accepts unpadded months and days.
- Regular expressions and case: `\w`, `\s` and `\d` are the ASCII classes, and `int()` reads ASCII digits only, while Python also accepts other Unicode digits. `.upper()` and `.lower()` change ASCII letters only.
- StockPromptTemplate.Ema: requires a period of at least 1, so the `ZeroDivisionError` that `calculate_ema` raises for period 0 is not modelled. The same holds for `Multiplier`, `CalculateEma`, `Rsi`, `CalculateRsi` and `CalculateAtr`.
- StockPromptTemplate.Macd: requires `1 <= fast <= slow`. For a fast period above the slow one, Python's negative-offset indexing is not modelled.
- StockPromptTemplate.CalculateAtr: requires the lows and closes to be as long as the highs need, where the source would raise `IndexError`. The `len(true_ranges) < period` fallback is unreachable after the length guard and is not modelled.
- Nodes: the `strptime` of the iteration id and the `KeyError` in the assessment's log lines are not modelled. The run counter restarting when the error summary replaces a lost one is stated for the basic summary (`ReportManager.FallbackRestartsCount`) but not proved through the error path of `update_summary_node`.
- S3Client: failures of the constructor and of `_ensure_bucket_exists` are not modelled. Exceptions other than `ClientError` are not modelled either. The 1000-key page limit of `list_objects_v2` and its key order are not modelled, because a listing is a set of keys. An `upload_file` that fails midway through `upload_reports` is not modelled.
- S3Client.WellKeptUnion: only covers buckets whose keys under the manager's prefixes were all written by the manager.
- AlpacaPortfolio: `cancel_alpaca_order` and `modify_alpaca_order` are thin broker calls and are not modelled. The differing key names of the open-order and all-order listings are folded into one order record.
- LlmFactory: `get_llm_from_config` is not modelled. The provider classes' constructors are external, so a built model is a record of (provider, model, base URL).
- Orchestrator: `run_iteration`, `upload_to_s3` and `generate_iteration_summary` are LLM and storage plumbing around modelled members, so they are not modelled. The prompt and LLM call of `_decide_stocks_to_analyze` are parameters, and only its reply parsing is modelled.
- StockPromptTemplate.AssessedTotalReturnPct: records that the assessed account has no `last_equity`, so the return shown is always 0. This is stated as a fact about the model rather than as a finding, because the field may be meant to be added later.
- TradingExecutor.SnapshotCashAllowsOverspend: the cash guard reads the snapshot taken before the phase, so buys in one phase are not checked against the cash already spent. Whether the broker then refuses the order is outside this model.

## Findings

| source | as written | input that shows it | evidently intended | confidence | as-written member | corrected member |
|---|---|---|---|---|---|---|
| portfoliomanager/orchestrator_manager.py:328-337 | `_truncate_context` keeps the first message plus `messages[-(limit - 1):]`; for limit 1 that slice is `messages[-0:]`, the whole list | 3 messages, limit 1: 4 messages come back, more than before | the first message plus the last `limit - 1` messages, never more than the limit | not executed | Orchestrator.TruncateAtOneGrows | Orchestrator.TruncationAgreesFromTwo |
| portfoliomanager/graph_v2/nodes.py:340-352 | `executed_trades` keeps only the tool calls named `place_bracket_order`, but the only bracket tool offered is `place_buy_bracket_order` | any run in which the LLM places an accepted bracket order: `executed_trades` stays empty | record every bracket order the LLM placed | not executed | Nodes.MakeDecisionsNode | Nodes.CorrectedMakeDecisionsNode |
| portfoliomanager/graph_v2/nodes.py:61-66 | `assess_portfolio_node` imports `get_alpaca_market_clock` from `alpaca_portfolio`, which defines no such function; the ImportError reaches the outer handler | any iteration, with the market open and the broker reachable: the phase is error and the run goes straight to the summary | read the clock through the broker layer's `get_market_clock` and assess the portfolio | not executed | Nodes.AssessPortfolioNode | Nodes.AssessWithMarketClock |

The portfolio graph is modelled both ways. `PortfolioGraph.RunPortfolioIteration` runs the nodes as written, so it always ends at the import error. `PortfolioGraph.RunCorrectedIteration` runs the corrected assessment and the corrected decisions.
