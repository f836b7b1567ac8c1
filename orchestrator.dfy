/**
 * `OrchestratorPortfolioManager`: the single-pass orchestrator's own copy of
 * the analysis quota, its one web search, the stock-selection reply parsing,
 * the review of finished analyses, the context truncation and the scan of
 * the results directory for recent analyses.
 */
module Orchestrator {
  import opened Common
  import opened Dates
  import opened History
  import opened AnalysisHandler
  import opened WebSearch

  // ---------------------------------------------------------------------
  // Construction

  /** The configuration keys the orchestrator reads; None is a missing key. */
  datatype OrchestratorConfig = OrchestratorConfig(
    resultsDir: Option<string>,
    maxStocksToAnalyze: Option<int>,
    enableWebSearch: Option<bool>)

  const DefaultResultsDir: string := "./results"

  /** The single-pass workflow allows one web search. */
  const MaxWebSearches: int := 1

  // ---------------------------------------------------------------------
  // The search query

  /** `_build_market_search_query`; the recent analysis it is given is not used. */
  function BuildMarketSearchQuery(positions: seq<Option<string>>, orders: seq<Option<string>>): (q: string)
    ensures q == Join(QueryParts(positions, orders, OrchestratorOpportunities), " | ")
    ensures StartsWith(q, GeneralClause)
  {
    QueryStartsWithGeneral(positions, orders, OrchestratorOpportunities);
    BuildQuery(positions, orders, OrchestratorOpportunities)
  }

  // ---------------------------------------------------------------------
  // Parsing the selection reply

  /** `s` is a string element of the decoded reply. */
  predicate SelectedFrom(reply: Option<string>, decode: string -> Option<seq<JsonItem>>, s: string) {
    ParsedItems(reply, decode).Some? && JsonString(s) in ParsedItems(reply, decode).value
  }

  /**
   * The parsing half of `_decide_stocks_to_analyze`: the string elements of
   * the decoded list, upper-cased, in order, cut to `max_analyses` by the
   * Python slice `[:max_analyses]`; [] when there is no span or anything raises.
   */
  function DecideStocksToAnalyze(reply: Option<string>, decode: string -> Option<seq<JsonItem>>, maxAnalyses: int)
    : (r: seq<string>)
    ensures reply.None? ==> r == []
    ensures reply.Some? && BracketSpan(reply.value).None? ==> r == []
    ensures ParsedItems(reply, decode).None? ==> r == []
    ensures maxAnalyses >= 0 ==> |r| <= maxAnalyses
    ensures ParsedItems(reply, decode).Some? ==> r <= UpperStrings(ParsedItems(reply, decode).value)
    ensures forall i :: 0 <= i < |r| ==> exists s :: SelectedFrom(reply, decode, s) && r[i] == Upper(s)
  {
    match ParsedItems(reply, decode)
    case None => []
    case Some(items) =>
      var all := UpperStrings(items);
      var r := PyHead(all, maxAnalyses);
      assert forall i :: 0 <= i < |r| ==>
               (r[i] == all[i] == Upper(StringsOf(items)[i]) && JsonString(StringsOf(items)[i]) in items);
      r
  }

  // ---------------------------------------------------------------------
  // Reviewing the analyses

  datatype TradeAction = BuyAction | SellAction | HoldAction

  const BuyMarker: string := "Decision: BUY"
  const SellMarker: string := "Decision: SELL"
  const HoldMarker: string := "Decision: HOLD"

  /** A marker in markdown bold: `**Decision: BUY**` is `Bold(BuyMarker)`. */
  function Bold(marker: string): string { "**" + marker + "**" }

  /** How `_execute_trading_decisions` reads a decision report. */
  function ReportAction(text: string): TradeAction {
    if Contains(text, BuyMarker) || Contains(text, Bold("BUY")) then BuyAction
    else if Contains(text, SellMarker) || Contains(text, Bold("SELL")) then SellAction
    else HoldAction
  }

  /** The text `_handle_read_report(ticker, 'final_trade_decision')` returns. */
  function DecisionReport(stocks: map<string, AnalysisRecord>, ticker: string, disk: Disk): string {
    ReportText(ReadReportFrom(stocks, ticker, "final_trade_decision", disk))
  }

  /**
   * Whether the review of `ticker` counts a trade: a BUY needs more than
   * 1000 of buying power, a SELL a position with that symbol.
   */
  predicate CountsTrade(stocks: map<string, AnalysisRecord>, ticker: string, disk: Disk,
                        buyingPower: real, positionSymbols: seq<Option<string>>)
  {
    match ReportAction(DecisionReport(stocks, ticker, disk))
    case BuyAction => buyingPower > 1000.0
    case SellAction => Some(ticker) in positionSymbols
    case HoldAction => false
  }

  /** The trades counted while reviewing `order`, one ticker after another. */
  function CountedTrades(stocks: map<string, AnalysisRecord>, order: seq<string>, disk: Disk,
                         buyingPower: real, positionSymbols: seq<Option<string>>): nat
  {
    if |order| == 0 then 0
    else CountedTrades(stocks, order[..|order| - 1], disk, buyingPower, positionSymbols)
         + (if CountsTrade(stocks, order[|order| - 1], disk, buyingPower, positionSymbols) then 1 else 0)
  }

  /**
   * At most one trade per reviewed ticker; none at all without buying power
   * above 1000 and without a position holding a symbol.
   */
  lemma {:induction false} CountedTradesBound(stocks: map<string, AnalysisRecord>, order: seq<string>, disk: Disk,
                                              buyingPower: real, positionSymbols: seq<Option<string>>)
    ensures CountedTrades(stocks, order, disk, buyingPower, positionSymbols) <= |order|
    ensures buyingPower <= 1000.0 && (forall k :: 0 <= k < |positionSymbols| ==> positionSymbols[k].None?) ==>
              CountedTrades(stocks, order, disk, buyingPower, positionSymbols) == 0
  {
    if |order| > 0 {
      CountedTradesBound(stocks, order[..|order| - 1], disk, buyingPower, positionSymbols);
    }
  }

  // ---------------------------------------------------------------------
  // Context truncation

  /**
   * Python's `s[-n:]` for any integer `n`: the last `n` elements for positive
   * `n`; for `n <= 0` the slice starts at `-n`, so `s[-0:]` is all of `s`.
   */
  function PyTail<T>(s: seq<T>, n: int): (r: seq<T>)
    ensures |r| <= |s| && r == s[|s| - |r|..]
    ensures n > 0 ==> |r| == (if n < |s| then n else |s|)
    ensures n <= 0 ==> |r| == |s| - (if -n < |s| then -n else |s|)
  {
    if n > 0 then s[|s| - (if n < |s| then n else |s|)..]
    else s[(if -n < |s| then -n else |s|)..]
  }

  /**
   * `_truncate_context` as written. `enabled` and `limit` stand for the two
   * attributes it reads, which the constructor never sets. None is the
   * `IndexError` of `messages[0]`.
   */
  function TruncateContextAsWritten<T>(messages: seq<T>, enabled: bool, limit: int): (r: Option<seq<T>>)
    ensures !enabled || |messages| <= limit ==> r == Some(messages)
    ensures r.None? <==> enabled && |messages| > limit && |messages| == 0
  {
    if !enabled || |messages| <= limit then Some(messages)
    else if |messages| == 0 then None
    else Some([messages[0]] + PyTail(messages, limit - 1))
  }

  /**
   * With a limit of 1 the slice `messages[-0:]` is the whole list, so the
   * "truncated" context is one message longer than the input.
   */
  lemma TruncateAtOneGrows<T>(messages: seq<T>)
    requires |messages| >= 2
    ensures TruncateContextAsWritten(messages, true, 1) == Some([messages[0]] + messages)
    ensures |TruncateContextAsWritten(messages, true, 1).value| == |messages| + 1
  {
  }

  /** A concrete case: three messages and a limit of 1 give four. */
  lemma TruncateAtOneExample()
    ensures TruncateContextAsWritten([10, 20, 30], true, 1) == Some([10, 10, 20, 30])
  {
    assert PyTail([10, 20, 30], 0) == [10, 20, 30];
    assert [10] + [10, 20, 30] == [10, 10, 20, 30];
  }

  /**
   * The evident intent: keep the first message and the last `limit - 1`, so a
   * list over the limit comes back with exactly `limit` messages (one, the
   * first, when the limit is below 1).
   */
  function TruncateContext<T>(messages: seq<T>, enabled: bool, limit: int): (r: seq<T>)
    ensures !enabled || |messages| <= limit ==> r == messages
    ensures enabled && |messages| > limit && |messages| > 0 ==>
              |r| == (if limit >= 1 then limit else 1) && r[0] == messages[0]
              && r[1..] == messages[|messages| - (|r| - 1)..]
    ensures |r| <= |messages|
  {
    if !enabled || |messages| <= limit || |messages| == 0 then messages
    else [messages[0]] + (if limit >= 2 then messages[|messages| - (limit - 1)..] else [])
  }

  /** For every limit of at least 2 the code as written does what was intended. */
  lemma TruncationAgreesFromTwo<T>(messages: seq<T>, enabled: bool, limit: int)
    requires limit >= 2
    ensures TruncateContextAsWritten(messages, enabled, limit) == Some(TruncateContext(messages, enabled, limit))
  {
  }

  // ---------------------------------------------------------------------
  // Recently analysed stocks

  /** One entry of `recently_analyzed`. */
  datatype RecentEntry = RecentEntry(ticker: string, date: string, decision: string, daysAgo: int)

  datatype RecentAnalysis = RecentAnalysis(recentlyAnalyzed: seq<RecentEntry>, daysThreshold: int, totalCount: int)

  /** The decision a report states, as the scan extracts it. */
  function DecisionOf(content: string): string {
    if Contains(content, Bold(BuyMarker)) || Contains(content, BuyMarker) then "BUY"
    else if Contains(content, Bold(SellMarker)) || Contains(content, SellMarker) then "SELL"
    else if Contains(content, Bold(HoldMarker)) || Contains(content, HoldMarker) then "HOLD"
    else "UNKNOWN"
  }

  /**
   * The bold markers add nothing (a bold marker contains the plain one), so
   * the decision is the first of BUY, SELL, HOLD whose marker occurs, else UNKNOWN.
   */
  lemma DecisionOfPrecedence(content: string)
    ensures DecisionOf(content) == "BUY" <==> Contains(content, BuyMarker)
    ensures DecisionOf(content) == "SELL" <==> !Contains(content, BuyMarker) && Contains(content, SellMarker)
    ensures DecisionOf(content) == "HOLD" <==>
              !Contains(content, BuyMarker) && !Contains(content, SellMarker) && Contains(content, HoldMarker)
    ensures DecisionOf(content) == "UNKNOWN" <==>
              !Contains(content, BuyMarker) && !Contains(content, SellMarker) && !Contains(content, HoldMarker)
  {
    ContainsWithin(content, "**", BuyMarker, "**");
    ContainsWithin(content, "**", SellMarker, "**");
    ContainsWithin(content, "**", HoldMarker, "**");
  }

  /** The decision an accepted date folder contributes; None when reading its file fails. */
  function FileDecision(f: DecisionFile): Option<string> {
    match f
    case NoDecisionFile => Some("UNKNOWN")
    case DecisionText(content) => Some(DecisionOf(content))
    case DecisionUndecodable => None
    case DecisionUnreadable => None
  }

  /**
   * How the scan of one ticker directory ends: an entry from date folder
   * `index`, no entry, or an error that abandons the ticker.
   */
  datatype DateScan = DateFound(index: nat, decision: string) | NoDateFound | TickerAbandoned

  function Shift(s: DateScan, n: nat): DateScan {
    if s.DateFound? then DateFound(s.index + n, s.decision) else s
  }

  /**
   * The inner loop of `_handle_recently_analyzed_stocks`. An accepted folder
   * whose decision file cannot be decoded raises a `ValueError`, which skips
   * to the next folder; any other read error abandons the ticker.
   */
  function ScanDates(dates: seq<DateDir>, cutoff: Moment): (s: DateScan)
    ensures s.DateFound? ==>
              s.index < |dates| && IsRecentDateDir(dates[s.index], cutoff)
              && FileDecision(dates[s.index].decision) == Some(s.decision)
    decreases |dates|
  {
    if |dates| == 0 then NoDateFound
    else if IsRecentDateDir(dates[0], cutoff) && FileDecision(dates[0].decision).Some? then
      DateFound(0, FileDecision(dates[0].decision).value)
    else if IsRecentDateDir(dates[0], cutoff) && dates[0].decision.DecisionUnreadable? then TickerAbandoned
    else Shift(ScanDates(dates[1..], cutoff), 1)
  }

  /**
   * Only the first usable folder counts: every folder before the one found is
   * either not accepted or has an undecodable decision file.
   */
  lemma {:induction false} ScanDatesTakesFirst(dates: seq<DateDir>, cutoff: Moment)
    requires ScanDates(dates, cutoff).DateFound?
    ensures forall j :: 0 <= j < ScanDates(dates, cutoff).index ==>
              !IsRecentDateDir(dates[j], cutoff) || dates[j].decision.DecisionUndecodable?
    decreases |dates|
  {
    if ScanDates(dates, cutoff).index > 0 {
      ScanDatesTakesFirst(dates[1..], cutoff);
      assert forall j :: 1 <= j < |dates| ==> dates[j] == dates[1..][j - 1];
    }
  }

  /** When every decision file reads, the scan takes the first accepted date folder. */
  lemma {:induction false} ScanDatesTakesFirstRecent(dates: seq<DateDir>, cutoff: Moment)
    requires forall j :: 0 <= j < |dates| ==> FileDecision(dates[j].decision).Some?
    ensures FirstRecentDate(dates, cutoff).None? ==> ScanDates(dates, cutoff) == NoDateFound
    ensures FirstRecentDate(dates, cutoff).Some? ==>
              ScanDates(dates, cutoff)
              == DateFound(FirstRecentDate(dates, cutoff).value,
                           FileDecision(dates[FirstRecentDate(dates, cutoff).value].decision).value)
  {
    if |dates| > 0 {
      assert forall j :: 0 <= j < |dates[1..]| ==> dates[1..][j] == dates[j + 1];
      ScanDatesTakesFirstRecent(dates[1..], cutoff);
    }
  }

  /** What one entry of the results directory contributes. */
  function TickerEntry(t: TickerDir, now: Moment, days: int): (e: Option<RecentEntry>)
    ensures e.Some? ==> e.value.ticker == t.name && IsTickerDir(t)
  {
    if !IsTickerDir(t) || t.dates.None? then None
    else match ScanDates(t.dates.value, Cutoff(now, days))
      case DateFound(k, decision) =>
        var d := t.dates.value[k];
        Some(RecentEntry(t.name, d.name, decision, DaysAgo(now, d)))
      case NoDateFound => None
      case TickerAbandoned => None
  }

  /** The entries of the whole listing, in listing order, before the sort. */
  function ScanEntries(dirs: seq<TickerDir>, now: Moment, days: int): (r: seq<RecentEntry>)
    ensures |r| <= |dirs|
    ensures forall i :: 0 <= i < |r| ==> exists k :: 0 <= k < |dirs| && TickerEntry(dirs[k], now, days) == Some(r[i])
  {
    if |dirs| == 0 then []
    else
      var init := ScanEntries(dirs[..|dirs| - 1], now, days);
      assert forall k :: 0 <= k < |dirs| - 1 ==> dirs[..|dirs| - 1][k] == dirs[k];
      match TickerEntry(dirs[|dirs| - 1], now, days)
      case Some(e) => init + [e]
      case None => init
  }

  function EntryDate(e: RecentEntry): string { e.date }

  function EntryTicker(e: RecentEntry): string { e.ticker }

  /** The names of a directory listing are distinct. */
  predicate DistinctNames(dirs: seq<TickerDir>) {
    forall i, j :: 0 <= i < j < |dirs| ==> dirs[i].name != dirs[j].name
  }

  /** At most one entry per ticker directory. */
  lemma {:induction false} ScanOnePerTicker(dirs: seq<TickerDir>, now: Moment, days: int)
    requires DistinctNames(dirs)
    ensures DistinctBy(ScanEntries(dirs, now, days), EntryTicker)
  {
    if |dirs| > 0 {
      var init, last := dirs[..|dirs| - 1], dirs[|dirs| - 1];
      assert DistinctNames(init);
      ScanOnePerTicker(init, now, days);
      var r := ScanEntries(init, now, days);
      forall i | 0 <= i < |r|
        ensures r[i].ticker != last.name
      {
        var k :| 0 <= k < |init| && TickerEntry(init[k], now, days) == Some(r[i]);
        assert init[k] == dirs[k];
      }
      var e := TickerEntry(last, now, days);
      assert ScanEntries(dirs, now, days) == if e.Some? then r + [e.value] else r;
    }
  }

  /** Every entry is a date folder no older than the threshold. */
  lemma {:induction false} ScanWithinThreshold(dirs: seq<TickerDir>, now: Moment, days: int)
    requires ValidMoment(now)
    ensures forall i :: 0 <= i < |ScanEntries(dirs, now, days)| ==> ScanEntries(dirs, now, days)[i].daysAgo <= days
  {
    var r := ScanEntries(dirs, now, days);
    forall i | 0 <= i < |r|
      ensures r[i].daysAgo <= days
    {
      var k :| 0 <= k < |dirs| && TickerEntry(dirs[k], now, days) == Some(r[i]);
      var t := dirs[k];
      var s := ScanDates(t.dates.value, Cutoff(now, days));
      RecentIsWithinThreshold(now, days, t.dates.value[s.index]);
    }
  }

  /** The reply is sorted by date, newest first. */
  lemma RecentSorted(dirs: seq<TickerDir>, now: Moment, days: int)
    ensures SortedDesc(SortDesc(ScanEntries(dirs, now, days), EntryDate), EntryDate)
  {
    SortDescSorted(ScanEntries(dirs, now, days), EntryDate);
  }

  /** The reply keeps one entry per ticker. */
  lemma RecentOnePerTicker(dirs: seq<TickerDir>, now: Moment, days: int)
    requires DistinctNames(dirs)
    ensures DistinctBy(SortDesc(ScanEntries(dirs, now, days), EntryDate), EntryTicker)
  {
    ScanOnePerTicker(dirs, now, days);
    SortDescDistinct(ScanEntries(dirs, now, days), EntryDate, EntryTicker);
  }

  /** Every entry of the reply is a date folder no older than the threshold. */
  lemma RecentWithinThreshold(dirs: seq<TickerDir>, now: Moment, days: int, e: RecentEntry)
    requires ValidMoment(now)
    requires e in SortDesc(ScanEntries(dirs, now, days), EntryDate)
    ensures e.daysAgo <= days
  {
    var r := ScanEntries(dirs, now, days);
    SortDescSameMembers(r, EntryDate, e);
    ScanWithinThreshold(dirs, now, days);
    var i :| 0 <= i < |r| && r[i] == e;
  }

  /** The inner loop over one ticker's date folders, with its `break`. */
  method FindRecentDate(dates: seq<DateDir>, cutoff: Moment) returns (s: DateScan)
    ensures s == ScanDates(dates, cutoff)
  {
    var j := 0;
    while j < |dates|
      invariant 0 <= j <= |dates|
      invariant ScanDates(dates, cutoff) == Shift(ScanDates(dates[j..], cutoff), j)
    {
      var d := dates[j];
      assert dates[j..][1..] == dates[j + 1..];
      if d.isDir {
        match ParseIsoDate(d.name)
        case Some(folderDate) =>
          if Seconds(Midnight(folderDate)) >= Seconds(cutoff) {
            match d.decision
            case NoDecisionFile =>
              return DateFound(j, "UNKNOWN");
            case DecisionText(content) =>
              return DateFound(j, DecisionOf(content));
            case DecisionUnreadable =>
              return TickerAbandoned;
            case DecisionUndecodable =>
          }
        case None =>
      }
      j := j + 1;
    }
    return NoDateFound;
  }

  /** The trade count and tool replies of the orchestrator, with the state they update. */
  class OrchestratorPortfolioManager {
    const resultsDir: string
    const maxAnalyses: int
    var analysesRequested: int
    var analysisOrder: seq<string>
    var analyzedStocks: map<string, AnalysisRecord>
    const maxWebSearches: int
    var webSearchesUsed: int
    const webSearchEnabled: bool

    function Tracked(): Tracking
      reads this
    {
      Tracking(analysesRequested, analysisOrder, analyzedStocks)
    }

    /** The analysis bookkeeping is consistent. */
    ghost predicate Valid()
      reads this
    {
      Consistent(Tracked(), maxAnalyses)
    }

    /** The search counter never exceeds the quota of one. */
    predicate SearchesWithinQuota()
      reads this
    {
      maxWebSearches == MaxWebSearches && 0 <= webSearchesUsed <= maxWebSearches
    }

    constructor (config: OrchestratorConfig)
      ensures resultsDir == config.resultsDir.GetOr(DefaultResultsDir)
      ensures maxAnalyses == config.maxStocksToAnalyze.GetOr(DefaultMaxAnalyses)
      ensures webSearchEnabled == config.enableWebSearch.GetOr(true)
      ensures Tracked() == NoAnalyses && webSearchesUsed == 0
      ensures Valid() && SearchesWithinQuota()
    {
      resultsDir := config.resultsDir.GetOr(DefaultResultsDir);
      maxAnalyses := config.maxStocksToAnalyze.GetOr(DefaultMaxAnalyses);
      analysesRequested := 0;
      analysisOrder := [];
      analyzedStocks := map[];
      maxWebSearches := MaxWebSearches;
      webSearchesUsed := 0;
      webSearchEnabled := config.enableWebSearch.GetOr(true);
    }

    /** `_handle_analysis_request`: the same quota rules as `request_analysis`. */
    method HandleAnalysisRequest(ticker: string, today: string, outcome: AnalysisOutcome, disk: Disk)
      returns (reply: RequestReply, written: Disk)
      requires Valid()
      modifies this`analysesRequested, this`analysisOrder, this`analyzedStocks
      ensures Valid()
      ensures Step(Tracked(), reply) == Request(old(Tracked()), maxAnalyses, resultsDir, ticker, today, outcome)
      ensures written == if reply.AnalysisCompleted? then WriteReports(disk, reply.reportsDir, outcome.state) else disk
    {
      RequestKeepsConsistent(Tracked(), maxAnalyses, resultsDir, ticker, today, outcome);
      written := disk;
      if analysesRequested >= maxAnalyses {
        return LimitReached(analysesRequested, maxAnalyses), written;
      }
      if ticker in analyzedStocks {
        return AlreadyAnalyzed(ticker), written;
      }
      match outcome
      case AnalysisRaised(e) =>
        reply := AnalysisError(ticker, e);
      case AnalysisDone(decision, state) =>
        var dir := ReportsDir(resultsDir, ticker, today);
        written := WriteReports(disk, dir, state);
        analysesRequested := analysesRequested + 1;
        analysisOrder := analysisOrder + [ticker];
        analyzedStocks := analyzedStocks[ticker := AnalysisRecord(today, dir, decision)];
        reply := AnalysisCompleted(ticker, decision, dir, analysesRequested, maxAnalyses);
    }

    /** `_handle_read_report`. */
    function HandleReadReport(ticker: string, reportType: string, disk: Disk): (r: ReportReply)
      reads this
      ensures r.NotAnalyzed? <==> ticker !in analyzedStocks
      ensures r == ReadReportFrom(analyzedStocks, ticker, reportType, disk)
    {
      ReadReportFrom(analyzedStocks, ticker, reportType, disk)
    }

    /** `_handle_analysis_status`. */
    function HandleAnalysisStatus(): (r: AnalysisStatus)
      reads this
      ensures r.requested == analysesRequested && r.remaining == maxAnalyses - analysesRequested
      ensures Valid() ==> NoDups(r.analyzed) && |r.analyzed| == |analyzedStocks| == r.requested
      ensures Valid() ==> forall k :: k in r.analyzed <==> k in analyzedStocks
    {
      AnalysisStatus(analysesRequested, maxAnalyses - analysesRequested, analysisOrder)
    }

    /** `_handle_web_search`; `outcome` is what the search tool returns or raises for the query. */
    method HandleWebSearch(outcome: SearchOutcome) returns (reply: SearchReply)
      requires SearchesWithinQuota()
      modifies this`webSearchesUsed
      ensures SearchesWithinQuota()
      ensures SearchStep(webSearchesUsed, reply) == Search(webSearchEnabled, old(webSearchesUsed), maxWebSearches, outcome)
    {
      if !webSearchEnabled {
        return SearchDisabled;
      }
      if webSearchesUsed >= maxWebSearches {
        return SearchLimitReached(webSearchesUsed, maxWebSearches);
      }
      webSearchesUsed := webSearchesUsed + 1;
      match outcome
      case SearchFound(results) =>
        reply := SearchResults(results);
      case SearchRaised(e) =>
        reply := SearchFailed(e);
    }

    /** The review of one analysed ticker: whether it counts a trade. */
    method ReviewTicker(ticker: string, disk: Disk, available: real, positionSymbols: seq<Option<string>>)
      returns (counted: bool)
      ensures counted == CountsTrade(analyzedStocks, ticker, disk, available, positionSymbols)
    {
      var decisionReport := ReportText(HandleReadReport(ticker, "final_trade_decision", disk));
      match ReportAction(decisionReport) {
        case BuyAction =>
          counted := available > 1000.0;
        case SellAction =>
          counted := Some(ticker) in positionSymbols;
        case HoldAction =>
          counted := false;
      }
    }

    /**
     * `_execute_trading_decisions`: reviews the analysed tickers in the order
     * they were analysed and counts the trades it would place; no order is
     * sent and nothing changes.
     */
    method ExecuteTradingDecisions(buyingPower: Option<real>, positionSymbols: seq<Option<string>>, disk: Disk)
      returns (trades: nat)
      requires Valid()
      ensures trades == CountedTrades(analyzedStocks, analysisOrder, disk, buyingPower.GetOr(0.0), positionSymbols)
      ensures trades <= |analyzedStocks|
    {
      var available := buyingPower.GetOr(0.0);
      trades := 0;
      var i := 0;
      while i < |analysisOrder|
        invariant 0 <= i <= |analysisOrder|
        invariant trades == CountedTrades(analyzedStocks, analysisOrder[..i], disk, available, positionSymbols)
      {
        var ticker := analysisOrder[i];
        assert analysisOrder[..i + 1][..i] == analysisOrder[..i];
        var counted := ReviewTicker(ticker, disk, available, positionSymbols);
        if counted {
          trades := trades + 1;
        }
        i := i + 1;
      }
      assert analysisOrder[..i] == analysisOrder;
      CountedTradesBound(analyzedStocks, analysisOrder, disk, available, positionSymbols);
    }

    /**
     * `_handle_recently_analyzed_stocks`. `listing` is the results directory,
     * None when it does not exist or cannot be listed; `now` is the clock.
     */
    method HandleRecentlyAnalyzedStocks(listing: Option<seq<TickerDir>>, now: Moment, days: int)
      returns (r: RecentAnalysis)
      ensures r.recentlyAnalyzed == SortDesc(ScanEntries(listing.GetOr([]), now, days), EntryDate)
      ensures r.daysThreshold == days && r.totalCount == |r.recentlyAnalyzed|
    {
      if listing.None? {
        return RecentAnalysis([], days, 0);
      }
      var dirs := listing.value;
      var cutoff := Cutoff(now, days);
      var recentlyAnalyzed: seq<RecentEntry> := [];
      var i := 0;
      while i < |dirs|
        invariant 0 <= i <= |dirs|
        invariant recentlyAnalyzed == ScanEntries(dirs[..i], now, days)
      {
        var tickerDir := dirs[i];
        assert dirs[..i + 1][..i] == dirs[..i];
        if tickerDir.isDir && tickerDir.name != ManagerDirName && tickerDir.dates.Some? {
          var found := FindRecentDate(tickerDir.dates.value, cutoff);
          if found.DateFound? {
            var dateDir := tickerDir.dates.value[found.index];
            recentlyAnalyzed := recentlyAnalyzed
              + [RecentEntry(tickerDir.name, dateDir.name, found.decision, DaysAgo(now, dateDir))];
          }
        }
        i := i + 1;
      }
      assert dirs[..i] == dirs;
      var sorted := SortDesc(recentlyAnalyzed, EntryDate);
      return RecentAnalysis(sorted, days, |sorted|);
    }
  }
}
