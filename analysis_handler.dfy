/**
 * `AnalysisHandler`: the per-iteration analysis quota, the record of the
 * stocks analysed so far, and reading their report files back.
 *
 * The tracking state (counter, tickers in insertion order, records) and the
 * step a request takes on it are stated once here; the orchestrator keeps its
 * own copy of the same fields and takes the same step.
 */
module AnalysisHandler {
  import opened Common

  /** One `analyzed_stocks` value: `{date, reports_dir, decision}`. */
  datatype AnalysisRecord = AnalysisRecord(date: string, reportsDir: string, decision: string)

  /**
   * What running the analysis does: `propagate`, writing the report files and
   * the HTML page either raise somewhere, or return the final state (its
   * report sections by name) and the decision.
   */
  datatype AnalysisOutcome =
    | AnalysisRaised(error: string)
    | AnalysisDone(decision: string, state: map<string, string>)

  datatype RequestReply =
    | LimitReached(used: int, limit: int)
    | AlreadyAnalyzed(ticker: string)
    | AnalysisCompleted(ticker: string, decision: string, reportsDir: string, used: int, limit: int)
    | AnalysisError(ticker: string, error: string)

  const DefaultMaxAnalyses: int := 3

  /** `results_dir / ticker / today / "reports"`. */
  function ReportsDir(resultsDir: string, ticker: string, today: string): string {
    resultsDir + "/" + ticker + "/" + today + "/reports"
  }

  /** `reports_dir / f"{name}.md"`. */
  function ReportPath(dir: string, name: string): string {
    dir + "/" + name + ".md"
  }

  /** Different report names give different files of one directory. */
  lemma ReportPathInjective(dir: string, a: string, b: string)
    ensures ReportPath(dir, a) == ReportPath(dir, b) <==> a == b
  {
    if ReportPath(dir, a) == ReportPath(dir, b) {
      var p := ReportPath(dir, a);
      assert |a| == |b|;
      assert a == p[|dir| + 1..|dir| + 1 + |a|];
      assert b == ReportPath(dir, b)[|dir| + 1..|dir| + 1 + |b|];
    }
  }

  // ---------------------------------------------------------------------
  // The tracking state and one request

  /** `analyses_requested`, the keys of `analyzed_stocks` in insertion order, and the dictionary. */
  datatype Tracking = Tracking(requested: int, order: seq<string>, stocks: map<string, AnalysisRecord>)

  const NoAnalyses: Tracking := Tracking(0, [], map[])

  /** The counter equals the number of tickers recorded, each once, and stays within the quota. */
  ghost predicate Consistent(t: Tracking, maxAnalyses: int) {
    && t.requested == |t.order| == |t.stocks|
    && NoDups(t.order)
    && (forall k :: k in t.stocks <==> k in t.order)
    && (t.requested <= maxAnalyses || t.requested == 0)
  }

  datatype Step = Step(after: Tracking, reply: RequestReply)

  /**
   * `request_analysis`: the quota check comes first, then the duplicate check;
   * only a completed analysis changes the tracking state, by exactly one ticker.
   */
  function Request(t: Tracking, maxAnalyses: int, resultsDir: string, ticker: string, today: string,
                   outcome: AnalysisOutcome): (s: Step)
    ensures s.reply.LimitReached? <==> t.requested >= maxAnalyses
    ensures s.reply.AlreadyAnalyzed? <==> t.requested < maxAnalyses && ticker in t.stocks
    ensures s.reply.AnalysisError? <==> t.requested < maxAnalyses && ticker !in t.stocks && outcome.AnalysisRaised?
    ensures !s.reply.AnalysisCompleted? ==> s.after == t
    ensures s.reply.AnalysisCompleted? ==>
              && outcome.AnalysisDone?
              && s.after.requested == t.requested + 1 && s.reply.used == s.after.requested
              && s.after.order == t.order + [ticker]
              && s.after.stocks == t.stocks[ticker := AnalysisRecord(today, s.reply.reportsDir, outcome.decision)]
              && s.reply.reportsDir == ReportsDir(resultsDir, ticker, today)
  {
    if t.requested >= maxAnalyses then Step(t, LimitReached(t.requested, maxAnalyses))
    else if ticker in t.stocks then Step(t, AlreadyAnalyzed(ticker))
    else match outcome
      case AnalysisRaised(e) => Step(t, AnalysisError(ticker, e))
      case AnalysisDone(decision, _) =>
        var dir := ReportsDir(resultsDir, ticker, today);
        var after := Tracking(t.requested + 1, t.order + [ticker], t.stocks[ticker := AnalysisRecord(today, dir, decision)]);
        Step(after, AnalysisCompleted(ticker, decision, dir, after.requested, maxAnalyses))
  }

  /** Every request keeps the tracking state consistent. */
  lemma RequestKeepsConsistent(t: Tracking, maxAnalyses: int, resultsDir: string, ticker: string, today: string,
                               outcome: AnalysisOutcome)
    requires Consistent(t, maxAnalyses)
    ensures Consistent(Request(t, maxAnalyses, resultsDir, ticker, today, outcome).after, maxAnalyses)
  {
    var s := Request(t, maxAnalyses, resultsDir, ticker, today, outcome);
    if s.reply.AnalysisCompleted? {
      assert ticker !in t.order;
      assert |s.after.stocks| == |t.stocks| + 1;
    }
  }

  /** One call of `request_analysis`: its ticker, the date it runs, and what the analysis does. */
  datatype AnalysisCall = AnalysisCall(ticker: string, today: string, outcome: AnalysisOutcome)

  function RunRequests(t: Tracking, maxAnalyses: int, resultsDir: string, calls: seq<AnalysisCall>): Tracking
    decreases |calls|
  {
    if |calls| == 0 then t
    else RunRequests(Request(t, maxAnalyses, resultsDir, calls[0].ticker, calls[0].today, calls[0].outcome).after,
                     maxAnalyses, resultsDir, calls[1..])
  }

  /** Starting from nothing, any series of requests records at most `max_analyses`
      tickers, each once, and the counter equals their number. */
  lemma {:induction false} QuotaHolds(t: Tracking, maxAnalyses: int, resultsDir: string, calls: seq<AnalysisCall>)
    requires Consistent(t, maxAnalyses)
    ensures var e := RunRequests(t, maxAnalyses, resultsDir, calls);
            && Consistent(e, maxAnalyses)
            && e.requested == |e.stocks| == |e.order|
            && (maxAnalyses >= 0 ==> |e.stocks| <= maxAnalyses)
    decreases |calls|
  {
    if |calls| > 0 {
      var c := calls[0];
      RequestKeepsConsistent(t, maxAnalyses, resultsDir, c.ticker, c.today, c.outcome);
      QuotaHolds(Request(t, maxAnalyses, resultsDir, c.ticker, c.today, c.outcome).after, maxAnalyses, resultsDir, calls[1..]);
    }
  }

  // ---------------------------------------------------------------------
  // Report files

  /** A report file as `read_text` sees it. */
  datatype ReportFile = Readable(text: string) | Unreadable(error: string)

  /**
   * The report files on disk, by path, and for each reports directory the
   * stems `glob("*.md")` yields there, in the order it yields them.
   */
  datatype Disk = Disk(files: map<string, ReportFile>, mdStems: map<string, seq<string>>)

  /** The seven report sections, in the order they are written. */
  const ReportSections: seq<string> := [
    "market_report", "sentiment_report", "news_report", "fundamentals_report",
    "investment_plan", "trader_investment_plan", "final_trade_decision"
  ]

  lemma SectionsDistinct()
    ensures NoDups(ReportSections)
  {
    forall i, j | 0 <= i < j < |ReportSections|
      ensures ReportSections[i] != ReportSections[j]
    {
      assert ReportSections[i][..3] != ReportSections[j][..3] || |ReportSections[i]| != |ReportSections[j]|;
    }
  }

  /** `state.get(name, "")`. */
  function SectionText(state: map<string, string>, name: string): string {
    if name in state then state[name] else ""
  }

  /** Write every non-empty section, in order, as `<name>.md` under `dir`. */
  function WriteSections(files: map<string, ReportFile>, dir: string, state: map<string, string>, names: seq<string>)
    : map<string, ReportFile>
    decreases |names|
  {
    if |names| == 0 then files
    else
      var text := SectionText(state, names[0]);
      WriteSections(if text != "" then files[ReportPath(dir, names[0]) := Readable(text)] else files,
                    dir, state, names[1..])
  }

  function WriteReports(disk: Disk, dir: string, state: map<string, string>): Disk {
    Disk(WriteSections(disk.files, dir, state, ReportSections), disk.mdStems)
  }

  /** Writing the sections touches only their own files. */
  lemma {:induction false} WriteSectionsKeeps(files: map<string, ReportFile>, dir: string, state: map<string, string>,
                                             names: seq<string>, p: string)
    requires forall i :: 0 <= i < |names| ==> ReportPath(dir, names[i]) != p
    ensures p in WriteSections(files, dir, state, names) <==> p in files
    ensures p in files ==> WriteSections(files, dir, state, names)[p] == files[p]
    decreases |names|
  {
    if |names| > 0 {
      var text := SectionText(state, names[0]);
      WriteSectionsKeeps(if text != "" then files[ReportPath(dir, names[0]) := Readable(text)] else files,
                         dir, state, names[1..], p);
    }
  }

  /** A non-empty section ends up, readable, in its own file. */
  lemma {:induction false} WriteSectionsFinds(files: map<string, ReportFile>, dir: string, state: map<string, string>,
                                             names: seq<string>, k: nat)
    requires k < |names| && NoDups(names) && SectionText(state, names[k]) != ""
    ensures ReportPath(dir, names[k]) in WriteSections(files, dir, state, names)
    ensures WriteSections(files, dir, state, names)[ReportPath(dir, names[k])] == Readable(SectionText(state, names[k]))
    decreases |names|
  {
    var text := SectionText(state, names[0]);
    var next := if text != "" then files[ReportPath(dir, names[0]) := Readable(text)] else files;
    if k == 0 {
      forall i | 0 <= i < |names[1..]|
        ensures ReportPath(dir, names[1..][i]) != ReportPath(dir, names[0])
      {
        assert names[1..][i] == names[i + 1] != names[0];
        ReportPathInjective(dir, names[1..][i], names[0]);
      }
      WriteSectionsKeeps(next, dir, state, names[1..], ReportPath(dir, names[0]));
    } else {
      assert NoDups(names[1..]) && names[1..][k - 1] == names[k];
      WriteSectionsFinds(next, dir, state, names[1..], k - 1);
    }
  }

  // ---------------------------------------------------------------------
  // read_report

  datatype ReportReply =
    | NotAnalyzed(ticker: string)
    | ReportNotFound(ticker: string, reportType: string, available: seq<string>)
    | ReadFailed(error: string)
    | Report(content: string)

  /** The string `read_report` returns for each reply. */
  function ReportText(r: ReportReply): string {
    match r
    case NotAnalyzed(t) => "\U{274C} " + t + " has not been analyzed this iteration. Use request_stock_analysis first."
    case ReportNotFound(t, rt, available) =>
      "\U{274C} Report type '" + rt + "' not found for " + t + ".\nAvailable reports: " + Join(available, ", ")
    case ReadFailed(e) => "\U{274C} Error reading report: " + e
    case Report(c) => c
  }

  /** `read_report` over the tracking dictionary and the disk. */
  function ReadReportFrom(stocks: map<string, AnalysisRecord>, ticker: string, reportType: string, disk: Disk)
    : (r: ReportReply)
    ensures r.NotAnalyzed? <==> ticker !in stocks
    ensures ticker in stocks ==>
              var dir := stocks[ticker].reportsDir;
              var p := ReportPath(dir, reportType);
              && (r.ReportNotFound? <==> p !in disk.files)
              && (r.ReportNotFound? ==> r.available == (if dir in disk.mdStems then disk.mdStems[dir] else []))
              && (r.Report? <==> p in disk.files && disk.files[p].Readable?)
              && (r.Report? ==> disk.files[p] == Readable(r.content))
  {
    if ticker !in stocks then NotAnalyzed(ticker)
    else
      var dir := stocks[ticker].reportsDir;
      var p := ReportPath(dir, reportType);
      if p !in disk.files then ReportNotFound(ticker, reportType, if dir in disk.mdStems then disk.mdStems[dir] else [])
      else match disk.files[p]
        case Unreadable(e) => ReadFailed(e)
        case Readable(c) => Report(c)
  }

  /** Round trip: right after a completed analysis, reading one of its non-empty
      sections returns exactly the text the analysis produced. */
  lemma ReadAfterRequest(t: Tracking, maxAnalyses: int, resultsDir: string, ticker: string, today: string,
                         decision: string, state: map<string, string>, disk: Disk, k: nat)
    requires k < |ReportSections| && SectionText(state, ReportSections[k]) != ""
    requires Request(t, maxAnalyses, resultsDir, ticker, today, AnalysisDone(decision, state)).reply.AnalysisCompleted?
    ensures var s := Request(t, maxAnalyses, resultsDir, ticker, today, AnalysisDone(decision, state));
            ReadReportFrom(s.after.stocks, ticker, ReportSections[k], WriteReports(disk, s.reply.reportsDir, state))
              == Report(SectionText(state, ReportSections[k]))
  {
    var s := Request(t, maxAnalyses, resultsDir, ticker, today, AnalysisDone(decision, state));
    var dir := s.reply.reportsDir;
    assert s.after.stocks[ticker].reportsDir == dir;
    SectionsDistinct();
    WriteSectionsFinds(disk.files, dir, state, ReportSections, k);
  }

  // ---------------------------------------------------------------------
  // read_historical_report

  /** What `get_report_from_s3` does: raise, find nothing, or return the text. */
  datatype HistoricalFetch = FetchRaised(error: string) | FetchMissing | FetchFound(content: string)

  datatype HistoricalReply =
    | HistoricalNotFound(ticker: string, reportType: string, date: Option<string>)
    | HistoricalReport(ticker: string, reportType: string, dateUsed: string, content: string)
    | HistoricalError(error: string)

  /** `date or "latest"`: None and the empty string are both falsy. */
  function DateUsed(date: Option<string>): (r: string)
    ensures date.Some? && date.value != "" ==> r == date.value
    ensures date.None? || date.value == "" ==> r == "latest"
  {
    if date.Some? && date.value != "" then date.value else "latest"
  }

  function ReadHistoricalFrom(ticker: string, reportType: string, date: Option<string>, fetch: HistoricalFetch)
    : (r: HistoricalReply)
    ensures r.HistoricalError? <==> fetch.FetchRaised?
    ensures r.HistoricalNotFound? <==> fetch.FetchMissing?
    ensures r.HistoricalReport? ==> fetch == FetchFound(r.content) && r.dateUsed == DateUsed(date)
  {
    match fetch
    case FetchRaised(e) => HistoricalError(e)
    case FetchMissing => HistoricalNotFound(ticker, reportType, date)
    case FetchFound(c) => HistoricalReport(ticker, reportType, DateUsed(date), c)
  }

  /** `S3ReportManager` has no `get_report_from_s3`: calling it raises AttributeError. */
  const MissingReportFetch: HistoricalFetch :=
    FetchRaised("'S3ReportManager' object has no attribute 'get_report_from_s3'")

  // ---------------------------------------------------------------------
  // The handler object

  datatype AnalysisStatus = AnalysisStatus(requested: int, remaining: int, analyzed: seq<string>)

  class AnalysisHandler {
    const resultsDir: string
    const maxAnalyses: int
    var analysesRequested: int
    var analysisOrder: seq<string>
    var analyzedStocks: map<string, AnalysisRecord>

    function Tracked(): Tracking
      reads this
    {
      Tracking(analysesRequested, analysisOrder, analyzedStocks)
    }

    ghost predicate Valid()
      reads this
    {
      Consistent(Tracked(), maxAnalyses)
    }

    constructor (resultsDir: string, maxAnalyses: int)
      ensures this.resultsDir == resultsDir && this.maxAnalyses == maxAnalyses
      ensures Tracked() == NoAnalyses && Valid()
    {
      this.resultsDir := resultsDir;
      this.maxAnalyses := maxAnalyses;
      analysesRequested := 0;
      analysisOrder := [];
      analyzedStocks := map[];
    }

    /** `request_analysis`; `written` is the disk after the report files are saved. */
    method RequestAnalysis(ticker: string, today: string, outcome: AnalysisOutcome, disk: Disk)
      returns (reply: RequestReply, written: Disk)
      requires Valid()
      modifies this
      ensures Valid()
      ensures Step(Tracked(), reply) == Request(old(Tracked()), maxAnalyses, resultsDir, ticker, today, outcome)
      ensures written == if reply.AnalysisCompleted? then WriteReports(disk, reply.reportsDir, outcome.state) else disk
    {
      RequestKeepsConsistent(Tracked(), maxAnalyses, resultsDir, ticker, today, outcome);
      written := disk;
      if analysesRequested >= maxAnalyses {
        return LimitReached(analysesRequested, maxAnalyses), written;
      }
      if ticker in analyzedStocks {
        return AlreadyAnalyzed(ticker), written;
      }
      match outcome
      case AnalysisRaised(e) =>
        reply := AnalysisError(ticker, e);
      case AnalysisDone(decision, state) =>
        var dir := ReportsDir(resultsDir, ticker, today);
        written := WriteReports(disk, dir, state);
        analysesRequested := analysesRequested + 1;
        analysisOrder := analysisOrder + [ticker];
        analyzedStocks := analyzedStocks[ticker := AnalysisRecord(today, dir, decision)];
        reply := AnalysisCompleted(ticker, decision, dir, analysesRequested, maxAnalyses);
    }

    /** `read_report`: reads the record, changes nothing. */
    function ReadReport(ticker: string, reportType: string, disk: Disk): (r: ReportReply)
      reads this
      ensures r.NotAnalyzed? <==> ticker !in analyzedStocks
      ensures r == ReadReportFrom(analyzedStocks, ticker, reportType, disk)
    {
      ReadReportFrom(analyzedStocks, ticker, reportType, disk)
    }

    /** `read_historical_report` with the shown S3 client: always the error reply. */
    function ReadHistoricalReport(ticker: string, reportType: string, date: Option<string>): (r: HistoricalReply)
      ensures r.HistoricalError?
    {
      ReadHistoricalFrom(ticker, reportType, date, MissingReportFetch)
    }

    /** `get_status`. */
    function GetStatus(): (r: AnalysisStatus)
      reads this
      ensures r.requested == analysesRequested && r.remaining == maxAnalyses - analysesRequested
      ensures Valid() ==> NoDups(r.analyzed) && |r.analyzed| == |analyzedStocks| == r.requested
      ensures Valid() ==> forall k :: k in r.analyzed <==> k in analyzedStocks
    {
      AnalysisStatus(analysesRequested, maxAnalyses - analysesRequested, analysisOrder)
    }

    /** `get_analyzed_stocks`. */
    function GetAnalyzedStocks(): (r: map<string, AnalysisRecord>)
      reads this
      ensures Valid() ==> |r| == analysesRequested
      ensures r == analyzedStocks
    {
      analyzedStocks
    }
  }
}
