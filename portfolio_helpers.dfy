/**
 * The portfolio helpers: the web-search quota of the portfolio manager and
 * the analysis history it hands to the stock selector, merged from the S3
 * history and the local results directory.
 */
module PortfolioHelpers {
  import opened Common
  import opened Dates
  import opened History
  import opened WebSearch
  import opened StockSelector

  // ---------------------------------------------------------------------
  // The history, entry by entry

  /** `get_analyzed_stocks_history(days)`: ticker and dates, most recent first, in dict order. */
  type S3History = seq<(string, seq<string>)>

  /** The dict's keys are distinct. */
  predicate DistinctKeys(s3: S3History) {
    forall i, j :: 0 <= i < j < |s3| ==> s3[i].0 != s3[j].0
  }

  function ItemTicker(e: HistoryItem): string { e.ticker }
  function ItemDate(e: HistoryItem): string { e.date }

  /**
   * The entry of one S3 key: its first date, when there is one and it parses
   * as a date, `days_ago` counted from `now`. No cutoff is applied here.
   */
  function S3Entry(ticker: string, dates: seq<string>, now: Moment): (e: Option<HistoryItem>)
    ensures e.Some? <==> |dates| > 0 && ParseIsoDate(dates[0]).Some?
    ensures e.Some? ==> e.value.ticker == ticker && e.value.date == dates[0] && e.value.source == Some("S3")
                        && e.value.daysAgo == DaysBetween(now, Midnight(ParseIsoDate(dates[0]).value))
  {
    if |dates| == 0 then None
    else match ParseIsoDate(dates[0])
      case None => None
      case Some(d) => Some(HistoryItem(ticker, dates[0], DaysBetween(now, Midnight(d)), Some("S3")))
  }

  /** The S3 pass over the history, in key order. */
  function S3Entries(s3: S3History, now: Moment): seq<HistoryItem> {
    if |s3| == 0 then []
    else
      var init, last := s3[..|s3| - 1], s3[|s3| - 1];
      S3Entries(init, now) + (match S3Entry(last.0, last.1, now) case None => [] case Some(e) => [e])
  }

  /** Every S3 entry comes from one key, and distinct keys give one entry per ticker. */
  lemma {:induction false} S3EntriesFromKeys(s3: S3History, now: Moment)
    ensures forall e :: e in S3Entries(s3, now) ==>
              exists i :: 0 <= i < |s3| && s3[i].0 == e.ticker && S3Entry(s3[i].0, s3[i].1, now) == Some(e)
    ensures DistinctKeys(s3) ==> DistinctBy(S3Entries(s3, now), ItemTicker)
  {
    if |s3| > 0 {
      var init, last := s3[..|s3| - 1], s3[|s3| - 1];
      S3EntriesFromKeys(init, now);
      var r := S3Entries(init, now);
      forall e | e in S3Entries(s3, now)
        ensures exists i :: 0 <= i < |s3| && s3[i].0 == e.ticker && S3Entry(s3[i].0, s3[i].1, now) == Some(e)
      {
        if e in r {
          var i :| 0 <= i < |init| && init[i].0 == e.ticker && S3Entry(init[i].0, init[i].1, now) == Some(e);
          assert s3[i] == init[i];
        } else {
          assert s3[|s3| - 1] == last;
        }
      }
      if DistinctKeys(s3) {
        assert DistinctKeys(init);
        forall k | 0 <= k < |r|
          ensures r[k].ticker != last.0
        {
          assert r[k] in r;
          var i :| 0 <= i < |init| && init[i].0 == r[k].ticker && S3Entry(init[i].0, init[i].1, now) == Some(r[k]);
          assert s3[i] == init[i];
        }
      }
    }
  }

  /** Every key whose first date parses gives its entry. */
  lemma {:induction false} S3EntriesComplete(s3: S3History, now: Moment, i: nat)
    requires i < |s3| && S3Entry(s3[i].0, s3[i].1, now).Some?
    ensures S3Entry(s3[i].0, s3[i].1, now).value in S3Entries(s3, now)
  {
    var init := s3[..|s3| - 1];
    if i < |s3| - 1 {
      assert init[i] == s3[i];
      S3EntriesComplete(init, now, i);
    }
  }

  /**
   * The entry a ticker directory contributes: its first date folder on or
   * after the cutoff, with source 'Local'; none for a file, the manager's
   * own directory, a directory that cannot be listed or one with no recent folder.
   */
  function LocalEntry(t: TickerDir, cutoff: Moment, now: Moment): (e: Option<HistoryItem>)
    ensures e.Some? ==> IsTickerDir(t) && t.dates.Some? && FirstRecentDate(t.dates.value, cutoff).Some?
    ensures e.Some? ==> var d := t.dates.value[FirstRecentDate(t.dates.value, cutoff).value];
                        e.value == HistoryItem(t.name, d.name, DaysAgo(now, d), Some("Local"))
  {
    if !IsTickerDir(t) || t.dates.None? then None
    else match FirstRecentDate(t.dates.value, cutoff)
      case None => None
      case Some(k) =>
        var d := t.dates.value[k];
        Some(HistoryItem(t.name, d.name, DaysAgo(now, d), Some("Local")))
  }

  predicate HasTicker(items: seq<HistoryItem>, ticker: string) {
    exists k :: 0 <= k < |items| && items[k].ticker == ticker
  }

  /** One ticker directory of the local pass: skipped when its ticker is already listed. */
  function LocalStep(acc: seq<HistoryItem>, t: TickerDir, cutoff: Moment, now: Moment): seq<HistoryItem> {
    if !IsTickerDir(t) || HasTicker(acc, t.name) then acc
    else match LocalEntry(t, cutoff, now)
      case None => acc
      case Some(e) => acc + [e]
  }

  /** The local pass over the results directory, starting from the entries `acc` already found. */
  function MergeLocal(acc: seq<HistoryItem>, dirs: seq<TickerDir>, cutoff: Moment, now: Moment): seq<HistoryItem>
    decreases |dirs|
  {
    if |dirs| == 0 then acc else MergeLocal(LocalStep(acc, dirs[0], cutoff, now), dirs[1..], cutoff, now)
  }

  /**
   * The local pass only appends, each addition is a directory's local entry
   * for a ticker not yet listed, so it keeps the tickers distinct.
   */
  lemma {:induction false} MergeLocalAppends(acc: seq<HistoryItem>, dirs: seq<TickerDir>, cutoff: Moment, now: Moment)
    ensures acc <= MergeLocal(acc, dirs, cutoff, now)
    ensures forall e :: e in MergeLocal(acc, dirs, cutoff, now) ==>
              e in acc || exists t :: t in dirs && LocalEntry(t, cutoff, now) == Some(e)
    ensures DistinctBy(acc, ItemTicker) ==> DistinctBy(MergeLocal(acc, dirs, cutoff, now), ItemTicker)
    decreases |dirs|
  {
    if |dirs| > 0 {
      var t := dirs[0];
      var next := LocalStep(acc, t, cutoff, now);
      MergeLocalAppends(next, dirs[1..], cutoff, now);
      assert acc <= next;
      forall e | e in MergeLocal(acc, dirs, cutoff, now)
        ensures e in acc || exists t :: t in dirs && LocalEntry(t, cutoff, now) == Some(e)
      {
        if e !in acc && e in next {
          assert LocalEntry(t, cutoff, now) == Some(e);
        } else if e !in next {
          var u :| u in dirs[1..] && LocalEntry(u, cutoff, now) == Some(e);
          assert u in dirs;
        }
      }
      if DistinctBy(acc, ItemTicker) && next != acc {
        forall k | 0 <= k < |acc|
          ensures acc[k].ticker != next[|acc|].ticker
        {
          assert !HasTicker(acc, t.name);
        }
      }
    }
  }

  function DirName(t: TickerDir): string { t.name }

  /** Dropping the first directory keeps the names distinct. */
  lemma DistinctTail(dirs: seq<TickerDir>)
    requires |dirs| > 0 && DistinctBy(dirs, DirName)
    ensures DistinctBy(dirs[1..], DirName)
  {
    forall a, b | 0 <= a < b < |dirs[1..]|
      ensures DirName(dirs[1..][a]) != DirName(dirs[1..][b])
    {
      assert dirs[1..][a] == dirs[a + 1] && dirs[1..][b] == dirs[b + 1];
    }
  }

  /**
   * Every ticker directory with a recent folder ends up listed: by its ticker
   * already being there, or by its own entry. The entries of a directory
   * listing have distinct names, so a ticker not listed before the pass
   * gets exactly its directory's entry.
   */
  lemma {:induction false} MergeLocalComplete(acc: seq<HistoryItem>, dirs: seq<TickerDir>, cutoff: Moment, now: Moment,
                                              t: TickerDir)
    requires t in dirs && LocalEntry(t, cutoff, now).Some?
    ensures HasTicker(MergeLocal(acc, dirs, cutoff, now), t.name)
    ensures DistinctBy(dirs, DirName) && !HasTicker(acc, t.name) ==>
              LocalEntry(t, cutoff, now).value in MergeLocal(acc, dirs, cutoff, now)
    decreases |dirs|
  {
    var next := LocalStep(acc, dirs[0], cutoff, now);
    var merged := MergeLocal(acc, dirs, cutoff, now);
    MergeLocalAppends(next, dirs[1..], cutoff, now);
    assert merged == MergeLocal(next, dirs[1..], cutoff, now);
    if dirs[0] == t {
      var e := LocalEntry(t, cutoff, now).value;
      if HasTicker(acc, t.name) {
        var k :| 0 <= k < |acc| && acc[k].ticker == t.name;
        assert next == acc && merged[k] == acc[k];
      } else {
        assert next == acc + [e] && merged[|acc|] == e;
      }
    } else {
      assert t in dirs[1..];
      MergeLocalComplete(next, dirs[1..], cutoff, now, t);
      if DistinctBy(dirs, DirName) && !HasTicker(acc, t.name) {
        var j :| 0 <= j < |dirs| && dirs[j] == t;
        assert DirName(dirs[0]) != DirName(dirs[j]);
        DistinctTail(dirs);
        assert !HasTicker(next, t.name) by {
          forall k | 0 <= k < |next|
            ensures next[k].ticker != t.name
          {
            if k < |acc| {
              assert next[k] == acc[k];
            }
          }
        }
      }
    }
  }

  /** A local entry is at most `days` days old: its folder is on or after the cutoff. */
  lemma LocalEntryRecent(t: TickerDir, now: Moment, days: int)
    requires ValidMoment(now) && LocalEntry(t, Cutoff(now, days), now).Some?
    ensures LocalEntry(t, Cutoff(now, days), now).value.daysAgo <= days
  {
    var d := t.dates.value[FirstRecentDate(t.dates.value, Cutoff(now, days)).value];
    RecentIsWithinThreshold(now, days, d);
  }

  /** What `get_recently_analyzed_stocks` returns. */
  datatype AnalysisHistory = AnalysisHistory(recentlyAnalyzed: seq<HistoryItem>, daysThreshold: int, totalCount: int)

  /** The merged, sorted history for S3 history `s3` (None when fetching it raises) and local listing `listing`. */
  function MergedHistory(s3: Option<S3History>, listing: Option<seq<TickerDir>>, now: Moment, days: int): seq<HistoryItem> {
    SortDesc(MergeLocal(S3Entries(s3.GetOr([]), now), listing.GetOr([]), Cutoff(now, days), now), ItemDate)
  }

  /** The merged history is newest first and, since dict keys are distinct, one entry per ticker. */
  lemma MergedHistoryShape(s3: Option<S3History>, listing: Option<seq<TickerDir>>, now: Moment, days: int)
    requires s3.Some? ==> DistinctKeys(s3.value)
    ensures SortedDesc(MergedHistory(s3, listing, now, days), ItemDate)
    ensures DistinctBy(MergedHistory(s3, listing, now, days), ItemTicker)
  {
    var cutoff := Cutoff(now, days);
    var fromS3 := S3Entries(s3.GetOr([]), now);
    S3EntriesFromKeys(s3.GetOr([]), now);
    MergeLocalAppends(fromS3, listing.GetOr([]), cutoff, now);
    var merged := MergeLocal(fromS3, listing.GetOr([]), cutoff, now);
    SortDescSorted(merged, ItemDate);
    SortDescDistinct(merged, ItemDate, ItemTicker);
  }

  /**
   * Every entry of the merged history is an S3 key's entry or a ticker
   * directory's local entry, and the local ones are within the threshold.
   */
  lemma MergedHistoryEntries(s3: Option<S3History>, listing: Option<seq<TickerDir>>, now: Moment, days: int,
                             e: HistoryItem)
    requires ValidMoment(now) && e in MergedHistory(s3, listing, now, days)
    ensures (s3.Some? && exists i :: 0 <= i < |s3.value| && S3Entry(s3.value[i].0, s3.value[i].1, now) == Some(e))
            || (exists t :: t in listing.GetOr([]) && LocalEntry(t, Cutoff(now, days), now) == Some(e)
                            && e.daysAgo <= days)
  {
    var cutoff := Cutoff(now, days);
    var fromS3 := S3Entries(s3.GetOr([]), now);
    S3EntriesFromKeys(s3.GetOr([]), now);
    MergeLocalAppends(fromS3, listing.GetOr([]), cutoff, now);
    var merged := MergeLocal(fromS3, listing.GetOr([]), cutoff, now);
    SortDescSameMembers(merged, ItemDate, e);
    if e !in fromS3 {
      var t :| t in listing.GetOr([]) && LocalEntry(t, cutoff, now) == Some(e);
      LocalEntryRecent(t, now, days);
    }
  }

  /** Every S3 key whose first date parses has its entry in the merged history. */
  lemma MergedHistoryHasS3Keys(s3: Option<S3History>, listing: Option<seq<TickerDir>>, now: Moment, days: int, i: nat)
    requires s3.Some? && i < |s3.value| && S3Entry(s3.value[i].0, s3.value[i].1, now).Some?
    ensures S3Entry(s3.value[i].0, s3.value[i].1, now).value in MergedHistory(s3, listing, now, days)
  {
    var e := S3Entry(s3.value[i].0, s3.value[i].1, now).value;
    var fromS3 := S3Entries(s3.value, now);
    S3EntriesComplete(s3.value, now, i);
    MergeLocalAppends(fromS3, listing.GetOr([]), Cutoff(now, days), now);
    var merged := MergeLocal(fromS3, listing.GetOr([]), Cutoff(now, days), now);
    assert e in merged;
    SortDescSameMembers(merged, ItemDate, e);
  }

  /**
   * Every ticker directory with a folder within the threshold is in the
   * merged history under its ticker; when S3 has no entry for that ticker,
   * and the listing's names are distinct, it is there with its own entry.
   */
  lemma MergedHistoryHasLocalDirs(s3: Option<S3History>, listing: Option<seq<TickerDir>>, now: Moment, days: int,
                                  t: TickerDir)
    requires t in listing.GetOr([]) && LocalEntry(t, Cutoff(now, days), now).Some?
    ensures HasTicker(MergedHistory(s3, listing, now, days), t.name)
    ensures (&& DistinctBy(listing.GetOr([]), DirName)
             && (forall i :: 0 <= i < |s3.GetOr([])| && s3.GetOr([])[i].0 == t.name ==>
                   S3Entry(s3.GetOr([])[i].0, s3.GetOr([])[i].1, now).None?)) ==>
              LocalEntry(t, Cutoff(now, days), now).value in MergedHistory(s3, listing, now, days)
  {
    var cutoff := Cutoff(now, days);
    var fromS3 := S3Entries(s3.GetOr([]), now);
    var merged := MergeLocal(fromS3, listing.GetOr([]), cutoff, now);
    var sorted := MergedHistory(s3, listing, now, days);
    MergeLocalComplete(fromS3, listing.GetOr([]), cutoff, now, t);
    var k :| 0 <= k < |merged| && merged[k].ticker == t.name;
    SortDescSameMembers(merged, ItemDate, merged[k]);
    var m :| 0 <= m < |sorted| && sorted[m] == merged[k];
    if && DistinctBy(listing.GetOr([]), DirName)
       && (forall i :: 0 <= i < |s3.GetOr([])| && s3.GetOr([])[i].0 == t.name ==>
             S3Entry(s3.GetOr([])[i].0, s3.GetOr([])[i].1, now).None?) {
      S3EntriesFromKeys(s3.GetOr([]), now);
      assert !HasTicker(fromS3, t.name) by {
        forall j | 0 <= j < |fromS3|
          ensures fromS3[j].ticker != t.name
        {
          assert fromS3[j] in fromS3;
        }
      }
      SortDescSameMembers(merged, ItemDate, LocalEntry(t, cutoff, now).value);
    }
  }

  /**
   * A failed S3 fetch is swallowed and leaves only local entries. The S3
   * client of this repository has no history method, so this is every run.
   */
  lemma FailedS3LeavesLocal(listing: Option<seq<TickerDir>>, now: Moment, days: int, e: HistoryItem)
    requires e in MergedHistory(None, listing, now, days)
    ensures e.source == Some("Local")
    ensures exists t :: t in listing.GetOr([]) && IsTickerDir(t) && t.name == e.ticker
  {
    var cutoff := Cutoff(now, days);
    var merged := MergeLocal([], listing.GetOr([]), cutoff, now);
    assert S3Entries(None.GetOr([]), now) == [];
    assert MergedHistory(None, listing, now, days) == SortDesc(merged, ItemDate);
    MergeLocalAppends([], listing.GetOr([]), cutoff, now);
    SortDescSameMembers(merged, ItemDate, e);
    var t :| t in listing.GetOr([]) && LocalEntry(t, cutoff, now) == Some(e);
    assert IsTickerDir(t) && e.ticker == t.name;
  }

  // ---------------------------------------------------------------------
  // The helpers object

  class PortfolioHelpers {
    var resultsDir: string
    var webSearchesUsed: int
    var maxWebSearches: int
    var webSearchEnabled: bool

    /** A fresh helper: no searches used, one allowed, searching enabled. */
    constructor(resultsDir: string)
      ensures this.resultsDir == resultsDir
      ensures webSearchesUsed == 0 && maxWebSearches == 1 && webSearchEnabled
    {
      this.resultsDir := resultsDir;
      webSearchesUsed := 0;
      maxWebSearches := 1;
      webSearchEnabled := true;
    }

    /** `set_web_search_config`: replaces both settings; the count of searches used is kept. */
    method SetWebSearchConfig(enabled: bool, maxSearches: int)
      modifies this`webSearchEnabled, this`maxWebSearches
      ensures webSearchEnabled == enabled && maxWebSearches == maxSearches
    {
      webSearchEnabled := enabled;
      maxWebSearches := maxSearches;
    }

    /**
     * `perform_web_search`: a disabled search or one over the limit changes
     * nothing; otherwise the counter moves before the search runs, whether
     * it returns results or raises. A count within the limit stays within it.
     */
    method PerformWebSearch(outcome: SearchOutcome) returns (reply: SearchReply)
      modifies this`webSearchesUsed
      ensures SearchStep(webSearchesUsed, reply)
              == Search(webSearchEnabled, old(webSearchesUsed), maxWebSearches, outcome)
      ensures old(webSearchesUsed) <= maxWebSearches ==> webSearchesUsed <= maxWebSearches
      ensures webSearchesUsed == old(webSearchesUsed) || webSearchesUsed == old(webSearchesUsed) + 1
    {
      var step := Search(webSearchEnabled, webSearchesUsed, maxWebSearches, outcome);
      webSearchesUsed := step.used;
      reply := step.reply;
    }

    /**
     * `get_recently_analyzed_stocks`: the S3 pass, then the local pass over
     * the results directory (None when it does not exist), newest first by
     * date string. `now` is `datetime.now()`.
     */
    method GetRecentlyAnalyzedStocks(s3: Option<S3History>, listing: Option<seq<TickerDir>>, now: Moment, days: int)
      returns (history: AnalysisHistory)
      ensures history.recentlyAnalyzed == MergedHistory(s3, listing, now, days)
      ensures history.daysThreshold == days
      ensures history.totalCount == |history.recentlyAnalyzed|
    {
      var recentlyAnalyzed: seq<HistoryItem> := [];
      if s3.Some? {
        recentlyAnalyzed := CollectS3(s3.value, now);
      }
      if listing.Some? {
        recentlyAnalyzed := ScanLocal(recentlyAnalyzed, listing.value, Cutoff(now, days), now);
      }
      recentlyAnalyzed := SortDesc(recentlyAnalyzed, ItemDate);
      history := AnalysisHistory(recentlyAnalyzed, days, |recentlyAnalyzed|);
    }
  }

  /** The S3 loop: one entry per key whose first date parses. */
  method CollectS3(s3: S3History, now: Moment) returns (items: seq<HistoryItem>)
    ensures items == S3Entries(s3, now)
  {
    items := [];
    var i := 0;
    while i < |s3|
      invariant 0 <= i <= |s3|
      invariant items == S3Entries(s3[..i], now)
    {
      var (ticker, dateList) := s3[i];
      assert s3[..i + 1][..i] == s3[..i];
      if |dateList| > 0 {
        var mostRecent := dateList[0];
        match ParseIsoDate(mostRecent) {
          case None =>
          case Some(d) =>
            items := items + [HistoryItem(ticker, mostRecent, DaysBetween(now, Midnight(d)), Some("S3"))];
        }
      }
      i := i + 1;
    }
    assert s3[..i] == s3;
  }

  /** The inner loop of the local pass: the first date folder on or after the cutoff. */
  method FirstRecentFolder(dates: seq<DateDir>, cutoff: Moment) returns (k: Option<nat>)
    ensures k == FirstRecentDate(dates, cutoff)
  {
    FirstRecentDateMeans(dates, cutoff);
    var j := 0;
    while j < |dates|
      invariant 0 <= j <= |dates|
      invariant forall i :: 0 <= i < j ==> !IsRecentDateDir(dates[i], cutoff)
    {
      var d := dates[j];
      if d.isDir {
        match ParseIsoDate(d.name) {
          case None =>
          case Some(folderDate) =>
            if Seconds(Midnight(folderDate)) >= Seconds(cutoff) {
              return Some(j);
            }
        }
      }
      j := j + 1;
    }
    return None;
  }

  /** The outer loop of the local pass. */
  method ScanLocal(acc: seq<HistoryItem>, dirs: seq<TickerDir>, cutoff: Moment, now: Moment)
    returns (items: seq<HistoryItem>)
    ensures items == MergeLocal(acc, dirs, cutoff, now)
  {
    items := acc;
    var i := 0;
    while i < |dirs|
      invariant 0 <= i <= |dirs|
      invariant MergeLocal(items, dirs[i..], cutoff, now) == MergeLocal(acc, dirs, cutoff, now)
    {
      var t := dirs[i];
      assert dirs[i..][1..] == dirs[i + 1..];
      var listed := exists k :: 0 <= k < |items| && items[k].ticker == t.name;
      if t.isDir && t.name != ManagerDirName && !listed && t.dates.Some? {
        var found := FirstRecentFolder(t.dates.value, cutoff);
        if found.Some? {
          var d := t.dates.value[found.value];
          items := items + [HistoryItem(t.name, d.name, DaysAgo(now, d), Some("Local"))];
        }
      }
      i := i + 1;
    }
  }
}
