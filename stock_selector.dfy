/**
 * The stock selector: the search query, the exclusion sets built from the
 * analysis history, the filtering (and single retry) of the LLM's choice,
 * the freshness buckets of the selection prompt, and the ticker words
 * pulled out of the market context.
 */
module StockSelector {
  import opened Common
  import opened WebSearch

  // ---------------------------------------------------------------------
  // The search query

  /** `build_market_search_query`: the orchestrator's query shape with the selector's clause. */
  function BuildMarketSearchQuery(positions: seq<Option<string>>, orders: seq<Option<string>>): (q: string)
    ensures q == Join(QueryParts(positions, orders, SelectorOpportunities), " | ")
    ensures StartsWith(q, GeneralClause)
  {
    QueryStartsWithGeneral(positions, orders, SelectorOpportunities);
    BuildQuery(positions, orders, SelectorOpportunities)
  }

  // ---------------------------------------------------------------------
  // The exclusion sets

  /** An entry of `recent_analysis['recently_analyzed']`; `source` may be absent. */
  datatype HistoryItem = HistoryItem(ticker: string, date: string, daysAgo: int, source: Option<string>)

  /** Tickers analysed fewer than 14 days ago are "recent". */
  const RecentDays: int := 14
  /** Tickers analysed fewer than 3 days ago are excluded. */
  const ExcludeDays: int := 3

  /** The tickers of the entries fewer than `days` days old. */
  function TickersWithin(items: seq<HistoryItem>, days: int): set<string> {
    set k | 0 <= k < |items| && items[k].daysAgo < days :: items[k].ticker
  }

  lemma TickersWithinSnoc(items: seq<HistoryItem>, x: HistoryItem, days: int)
    ensures TickersWithin(items + [x], days)
            == TickersWithin(items, days) + (if x.daysAgo < days then {x.ticker} else {})
  {
    var s := items + [x];
    forall t | t in TickersWithin(s, days)
      ensures t in TickersWithin(items, days) + (if x.daysAgo < days then {x.ticker} else {})
    {
      var k :| 0 <= k < |s| && s[k].daysAgo < days && s[k].ticker == t;
      if k < |items| { assert items[k] == s[k]; }
    }
    forall t | t in TickersWithin(items, days)
      ensures t in TickersWithin(s, days)
    {
      var k :| 0 <= k < |items| && items[k].daysAgo < days && items[k].ticker == t;
      assert s[k] == items[k];
    }
    if x.daysAgo < days {
      assert s[|items|] == x;
    }
  }

  /**
   * `_build_exclusion_list`: one pass over the history adding each ticker to
   * the recent set when under 14 days old and to the exclusion set when
   * under 3 days old. A missing or empty history gives two empty sets.
   */
  method BuildExclusionList(items: seq<HistoryItem>) returns (exclude: set<string>, recent: set<string>)
    ensures exclude == TickersWithin(items, ExcludeDays)
    ensures recent == TickersWithin(items, RecentDays)
    ensures exclude <= recent
  {
    exclude, recent := {}, {};
    var i := 0;
    while i < |items|
      invariant 0 <= i <= |items|
      invariant exclude == TickersWithin(items[..i], ExcludeDays)
      invariant recent == TickersWithin(items[..i], RecentDays)
      invariant exclude <= recent
    {
      var ra := items[i];
      TickersWithinSnoc(items[..i], ra, ExcludeDays);
      TickersWithinSnoc(items[..i], ra, RecentDays);
      assert items[..i + 1] == items[..i] + [ra];
      if ra.daysAgo < RecentDays {
        recent := recent + {ra.ticker};
      }
      if ra.daysAgo < ExcludeDays {
        exclude := exclude + {ra.ticker};
      }
      i := i + 1;
    }
    assert items[..i] == items;
  }

  /** The exclusion rule, entry by entry: an excluded ticker has an entry under 3 days old, and conversely. */
  lemma ExcludedMeans(items: seq<HistoryItem>, t: string)
    ensures t in TickersWithin(items, ExcludeDays) <==>
              exists k :: 0 <= k < |items| && items[k].ticker == t && items[k].daysAgo < ExcludeDays
  {
    if exists k :: 0 <= k < |items| && items[k].ticker == t && items[k].daysAgo < ExcludeDays {
      var k :| 0 <= k < |items| && items[k].ticker == t && items[k].daysAgo < ExcludeDays;
      assert items[k].ticker in TickersWithin(items, ExcludeDays);
    }
  }

  // ---------------------------------------------------------------------
  // The selection

  /** `[s for s in stocks if s not in stocks_to_exclude]`. */
  function NotExcluded(stocks: seq<string>, exclude: set<string>): (r: seq<string>)
    ensures |r| <= |stocks|
    ensures forall i :: 0 <= i < |r| ==> r[i] in stocks && r[i] !in exclude
    ensures forall i :: 0 <= i < |stocks| && stocks[i] !in exclude ==> stocks[i] in r
  {
    Filter(stocks, s => s !in exclude)
  }

  /**
   * The first selection had tickers and the filter removed every one of
   * them: the only case in which the selector asks the LLM again.
   */
  predicate RetryNeeded(first: Option<string>, decode: string -> Option<seq<JsonItem>>, exclude: set<string>) {
    ParsedItems(first, decode).Some?
    && var original := UpperStrings(ParsedItems(first, decode).value);
       |original| > |NotExcluded(original, exclude)| && |NotExcluded(original, exclude)| == 0 && |original| > 0
  }

  /** The retry is asked for exactly when the first choice was non-empty and wholly excluded. */
  lemma RetryNeededMeans(first: Option<string>, decode: string -> Option<seq<JsonItem>>, exclude: set<string>)
    ensures RetryNeeded(first, decode, exclude) <==>
              ParsedItems(first, decode).Some?
              && |UpperStrings(ParsedItems(first, decode).value)| > 0
              && forall i :: 0 <= i < |UpperStrings(ParsedItems(first, decode).value)| ==>
                   UpperStrings(ParsedItems(first, decode).value)[i] in exclude
  {
    if ParsedItems(first, decode).Some? {
      var original := UpperStrings(ParsedItems(first, decode).value);
      var kept := NotExcluded(original, exclude);
      if |kept| > 0 {
        assert kept[0] in original && kept[0] !in exclude;
      }
    }
  }

  /**
   * The stocks `decide_stocks_to_analyze` returns. `first` and `retry` are
   * the two LLM replies (None when the call raises), `decode` is
   * `json.loads` (None when it raises). The string elements are
   * upper-cased and the excluded ones dropped; when that empties a
   * non-empty choice the retry reply is parsed the same way, and a retry
   * without a `[`…`]` span leaves the empty choice. No span in the first
   * reply, or any failure, gives []. The result is cut by
   * `[:max_analyses]`.
   */
  function DecideStocksToAnalyze(first: Option<string>, retry: Option<string>,
                                 decode: string -> Option<seq<JsonItem>>,
                                 exclude: set<string>, maxAnalyses: int): (r: seq<string>)
    ensures maxAnalyses >= 0 ==> |r| <= maxAnalyses
    ensures forall i :: 0 <= i < |r| ==> r[i] !in exclude
    ensures ParsedItems(first, decode).None? ==> r == []
    ensures !RetryNeeded(first, decode, exclude) && ParsedItems(first, decode).Some? ==>
              r == PyHead(NotExcluded(UpperStrings(ParsedItems(first, decode).value), exclude), maxAnalyses)
    ensures RetryNeeded(first, decode, exclude) ==>
              r == if ParsedItems(retry, decode).None? then []
                   else PyHead(NotExcluded(UpperStrings(ParsedItems(retry, decode).value), exclude), maxAnalyses)
  {
    match ParsedItems(first, decode)
    case None => []
    case Some(items) =>
      var original := UpperStrings(items);
      var selected := NotExcluded(original, exclude);
      var chosen :=
        if |original| > |selected| && |selected| == 0 && |original| > 0 then
          match ParsedItems(retry, decode)
          case None => []
          case Some(retryItems) => NotExcluded(UpperStrings(retryItems), exclude)
        else selected;
      PyHead(chosen, maxAnalyses)
  }

  /** Every stock returned was chosen by one of the two replies, upper-cased. */
  lemma SelectionComesFromReplies(first: Option<string>, retry: Option<string>,
                                  decode: string -> Option<seq<JsonItem>>, exclude: set<string>,
                                  maxAnalyses: int, i: int)
    requires 0 <= i < |DecideStocksToAnalyze(first, retry, decode, exclude, maxAnalyses)|
    ensures var r := DecideStocksToAnalyze(first, retry, decode, exclude, maxAnalyses);
            exists s :: Upper(s) == r[i] &&
              ((ParsedItems(first, decode).Some? && JsonString(s) in ParsedItems(first, decode).value)
               || (ParsedItems(retry, decode).Some? && JsonString(s) in ParsedItems(retry, decode).value))
  {
    var r := DecideStocksToAnalyze(first, retry, decode, exclude, maxAnalyses);
    var reply := if RetryNeeded(first, decode, exclude) then retry else first;
    var items := ParsedItems(reply, decode).value;
    var all := UpperStrings(items);
    var kept := NotExcluded(all, exclude);
    assert r <= kept;
    assert r[i] == kept[i];
    var k :| 0 <= k < |all| && all[k] == r[i];
    assert JsonString(StringsOf(items)[k]) in items;
    assert Upper(StringsOf(items)[k]) == r[i];
  }

  // ---------------------------------------------------------------------
  // History buckets

  /** The three groups of the history section of the selection prompt. */
  datatype Freshness = VeryRecent | Recent | Older

  /** `<= 2` days very recent, `<= 6` recent, anything else older. */
  function FreshnessOf(daysAgo: int): Freshness {
    if daysAgo <= 2 then VeryRecent else if daysAgo <= 6 then Recent else Older
  }

  /** `item.get('source', 'Unknown')`. */
  function SourceLabel(item: HistoryItem): string {
    item.source.GetOr("Unknown")
  }

  /** The entries of bucket `b`, in history order. */
  function InBucket(items: seq<HistoryItem>, b: Freshness): seq<HistoryItem> {
    if |items| == 0 then []
    else
      var last := items[|items| - 1];
      InBucket(items[..|items| - 1], b) + (if FreshnessOf(last.daysAgo) == b then [last] else [])
  }

  /**
   * The grouping loop of `_build_selection_prompt`: each entry goes into
   * exactly one of the three lists, in history order.
   */
  method GroupByFreshness(items: seq<HistoryItem>)
    returns (veryRecent: seq<HistoryItem>, recent: seq<HistoryItem>, older: seq<HistoryItem>)
    ensures veryRecent == InBucket(items, VeryRecent)
    ensures recent == InBucket(items, Recent)
    ensures older == InBucket(items, Older)
    ensures multiset(veryRecent) + multiset(recent) + multiset(older) == multiset(items)
  {
    veryRecent, recent, older := [], [], [];
    var i := 0;
    while i < |items|
      invariant 0 <= i <= |items|
      invariant veryRecent == InBucket(items[..i], VeryRecent)
      invariant recent == InBucket(items[..i], Recent)
      invariant older == InBucket(items[..i], Older)
    {
      var item := items[i];
      assert items[..i + 1] == items[..i] + [item];
      assert items[..i + 1][..i] == items[..i];
      if item.daysAgo <= 2 {
        veryRecent := veryRecent + [item];
      } else if item.daysAgo <= 6 {
        recent := recent + [item];
      } else {
        older := older + [item];
      }
      i := i + 1;
    }
    assert items[..i] == items;
    BucketsCover(items);
  }

  /** Bucket `b` holds `e` as often as the history does when `e` belongs to it, and never otherwise. */
  lemma {:induction false} BucketCount(items: seq<HistoryItem>, e: HistoryItem, b: Freshness)
    ensures multiset(InBucket(items, b))[e] == if FreshnessOf(e.daysAgo) == b then multiset(items)[e] else 0
  {
    if |items| > 0 {
      var init := items[..|items| - 1];
      BucketCount(init, e, b);
      assert items == init + [items[|items| - 1]];
    }
  }

  /** Together the three buckets hold each entry exactly as often as the history does. */
  lemma BucketsCover(items: seq<HistoryItem>)
    ensures multiset(InBucket(items, VeryRecent)) + multiset(InBucket(items, Recent)) + multiset(InBucket(items, Older))
            == multiset(items)
  {
    forall e
      ensures (multiset(InBucket(items, VeryRecent)) + multiset(InBucket(items, Recent))
               + multiset(InBucket(items, Older)))[e] == multiset(items)[e]
    {
      BucketCount(items, e, VeryRecent);
      BucketCount(items, e, Recent);
      BucketCount(items, e, Older);
    }
  }

  /** The buckets partition the history: an entry appears in its own bucket and in no other. */
  lemma {:induction false} BucketsPartition(items: seq<HistoryItem>, e: HistoryItem, b: Freshness)
    ensures e in InBucket(items, b) <==> e in items && FreshnessOf(e.daysAgo) == b
  {
    if |items| > 0 {
      var init := items[..|items| - 1];
      BucketsPartition(init, e, b);
      assert items == init + [items[|items| - 1]];
    }
  }

  // ---------------------------------------------------------------------
  // Ticker words

  /** The length of the run of word characters `s` starts with. */
  function WordLength(s: string): (n: nat)
    ensures n <= |s|
    ensures forall i :: 0 <= i < n ==> IsWordChar(s[i])
    ensures n < |s| ==> !IsWordChar(s[n])
  {
    if |s| == 0 || !IsWordChar(s[0]) then 0 else 1 + WordLength(s[1..])
  }

  /** Two to five capital letters: what `[A-Z]{2,5}` matches. */
  predicate IsTickerWord(w: string) {
    2 <= |w| <= 5 && forall i :: 0 <= i < |w| ==> IsUpperChar(w[i])
  }

  /** `w` occurs at `k` with a word boundary on either side. */
  predicate WholeWordAt(text: string, w: string, k: int) {
    0 <= k && k + |w| <= |text| && text[k..k + |w|] == w
    && (k == 0 || !IsWordChar(text[k - 1]))
    && (k + |w| == |text| || !IsWordChar(text[k + |w|]))
  }

  /**
   * `re.findall(r'\b[A-Z]{2,5}\b', text)`: scanning left to right, the
   * maximal runs of word characters that consist of two to five capital
   * letters (a run of six capitals, or one with a digit, yields nothing).
   */
  function FindTickerWords(text: string): (r: seq<string>)
    ensures forall i :: 0 <= i < |r| ==> IsTickerWord(r[i])
    decreases |text|
  {
    if |text| == 0 then []
    else if !IsWordChar(text[0]) then FindTickerWords(text[1..])
    else
      var n := WordLength(text);
      (if IsTickerWord(text[..n]) then [text[..n]] else []) + FindTickerWords(text[n..])
  }

  /** A whole word of a suffix is a whole word of the text, unless it opens the suffix after a word character. */
  lemma WholeWordShift(text: string, j: int, w: string, k: int)
    requires 0 < j <= |text| && WholeWordAt(text[j..], w, k)
    requires k == 0 ==> !IsWordChar(text[j - 1])
    ensures WholeWordAt(text, w, k + j)
  {
    assert text[k + j..k + j + |w|] == text[j..][k..k + |w|];
    if k > 0 {
      assert text[k + j - 1] == text[j..][k - 1];
    }
  }

  /** Every word found stands in the text between word boundaries. */
  lemma {:induction false} FoundWordsAreWholeWords(text: string, w: string)
    requires w in FindTickerWords(text)
    ensures IsTickerWord(w) && exists k :: WholeWordAt(text, w, k)
    decreases |text|
  {
    if !IsWordChar(text[0]) {
      FoundWordsAreWholeWords(text[1..], w);
      var k :| WholeWordAt(text[1..], w, k);
      WholeWordShift(text, 1, w, k);
    } else {
      var n := WordLength(text);
      if IsTickerWord(text[..n]) && w == text[..n] {
        assert WholeWordAt(text, w, 0);
      } else {
        var rest := text[n..];
        assert w in FindTickerWords(rest);
        FoundWordsAreWholeWords(rest, w);
        var k :| WholeWordAt(rest, w, k);
        assert IsWordChar(w[0]) && rest[k] == w[0];
        assert !IsWordChar(rest[0]);
        WholeWordShift(text, n, w, k);
      }
    }
  }

  /** And every ticker word standing between word boundaries is found. */
  lemma {:induction false} WholeWordsAreFound(text: string, w: string, k: int)
    requires IsTickerWord(w) && WholeWordAt(text, w, k)
    ensures w in FindTickerWords(text)
    decreases |text|
  {
    assert text[k] == w[0];
    if !IsWordChar(text[0]) {
      assert k > 0;
      assert text[1..][k - 1..k - 1 + |w|] == text[k..k + |w|];
      assert WholeWordAt(text[1..], w, k - 1);
      WholeWordsAreFound(text[1..], w, k - 1);
    } else {
      var n := WordLength(text);
      if k == 0 {
        assert forall i :: 0 <= i < |w| ==> text[i] == w[i] && IsWordChar(text[i]);
        assert n == |w|;
        assert text[..n] == w;
      } else {
        assert k - 1 >= n;
        var rest := text[n..];
        assert rest[k - n..k - n + |w|] == text[k..k + |w|];
        assert rest[k - n - 1] == text[k - 1];
        assert WholeWordAt(rest, w, k - n);
        WholeWordsAreFound(rest, w, k - n);
      }
    }
  }

  const CommonWords: set<string> := {
    "THE", "AND", "FOR", "ARE", "NOT", "BUT", "WITH",
    "FROM", "THIS", "THAT", "NYSE", "NASDAQ", "ETF", "IPO", "CEO", "CFO"
  }

  /**
   * The "potential tickers" line of the selection prompt: the ticker words
   * of the first 3000 characters, common words dropped,
   * `list(dict.fromkeys(...))[:20]`.
   */
  function PotentialTickers(marketContext: string): (r: seq<string>)
    ensures |r| <= 20 && NoDups(r)
    ensures forall i :: 0 <= i < |r| ==>
              IsTickerWord(r[i]) && r[i] !in CommonWords && r[i] in FindTickerWords(Take(marketContext, 3000))
    ensures |r| < 20 ==> forall w :: w in FindTickerWords(Take(marketContext, 3000)) && w !in CommonWords ==> w in r
  {
    var found := FindTickerWords(Take(marketContext, 3000));
    var kept := Filter(found, (t: string) => t !in CommonWords && |t| <= 5);
    var unique := Dedupe(kept);
    var r := Take(unique, 20);
    assert forall i :: 0 <= i < |r| ==> r[i] == unique[i];
    assert forall i :: 0 <= i < |r| ==> r[i] in kept;
    r
  }

  /**
   * The "potential tickers" line of the retry prompt: as above over the
   * first 2000 characters, with the excluded tickers dropped too, at most 15.
   */
  function RetryTickers(marketContext: string, exclude: set<string>): (r: seq<string>)
    ensures |r| <= 15 && NoDups(r)
    ensures forall i :: 0 <= i < |r| ==>
              IsTickerWord(r[i]) && r[i] !in CommonWords && r[i] !in exclude
              && r[i] in FindTickerWords(Take(marketContext, 2000))
    ensures |r| < 15 ==> forall w :: w in FindTickerWords(Take(marketContext, 2000)) && w !in CommonWords && w !in exclude ==> w in r
  {
    var found := FindTickerWords(Take(marketContext, 2000));
    var kept := Filter(found, (t: string) => t !in CommonWords && t !in exclude && |t| <= 5);
    var unique := Dedupe(kept);
    var r := Take(unique, 15);
    assert forall i :: 0 <= i < |r| ==> r[i] == unique[i];
    assert forall i :: 0 <= i < |r| ==> r[i] in kept;
    r
  }
}
