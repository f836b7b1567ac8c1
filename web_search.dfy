/**
 * The one web search of an iteration: the query the orchestrator and the
 * stock selector build from the portfolio, and the quota both search
 * handlers enforce.
 */
module WebSearch {
  import opened Common

  // ---------------------------------------------------------------------
  // The query

  const GeneralClause: string := "Current stock market conditions and major news"

  /** The opportunities clause of `_build_market_search_query`. */
  const OrchestratorOpportunities: string := "Top performing stocks with positive momentum"

  /** The opportunities clause of `build_market_search_query`. */
  const SelectorOpportunities: string :=
    "List specific stock tickers: 5-10 stocks with strong growth potential "
    + "and catalysts - undervalued companies with improving fundamentals, "
    + "upcoming catalysts, or emerging market opportunities"

  /** `p.get('symbol', '')`: a listed position or order without a symbol gives "". */
  function SymbolOr(symbol: Option<string>): string { symbol.GetOr("") }

  /** `[p.get('symbol', '') for p in positions[:3]]`. */
  function PositionTickers(positions: seq<Option<string>>): (r: seq<string>)
    ensures |r| <= 3 && |r| == |Take(positions, 3)|
    ensures forall i :: 0 <= i < |r| ==> r[i] == SymbolOr(positions[i])
  {
    var first := Take(positions, 3);
    seq(|first|, i requires 0 <= i < |first| => SymbolOr(first[i]))
  }

  /**
   * `list(set([o.get('symbol', '') for o in open_orders[:2]]))`. The order a
   * Python set yields is not fixed; the model takes first-occurrence order.
   */
  function OrderTickers(orders: seq<Option<string>>): (r: seq<string>)
    ensures |r| <= 2 && NoDups(r)
    ensures |orders| > 0 ==> |r| > 0
    ensures forall i :: 0 <= i < |r| ==> exists k :: 0 <= k < |orders| && k < 2 && r[i] == SymbolOr(orders[k])
    ensures forall k :: 0 <= k < |orders| && k < 2 ==> SymbolOr(orders[k]) in r
  {
    var first := Take(orders, 2);
    var symbols := seq(|first|, i requires 0 <= i < |first| => SymbolOr(first[i]));
    assert forall k :: 0 <= k < |symbols| ==> symbols[k] == SymbolOr(orders[k]);
    var r := Dedupe(symbols);
    assert |symbols| > 0 ==> symbols[0] in r;
    r
  }

  /**
   * The clauses of the query: the general clause always first, then the
   * positions clause when there are positions, the orders clause when there
   * are open orders, and `opportunities` when fewer than five positions are held.
   */
  function QueryParts(positions: seq<Option<string>>, orders: seq<Option<string>>, opportunities: string)
    : (parts: seq<string>)
    ensures |parts| == 1 + (if |positions| > 0 then 1 else 0) + (if |orders| > 0 then 1 else 0)
                         + (if |positions| < 5 then 1 else 0)
    ensures parts[0] == GeneralClause
    ensures |positions| > 0 ==> parts[1] == "Recent news on " + Join(PositionTickers(positions), ", ")
    ensures |orders| > 0 ==>
              parts[if |positions| > 0 then 2 else 1] == "Price movement and news on " + Join(OrderTickers(orders), ", ")
    ensures |positions| < 5 ==> parts[|parts| - 1] == opportunities
  {
    [GeneralClause]
    + (if |positions| > 0 then ["Recent news on " + Join(PositionTickers(positions), ", ")] else [])
    + (if |orders| > 0 then ["Price movement and news on " + Join(OrderTickers(orders), ", ")] else [])
    + (if |positions| < 5 then [opportunities] else [])
  }

  /** `" | ".join(query_parts)`. */
  function BuildQuery(positions: seq<Option<string>>, orders: seq<Option<string>>, opportunities: string): string {
    Join(QueryParts(positions, orders, opportunities), " | ")
  }

  /** A joined list starts with its first part. */
  lemma {:induction false} JoinStartsWithFirst(parts: seq<string>, sep: string)
    requires |parts| > 0
    ensures StartsWith(Join(parts, sep), parts[0])
  {
    if |parts| > 1 {
      assert Join(parts, sep) == parts[0] + (sep + Join(parts[1..], sep));
      assert Join(parts, sep)[..|parts[0]|] == parts[0];
    }
  }

  /** Whatever the portfolio, the query opens with the general market clause. */
  lemma QueryStartsWithGeneral(positions: seq<Option<string>>, orders: seq<Option<string>>, opportunities: string)
    ensures StartsWith(BuildQuery(positions, orders, opportunities), GeneralClause)
  {
    JoinStartsWithFirst(QueryParts(positions, orders, opportunities), " | ");
  }

  // ---------------------------------------------------------------------
  // The quota

  /** What `web_search_market_context.invoke` does: return the results or raise. */
  datatype SearchOutcome = SearchFound(results: string) | SearchRaised(error: string)

  datatype SearchReply =
    | SearchDisabled
    | SearchLimitReached(used: int, limit: int)
    | SearchResults(results: string)
    | SearchFailed(error: string)

  datatype SearchStep = SearchStep(used: int, reply: SearchReply)

  /**
   * One search request. The counter moves before the search runs, so a
   * search that raises still uses up quota; a disabled or refused search
   * leaves it alone.
   */
  function Search(enabled: bool, used: int, limit: int, outcome: SearchOutcome): (s: SearchStep)
    ensures !enabled ==> s == SearchStep(used, SearchDisabled)
    ensures enabled && used >= limit ==> s == SearchStep(used, SearchLimitReached(used, limit))
    ensures enabled && used < limit ==> s.used == used + 1
    ensures s.reply.SearchResults? <==> enabled && used < limit && outcome.SearchFound?
    ensures s.reply.SearchResults? ==> outcome == SearchFound(s.reply.results)
    ensures s.reply.SearchFailed? ==> outcome == SearchRaised(s.reply.error)
  {
    if !enabled then SearchStep(used, SearchDisabled)
    else if used >= limit then SearchStep(used, SearchLimitReached(used, limit))
    else match outcome
      case SearchFound(r) => SearchStep(used + 1, SearchResults(r))
      case SearchRaised(e) => SearchStep(used + 1, SearchFailed(e))
  }

  function RunSearches(enabled: bool, used: int, limit: int, outcomes: seq<SearchOutcome>): int
    decreases |outcomes|
  {
    if |outcomes| == 0 then used else RunSearches(enabled, Search(enabled, used, limit, outcomes[0]).used, limit, outcomes[1..])
  }

  /** However many searches are asked for, at most `limit - used` of them run. */
  lemma {:induction false} SearchesBounded(enabled: bool, used: int, limit: int, outcomes: seq<SearchOutcome>)
    requires used <= limit
    ensures used <= RunSearches(enabled, used, limit, outcomes) <= limit
    ensures !enabled ==> RunSearches(enabled, used, limit, outcomes) == used
    decreases |outcomes|
  {
    if |outcomes| > 0 {
      SearchesBounded(enabled, Search(enabled, used, limit, outcomes[0]).used, limit, outcomes[1..]);
    }
  }
}
