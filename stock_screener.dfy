/**
 * The stock screener: a fixed pool of liquid tickers, minus those already
 * held, cut to `max_screener_picks`.
 */
module StockScreener {
  import opened Common

  /** The hard-coded candidate pool; "SNOW" and "DDOG" are listed twice. */
  const CandidatePool: seq<string> := [
    "AAPL", "MSFT", "GOOGL", "AMZN", "META", "NVDA", "TSLA",
    "AMD", "INTC", "ORCL", "ADBE", "CRM", "NFLX", "CSCO",
    "JPM", "BAC", "GS", "MS", "WFC", "C", "BLK", "SCHW",
    "JNJ", "UNH", "PFE", "ABBV", "TMO", "MRK", "ABT", "LLY",
    "WMT", "HD", "DIS", "NKE", "SBUX", "MCD", "TGT", "COST",
    "BA", "CAT", "GE", "HON", "MMM", "UPS", "LMT", "RTX",
    "T", "VZ", "CMCSA",
    "XOM", "CVX", "COP", "SLB",
    "AVGO", "QCOM", "TXN", "AMAT", "MU",
    "PLTR", "SNOW", "DDOG", "CRWD", "ZS",
    "SHOP", "ETSY", "EBAY",
    "GILD", "BIIB", "REGN", "VRTX",
    "F", "GM", "RIVN", "LCID",
    "SNOW", "NET", "DDOG", "MDB"
  ]

  /** `config.get('max_screener_picks', 3)`. */
  function MaxPicks(configured: Option<int>): int { configured.GetOr(3) }

  /**
   * An order `list(set(candidate_pool))` may yield: each candidate once.
   * Python promises no particular one, so the screener is modelled for all.
   */
  predicate IsPoolOrder(pool: seq<string>) {
    NoDups(pool)
    && (forall i :: 0 <= i < |pool| ==> pool[i] in CandidatePool)
    && (forall i :: 0 <= i < |CandidatePool| ==> CandidatePool[i] in pool)
  }

  /**
   * `screen_opportunities(existing_tickers)` for the set order `pool`: None
   * or an empty list excludes nothing; the first `max_picks` remaining
   * candidates are returned.
   */
  function ScreenOpportunities(existing: Option<seq<string>>, maxPicks: int, pool: seq<string>): (r: seq<string>)
    requires IsPoolOrder(pool)
    ensures maxPicks >= 0 ==> |r| <= maxPicks
    ensures NoDups(r)
    ensures forall i :: 0 <= i < |r| ==> r[i] in CandidatePool && r[i] !in existing.GetOr([])
    ensures maxPicks >= 0 && |r| < maxPicks ==>
              forall t :: t in CandidatePool && t !in existing.GetOr([]) ==> t in r
  {
    var excluded := existing.GetOr([]);
    var candidates := Filter(pool, t => t !in excluded);
    FilterNoDups(pool, t => t !in excluded);
    var r := PyHead(candidates, maxPicks);
    assert forall i :: 0 <= i < |r| ==> r[i] == candidates[i];
    r
  }

  /** The list `list(set(...))` yields with first occurrences kept is one admissible order. */
  lemma DedupedPoolIsPoolOrder()
    ensures IsPoolOrder(Dedupe(CandidatePool))
  {
  }
}
