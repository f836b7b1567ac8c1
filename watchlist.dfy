/**
 * The watchlist of candidate tickers: a duplicate-free list the agent adds
 * to and removes from.
 */
module Watchlist {
  import opened Common

  /** `list.remove(x)`: the first occurrence of `x` goes, nothing else moves. */
  function RemoveFirst(s: seq<string>, x: string): (r: seq<string>)
    ensures x in s ==> |r| == |s| - 1
    ensures x !in s ==> r == s
    ensures forall y :: y != x ==> (y in r <==> y in s)
    ensures NoDups(s) ==> NoDups(r) && x !in r
  {
    if |s| == 0 then []
    else
      assert forall y :: y in s <==> y == s[0] || y in s[1..] by {
        forall y | y in s && y != s[0] ensures y in s[1..] {
          var k :| 0 <= k < |s| && s[k] == y;
          assert s[1..][k - 1] == y;
        }
      }
      if s[0] == x then s[1..]
      else
        var rest := RemoveFirst(s[1..], x);
        assert NoDups(s) ==> NoDups(s[1..]) && s[0] !in s[1..] && s[0] !in rest;
        assert forall i :: 1 <= i < |rest| + 1 ==> ([s[0]] + rest)[i] == rest[i - 1];
        [s[0]] + rest
  }

  /** Removing at the first position holding `x` is `RemoveFirst`. */
  lemma {:induction false} RemoveFirstAt(s: seq<string>, x: string, i: int)
    requires 0 <= i < |s| && s[i] == x && x !in s[..i]
    ensures RemoveFirst(s, x) == s[..i] + s[i + 1..]
  {
    if i > 0 {
      assert s[1..][..i - 1] == s[1..i];
      RemoveFirstAt(s[1..], x, i - 1);
      assert s[1..][i..] == s[i + 1..];
    }
  }

  class WatchlistManager {
    var watchlist: seq<string>

    /** The list never holds a ticker twice. */
    predicate Valid()
      reads this
    {
      NoDups(watchlist)
    }

    /**
     * `list(set(watchlist))`: each ticker of `initial` once. The order of a
     * Python set is not fixed; the model keeps first occurrences.
     */
    constructor(initial: seq<string>)
      ensures Valid()
      ensures forall t :: t in watchlist <==> t in initial
    {
      watchlist := Dedupe(initial);
    }

    /** `get_watchlist()`: the tickers, as a value the caller cannot use to change the manager. */
    method GetWatchlist() returns (r: seq<string>)
      requires Valid()
      ensures r == watchlist && NoDups(r)
    {
      r := watchlist;
    }

    /** `add_ticker`: appended when absent, otherwise nothing changes. */
    method AddTicker(ticker: string)
      requires Valid()
      modifies this
      ensures Valid()
      ensures ticker in watchlist
      ensures watchlist == if ticker in old(watchlist) then old(watchlist) else old(watchlist) + [ticker]
    {
      if ticker !in watchlist {
        watchlist := watchlist + [ticker];
      }
    }

    /** `remove_ticker`: a present ticker is removed, an absent one ignored; either way it is gone. */
    method RemoveTicker(ticker: string)
      requires Valid()
      modifies this
      ensures Valid()
      ensures ticker !in watchlist
      ensures watchlist == RemoveFirst(old(watchlist), ticker)
      ensures forall t :: t != ticker ==> (t in watchlist <==> t in old(watchlist))
    {
      var i := 0;
      while i < |watchlist| && watchlist[i] != ticker
        invariant 0 <= i <= |watchlist|
        invariant ticker !in watchlist[..i]
      {
        i := i + 1;
      }
      if i < |watchlist| {
        RemoveFirstAt(watchlist, ticker, i);
        watchlist := watchlist[..i] + watchlist[i + 1..];
      } else {
        assert watchlist[..i] == watchlist;
      }
    }

    /** `filter_existing`: the watchlist without the held tickers, in watchlist order. */
    function FilterExisting(existing: seq<string>): (r: seq<string>)
      reads this
      ensures |r| <= |watchlist|
      ensures forall i :: 0 <= i < |r| ==> r[i] in watchlist && r[i] !in existing
      ensures forall t :: t in watchlist && t !in existing ==> t in r
      ensures forall i, j :: 0 <= i < j < |r| ==> InOrder(watchlist, r[i], r[j])
      ensures Valid() ==> NoDups(r)
    {
      var keep := (t: string) => t !in existing;
      FilterKeepsOrder(watchlist, keep);
      if Valid() then FilterNoDups(watchlist, keep); Filter(watchlist, keep)
      else Filter(watchlist, keep)
    }
  }
}
