/**
 * The analysis history as the results directory and the S3 history show it:
 * the directory listing, the "first recent date folder" rule, and the
 * `sort(key=lambda x: str(x['date']), reverse=True)` that orders the entries.
 */
module History {
  import opened Common
  import opened Dates

  // ---------------------------------------------------------------------
  // Python's ordering of `str`

  /** `a <= b` on Python strings: lexicographic by code point. */
  predicate StrLe(a: string, b: string)
    decreases |a|
  {
    |a| == 0 || (|b| > 0 && (a[0] < b[0] || (a[0] == b[0] && StrLe(a[1..], b[1..]))))
  }

  lemma {:induction false} StrLeTotal(a: string, b: string)
    ensures StrLe(a, b) || StrLe(b, a)
    decreases |a|
  {
    if |a| > 0 && |b| > 0 && a[0] == b[0] {
      StrLeTotal(a[1..], b[1..]);
    }
  }

  lemma {:induction false} StrLeTrans(a: string, b: string, c: string)
    requires StrLe(a, b) && StrLe(b, c)
    ensures StrLe(a, c)
    decreases |a|
  {
    if |a| > 0 && a[0] == b[0] && b[0] == c[0] {
      StrLeTrans(a[1..], b[1..], c[1..]);
    }
  }

  // ---------------------------------------------------------------------
  // The descending sort

  /** Every element's key is at least the key of every later element. */
  predicate SortedDesc<T>(s: seq<T>, key: T -> string) {
    forall i, j :: 0 <= i < j < |s| ==> StrLe(key(s[j]), key(s[i]))
  }

  /** Place `x` after the last element whose key is at least its own: the step
      of a stable descending insertion sort. */
  function InsertDesc<T>(s: seq<T>, x: T, key: T -> string): (r: seq<T>)
    ensures multiset(r) == multiset(s) + multiset{x} && |r| == |s| + 1
  {
    if |s| == 0 then [x]
    else if StrLe(key(x), key(s[|s| - 1])) then s + [x]
    else
      var init := s[..|s| - 1];
      assert s == init + [s[|s| - 1]];
      InsertDesc(init, x, key) + [s[|s| - 1]]
  }

  lemma {:induction false} InsertDescSorted<T>(s: seq<T>, x: T, key: T -> string)
    requires SortedDesc(s, key)
    ensures SortedDesc(InsertDesc(s, x, key), key)
    ensures forall i :: 0 <= i < |InsertDesc(s, x, key)| ==>
              InsertDesc(s, x, key)[i] == x || InsertDesc(s, x, key)[i] in s
  {
    var r := InsertDesc(s, x, key);
    if |s| == 0 {
    } else if StrLe(key(x), key(s[|s| - 1])) {
      forall i, j | 0 <= i < j < |r|
        ensures StrLe(key(r[j]), key(r[i]))
      {
        if j == |s| && i < |s| - 1 {
          StrLeTrans(key(x), key(s[|s| - 1]), key(s[i]));
        }
      }
    } else {
      var init, last := s[..|s| - 1], s[|s| - 1];
      assert SortedDesc(init, key);
      InsertDescSorted(init, x, key);
      var q := InsertDesc(init, x, key);
      assert r == q + [last];
      StrLeTotal(key(x), key(last));
      forall i | 0 <= i < |q|
        ensures StrLe(key(last), key(q[i]))
      {
        if q[i] != x {
          var k :| 0 <= k < |init| && init[k] == q[i];
          assert s[k] == q[i];
        }
      }
      forall i, j | 0 <= i < j < |r|
        ensures StrLe(key(r[j]), key(r[i]))
      {
        if j < |q| {
          assert r[i] == q[i] && r[j] == q[j];
        } else {
          assert r[i] == q[i] && r[j] == last;
        }
      }
    }
  }

  /** `list.sort(key=key, reverse=True)`. */
  function SortDesc<T>(s: seq<T>, key: T -> string): (r: seq<T>)
    ensures multiset(r) == multiset(s) && |r| == |s|
  {
    if |s| == 0 then []
    else
      assert s == s[..|s| - 1] + [s[|s| - 1]];
      InsertDesc(SortDesc(s[..|s| - 1], key), s[|s| - 1], key)
  }

  /** The sort leaves the keys in descending order. */
  lemma {:induction false} SortDescSorted<T>(s: seq<T>, key: T -> string)
    ensures SortedDesc(SortDesc(s, key), key)
  {
    if |s| > 0 {
      SortDescSorted(s[..|s| - 1], key);
      InsertDescSorted(SortDesc(s[..|s| - 1], key), s[|s| - 1], key);
    }
  }

  /** Sorting keeps the elements: the same members, as many times each. */
  lemma SortDescSameMembers<T>(s: seq<T>, key: T -> string, x: T)
    ensures x in SortDesc(s, key) <==> x in s
  {
    assert x in multiset(SortDesc(s, key)) <==> x in multiset(s);
  }

  /** No two elements share a key. */
  predicate DistinctBy<T>(s: seq<T>, key: T -> string) {
    forall i, j :: 0 <= i < j < |s| ==> key(s[i]) != key(s[j])
  }

  lemma {:induction false} InsertDescDistinct<T>(s: seq<T>, x: T, key: T -> string, id: T -> string)
    requires DistinctBy(s, id)
    requires forall i :: 0 <= i < |s| ==> id(s[i]) != id(x)
    ensures DistinctBy(InsertDesc(s, x, key), id)
  {
    if |s| > 0 && !StrLe(key(x), key(s[|s| - 1])) {
      var init, last := s[..|s| - 1], s[|s| - 1];
      assert DistinctBy(init, id);
      InsertDescDistinct(init, x, key, id);
      var q := InsertDesc(init, x, key);
      forall i | 0 <= i < |q|
        ensures id(q[i]) != id(last)
      {
        assert q[i] in multiset(q);
        if q[i] != x {
          assert q[i] in multiset(init);
          var k :| 0 <= k < |init| && init[k] == q[i];
          assert s[k] == q[i];
        }
      }
      assert InsertDesc(s, x, key) == q + [last];
    }
  }

  /** Sorting by `key` keeps the `id`s distinct: one element per id before, one after. */
  lemma {:induction false} SortDescDistinct<T>(s: seq<T>, key: T -> string, id: T -> string)
    requires DistinctBy(s, id)
    ensures DistinctBy(SortDesc(s, key), id)
  {
    if |s| > 0 {
      var init, last := s[..|s| - 1], s[|s| - 1];
      assert DistinctBy(init, id);
      SortDescDistinct(init, key, id);
      var q := SortDesc(init, key);
      forall i | 0 <= i < |q|
        ensures id(q[i]) != id(last)
      {
        SortDescSameMembers(init, key, q[i]);
        var k :| 0 <= k < |init| && init[k] == q[i];
        assert s[k] == q[i];
      }
      InsertDescDistinct(q, last, key, id);
    }
  }

  // ---------------------------------------------------------------------
  // The results directory

  /**
   * What reading `reports/final_trade_decision.md` inside a date folder gives:
   * no such file, its text, a `UnicodeDecodeError` (a `ValueError`), or any
   * other error.
   */
  datatype DecisionFile = NoDecisionFile | DecisionText(text: string) | DecisionUndecodable | DecisionUnreadable

  /** An entry of a ticker directory. */
  datatype DateDir = DateDir(name: string, isDir: bool, decision: DecisionFile)

  /** An entry of the results directory; `dates` is None when listing it raises. */
  datatype TickerDir = TickerDir(name: string, isDir: bool, dates: Option<seq<DateDir>>)

  const ManagerDirName: string := "portfolio_manager"

  /** The ticker directories the scans look into. */
  predicate IsTickerDir(t: TickerDir) { t.isDir && t.name != ManagerDirName }

  /** `now - timedelta(days=days)`. */
  function Cutoff(now: Moment, days: int): Moment {
    Moment(now.day - days, now.second)
  }

  /** A date folder the scan accepts: a directory named as a date on or after the cutoff. */
  predicate IsRecentDateDir(d: DateDir, cutoff: Moment) {
    d.isDir && ParseIsoDate(d.name).Some? && Seconds(Midnight(ParseIsoDate(d.name).value)) >= Seconds(cutoff)
  }

  /** The position of the first accepted date folder: the scan's `break` happens there. */
  function FirstRecentDate(dates: seq<DateDir>, cutoff: Moment): (k: Option<nat>)
    ensures k.Some? ==> k.value < |dates| && IsRecentDateDir(dates[k.value], cutoff)
  {
    if |dates| == 0 then None
    else if IsRecentDateDir(dates[0], cutoff) then Some(0)
    else match FirstRecentDate(dates[1..], cutoff)
      case None => None
      case Some(k) => Some(k + 1)
  }

  /** The folder found is the first one accepted, and None means none is. */
  lemma {:induction false} FirstRecentDateMeans(dates: seq<DateDir>, cutoff: Moment)
    ensures FirstRecentDate(dates, cutoff).None? <==> forall j :: 0 <= j < |dates| ==> !IsRecentDateDir(dates[j], cutoff)
    ensures FirstRecentDate(dates, cutoff).Some? ==>
              forall j :: 0 <= j < FirstRecentDate(dates, cutoff).value ==> !IsRecentDateDir(dates[j], cutoff)
  {
    if |dates| > 0 {
      FirstRecentDateMeans(dates[1..], cutoff);
      assert forall j :: 1 <= j < |dates| ==> dates[j] == dates[1..][j - 1];
    }
  }

  /** `(now - folder_date).days` for an accepted folder. */
  function DaysAgo(now: Moment, d: DateDir): int
    requires ParseIsoDate(d.name).Some?
  {
    DaysBetween(now, Midnight(ParseIsoDate(d.name).value))
  }

  /** An accepted folder is at most `days` calendar days old, and no older than
      zero when it is not in the future. */
  lemma RecentIsWithinThreshold(now: Moment, days: int, d: DateDir)
    requires ValidMoment(now) && IsRecentDateDir(d, Cutoff(now, days))
    ensures DaysAgo(now, d) <= days
    ensures DaysAgo(now, d) == now.day - Ordinal(ParseIsoDate(d.name).value)
  {
    DaysSinceMidnight(now, ParseIsoDate(d.name).value);
  }
}
