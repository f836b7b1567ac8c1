/**
 * Shared vocabulary of the MintTrader model: optional values, ASCII string
 * helpers (the Python code only ever compares ASCII tickers and keywords),
 * order-preserving de-duplication, list slicing and decimal numerals.
 */
module Common {

  /** Python's `None`-or-value. */
  datatype Option<+T> = None | Some(value: T) {
    function GetOr(default: T): T {
      match this
      case Some(v) => v
      case None => default
    }
  }

  // ---------------------------------------------------------------------
  // Characters

  predicate IsUpperChar(c: char) { 'A' <= c <= 'Z' }
  predicate IsLowerChar(c: char) { 'a' <= c <= 'z' }
  predicate IsDigitChar(c: char) { '0' <= c <= '9' }

  /** An ASCII regular-expression word character (`\w`). */
  predicate IsWordChar(c: char) {
    IsUpperChar(c) || IsLowerChar(c) || IsDigitChar(c) || c == '_'
  }

  function UpperChar(c: char): char {
    if IsLowerChar(c) then (c as int - 32) as char else c
  }

  function LowerChar(c: char): char {
    if IsUpperChar(c) then (c as int + 32) as char else c
  }

  /** `str.upper()` on ASCII text. */
  function Upper(s: string): (r: string)
    ensures |r| == |s|
    ensures forall i :: 0 <= i < |s| ==> r[i] == UpperChar(s[i])
    ensures forall i :: 0 <= i < |s| ==> !IsLowerChar(r[i])
  {
    seq(|s|, i requires 0 <= i < |s| => UpperChar(s[i]))
  }

  /** `str.lower()` on ASCII text. */
  function Lower(s: string): (r: string)
    ensures |r| == |s|
    ensures forall i :: 0 <= i < |s| ==> r[i] == LowerChar(s[i])
    ensures forall i :: 0 <= i < |s| ==> !IsUpperChar(r[i])
  {
    seq(|s|, i requires 0 <= i < |s| => LowerChar(s[i]))
  }

  /** Python's `int(x)` on a float: truncation toward zero. */
  function Trunc(x: real): (r: int)
    ensures x >= 0.0 ==> r == x.Floor
    ensures x >= 0.0 ==> r as real <= x < r as real + 1.0
    ensures x < 0.0 ==> r <= 0
  {
    if x >= 0.0 then x.Floor else -((-x).Floor)
  }

  // ---------------------------------------------------------------------
  // Substrings

  predicate StartsWith(s: string, prefix: string) {
    |prefix| <= |s| && s[..|prefix|] == prefix
  }

  /** Python's `sub in s`: `sub` starts at some position of `s`. */
  predicate Contains(s: string, sub: string)
    decreases |s|
  {
    StartsWith(s, sub) || (|s| > 0 && Contains(s[1..], sub))
  }

  /** What a suffix contains, the whole text contains. */
  lemma {:induction false} ContainsInSuffix(s: string, k: nat, sub: string)
    requires k <= |s|
    ensures Contains(s[k..], sub) ==> Contains(s, sub)
    decreases k
  {
    if k > 0 {
      assert s[1..][k - 1..] == s[k..];
      ContainsInSuffix(s[1..], k - 1, sub);
    }
  }

  /** A text holding `a + sub + b` holds `sub`. */
  lemma {:induction false} ContainsWithin(s: string, a: string, sub: string, b: string)
    ensures Contains(s, a + sub + b) ==> Contains(s, sub)
    decreases |s|
  {
    var w := a + sub + b;
    if StartsWith(s, w) {
      assert s[|a|..][..|sub|] == w[|a|..|a| + |sub|] == sub;
      ContainsInSuffix(s, |a|, sub);
    } else if |s| > 0 {
      ContainsWithin(s[1..], a, sub, b);
    }
  }

  /** `s.find(c)` for one character: the least index holding `c`, or None for -1. */
  function FindChar(s: string, c: char): (r: Option<nat>)
    ensures r.Some? ==> r.value < |s| && s[r.value] == c && c !in s[..r.value]
    ensures r.None? <==> c !in s
  {
    if |s| == 0 then None
    else if s[0] == c then Some(0)
    else
      var t := FindChar(s[1..], c);
      assert s == [s[0]] + s[1..];
      if t.None? then None
      else
        assert s[..t.value + 1] == [s[0]] + s[1..][..t.value];
        Some(t.value + 1)
  }

  /** `s.rfind(c)` for one character: the greatest index holding `c`, or None for -1. */
  function RFindChar(s: string, c: char): (r: Option<nat>)
    ensures r.Some? ==> r.value < |s| && s[r.value] == c && c !in s[r.value + 1..]
    ensures r.None? <==> c !in s
  {
    if |s| == 0 then None
    else if s[|s| - 1] == c then Some(|s| - 1)
    else
      var t := RFindChar(s[..|s| - 1], c);
      assert s == s[..|s| - 1] + [s[|s| - 1]];
      if t.None? then None
      else
        assert s[t.value + 1..] == s[..|s| - 1][t.value + 1..] + [s[|s| - 1]];
        Some(t.value)
  }

  /** `sep.join(parts)`. */
  function Join(parts: seq<string>, sep: string): string {
    if |parts| == 0 then ""
    else if |parts| == 1 then parts[0]
    else parts[0] + sep + Join(parts[1..], sep)
  }

  /**
   * The text between the first '[' and the last ']' of an LLM reply, both
   * included; None where no such span exists (`find` gives -1, or the last
   * ']' comes before the first '[').
   */
  function BracketSpan(content: string): (r: Option<string>)
    ensures r.None? <==> '[' !in content || ']' !in content || RFindChar(content, ']').value < FindChar(content, '[').value
    ensures r.Some? ==> var i, j := FindChar(content, '[').value, RFindChar(content, ']').value;
              i <= j && r.value == content[i..j + 1] && r.value[0] == '[' && r.value[|r.value| - 1] == ']'
  {
    match (FindChar(content, '['), RFindChar(content, ']'))
    case (Some(i), Some(j)) => if j + 1 > i then Some(content[i..j + 1]) else None
    case _ => None
  }

  // ---------------------------------------------------------------------
  // Sequences

  predicate NoDups<T(==)>(s: seq<T>) {
    forall i, j :: 0 <= i < j < |s| ==> s[i] != s[j]
  }

  /** `s[:n]` for a non-negative `n`. */
  function Take<T>(s: seq<T>, n: nat): (r: seq<T>)
    ensures |r| == if n < |s| then n else |s|
    ensures r <= s
  {
    if n < |s| then s[..n] else s
  }

  /** `s[:n]` for any integer `n`: a negative `n` drops that many from the end. */
  function PyHead<T>(s: seq<T>, n: int): (r: seq<T>)
    ensures r <= s
    ensures n >= 0 ==> r == Take(s, n)
    ensures n < 0 ==> |r| == if |s| + n > 0 then |s| + n else 0
  {
    if n >= 0 then Take(s, n) else if |s| + n > 0 then s[..|s| + n] else []
  }

  /** A `json.loads` value inside a list: a string, or anything else. */
  datatype JsonItem = JsonString(text: string) | JsonOther

  /** The string items of a decoded list, in list order. */
  function StringsOf(items: seq<JsonItem>): (r: seq<string>)
    ensures |r| <= |items|
    ensures forall i :: 0 <= i < |items| && items[i].JsonString? ==> items[i].text in r
    ensures forall i :: 0 <= i < |r| ==> JsonString(r[i]) in items
  {
    if |items| == 0 then []
    else
      var rest := StringsOf(items[1..]);
      assert forall i :: 1 <= i < |items| ==> items[i] == items[1..][i - 1];
      if items[0].JsonString? then [items[0].text] + rest else rest
  }

  /** `[s.upper() for s in items if isinstance(s, str)]`. */
  function UpperStrings(items: seq<JsonItem>): (r: seq<string>)
    ensures |r| == |StringsOf(items)|
    ensures forall i :: 0 <= i < |r| ==> r[i] == Upper(StringsOf(items)[i])
  {
    var ss := StringsOf(items);
    seq(|ss|, i requires 0 <= i < |ss| => Upper(ss[i]))
  }

  /**
   * The list the reply's `[`…`]` span decodes to. `reply` is None when the
   * LLM call raises; `decode` is `json.loads`, None when it raises.
   */
  function ParsedItems(reply: Option<string>, decode: string -> Option<seq<JsonItem>>): (r: Option<seq<JsonItem>>)
    ensures r.Some? ==> reply.Some? && BracketSpan(reply.value).Some?
  {
    if reply.None? then None
    else match BracketSpan(reply.value)
      case None => None
      case Some(span) => decode(span)
  }

  /** `[x for x in s if keep(x)]`. */
  function Filter<T>(s: seq<T>, keep: T -> bool): (r: seq<T>)
    ensures |r| <= |s|
    ensures forall i :: 0 <= i < |r| ==> r[i] in s && keep(r[i])
    ensures forall i :: 0 <= i < |s| && keep(s[i]) ==> s[i] in r
  {
    if |s| == 0 then []
    else if keep(s[0]) then [s[0]] + Filter(s[1..], keep)
    else Filter(s[1..], keep)
  }

  lemma {:induction false} FilterSnoc<T>(s: seq<T>, x: T, keep: T -> bool)
    ensures Filter(s + [x], keep) == Filter(s, keep) + (if keep(x) then [x] else [])
  {
    if |s| > 0 {
      assert (s + [x])[1..] == s[1..] + [x];
      FilterSnoc(s[1..], x, keep);
    } else {
      assert s + [x] == [x];
    }
  }

  /** `x` occurs in `s` before some occurrence of `y`. */
  ghost predicate InOrder<T>(s: seq<T>, x: T, y: T) {
    exists a, b :: 0 <= a < b < |s| && s[a] == x && s[b] == y
  }

  /** A kept head comes before every later element of the filtered list. */
  lemma FilterOrderFromHead<T>(s: seq<T>, keep: T -> bool, j: nat)
    requires |s| > 0 && keep(s[0]) && 0 < j < |Filter(s, keep)|
    ensures InOrder(s, s[0], Filter(s, keep)[j])
  {
    var tail := s[1..];
    var rest := Filter(tail, keep);
    assert Filter(s, keep)[j] == rest[j - 1] && rest[j - 1] in tail;
    var b :| 0 <= b < |tail| && tail[b] == rest[j - 1];
    assert s[b + 1] == tail[b];
  }

  /** The elements at `i` < `j` of a filtered list appear in that order in `s`. */
  lemma {:induction false} FilterOrderAt<T>(s: seq<T>, keep: T -> bool, i: nat, j: nat)
    requires i < j < |Filter(s, keep)|
    ensures InOrder(s, Filter(s, keep)[i], Filter(s, keep)[j])
  {
    var tail := s[1..];
    var rest := Filter(tail, keep);
    if keep(s[0]) && i == 0 {
      FilterOrderFromHead(s, keep, j);
    } else {
      var i', j' := if keep(s[0]) then i - 1 else i, if keep(s[0]) then j - 1 else j;
      assert Filter(s, keep)[i] == rest[i'] && Filter(s, keep)[j] == rest[j'];
      FilterOrderAt(tail, keep, i', j');
      var a, b :| 0 <= a < b < |tail| && tail[a] == rest[i'] && tail[b] == rest[j'];
      assert s[a + 1] == tail[a] && s[b + 1] == tail[b];
    }
  }

  /** Filtering keeps the order: two kept elements appear in `s` in the order they have in the result. */
  lemma FilterKeepsOrder<T>(s: seq<T>, keep: T -> bool)
    ensures forall i, j :: 0 <= i < j < |Filter(s, keep)| ==> InOrder(s, Filter(s, keep)[i], Filter(s, keep)[j])
  {
    forall i, j | 0 <= i < j < |Filter(s, keep)|
      ensures InOrder(s, Filter(s, keep)[i], Filter(s, keep)[j])
    {
      FilterOrderAt(s, keep, i, j);
    }
  }

  /** Filtering a duplicate-free list leaves it duplicate-free. */
  lemma {:induction false} FilterNoDups<T>(s: seq<T>, keep: T -> bool)
    requires NoDups(s)
    ensures NoDups(Filter(s, keep))
  {
    if |s| > 0 {
      assert NoDups(s[1..]);
      FilterNoDups(s[1..], keep);
      assert s[0] !in s[1..];
    }
  }

  /**
   * `list(dict.fromkeys(s))`: every distinct element once, in the order of its
   * first occurrence.
   */
  function Dedupe<T(==)>(s: seq<T>): (r: seq<T>)
    ensures NoDups(r)
    ensures forall i :: 0 <= i < |r| ==> r[i] in s
    ensures forall i :: 0 <= i < |s| ==> s[i] in r
    ensures |r| <= |s|
  {
    if |s| == 0 then []
    else
      var init := Dedupe(s[..|s| - 1]);
      if s[|s| - 1] in init then init else init + [s[|s| - 1]]
  }

  /** Dedupe keeps the first-occurrence order: `x` precedes `y` in the result
      exactly when the first `x` of `s` precedes the first `y`. */
  lemma {:induction false} DedupeOrder<T>(s: seq<T>, i: nat, j: nat)
    requires i < j < |Dedupe(s)|
    ensures exists a, b :: 0 <= a < b < |s| && s[a] == Dedupe(s)[i] && s[b] == Dedupe(s)[j]
              && Dedupe(s)[j] !in s[..b]
  {
    var pre := s[..|s| - 1];
    var init := Dedupe(pre);
    assert Dedupe(s) == if s[|s| - 1] in init then init else init + [s[|s| - 1]];
    if j < |init| {
      DedupeOrder(pre, i, j);
      var a, b :| 0 <= a < b < |pre| && pre[a] == init[i] && pre[b] == init[j] && init[j] !in pre[..b];
      assert pre[..b] == s[..b];
      assert s[a] == Dedupe(s)[i] && s[b] == Dedupe(s)[j];
    } else {
      var b := |s| - 1;
      assert Dedupe(s)[j] == s[b] && s[b] !in init;
      assert init[i] in pre;
      var a :| 0 <= a < |pre| && pre[a] == init[i];
      assert s[..b] == pre;
      assert s[a] == Dedupe(s)[i];
    }
  }

  // ---------------------------------------------------------------------
  // Decimal numerals

  function DigitChar(d: nat): char
    requires d < 10
  {
    ('0' as int + d) as char
  }

  function DigitValue(c: char): nat
    requires IsDigitChar(c)
  {
    c as int - '0' as int
  }

  predicate AllDigits(s: string) {
    forall i :: 0 <= i < |s| ==> IsDigitChar(s[i])
  }

  /** Python's `str(n)` for a natural number. */
  function NatToString(n: nat): (r: string)
    ensures |r| > 0 && AllDigits(r)
    ensures n > 0 ==> r[0] != '0'
  {
    if n < 10 then [DigitChar(n)] else NatToString(n / 10) + [DigitChar(n % 10)]
  }

  /** Python's `str(i)` for an int. */
  function IntText(i: int): string {
    if i < 0 then "-" + NatToString(-i) else NatToString(i)
  }

  /** `int(s)` for a non-empty string of decimal digits. */
  function DigitsValue(s: string): nat
    requires AllDigits(s)
  {
    if |s| == 0 then 0 else 10 * DigitsValue(s[..|s| - 1]) + DigitValue(s[|s| - 1])
  }

  lemma {:induction false} NatToStringRoundTrip(n: nat)
    ensures DigitsValue(NatToString(n)) == n
  {
    if n >= 10 {
      var r := NatToString(n);
      assert r[..|r| - 1] == NatToString(n / 10);
      NatToStringRoundTrip(n / 10);
    }
  }

  /** "The longest run of digits at the front of s", as a regex `\d+` consumes it. */
  function LeadingDigits(s: string): (r: string)
    ensures AllDigits(r) && r <= s
    ensures |r| < |s| ==> !IsDigitChar(s[|r|])
  {
    if |s| > 0 && IsDigitChar(s[0]) then [s[0]] + LeadingDigits(s[1..]) else []
  }

  lemma {:induction false} LeadingDigitsOfDigits(d: string, rest: string)
    requires AllDigits(d)
    requires |rest| == 0 || !IsDigitChar(rest[0])
    ensures LeadingDigits(d + rest) == d
  {
    if |d| > 0 {
      assert (d + rest)[1..] == d[1..] + rest;
      LeadingDigitsOfDigits(d[1..], rest);
    } else {
      assert d + rest == rest;
    }
  }
}
