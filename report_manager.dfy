/**
 * The report manager's text logic: the tracking header every iteration
 * summary starts with, `extract_tracking_metadata`, which reads it back from
 * the previous summary, the summary formatters and the fallback summary.
 * The LLM call is a parameter: its reply, or None where it raises.
 */
module ReportManager {
  import opened Common
  import opened Dates

  // ---------------------------------------------------------------------
  // `re.search(label + r'\s*(group)', text)`

  /** `\s` on ASCII text: space, tab, newline, carriage return, vertical tab, form feed. */
  predicate IsSpaceChar(c: char) {
    c == ' ' || c == '\t' || c == '\n' || c == '\r' || c as int == 11 || c as int == 12
  }

  /** How many characters `\s*` consumes at the front of `s`. */
  function SkipSpaces(s: string): (n: nat)
    ensures n <= |s|
    ensures forall i :: 0 <= i < n ==> IsSpaceChar(s[i])
    ensures n < |s| ==> !IsSpaceChar(s[n])
  {
    if |s| > 0 && IsSpaceChar(s[0]) then 1 + SkipSpaces(s[1..]) else 0
  }

  /** The captured group: `(\d+)` or `(\d{4}-\d{2}-\d{2})`. */
  datatype Capture = Digits | IsoDateText

  predicate CapturesAt(rest: string, cap: Capture) {
    match cap
    case Digits => |rest| > 0 && IsDigitChar(rest[0])
    case IsoDateText => |rest| >= 10 && LooksLikeIsoDate(rest[..10])
  }

  function Captured(rest: string, cap: Capture): string
    requires CapturesAt(rest, cap)
  {
    match cap
    case Digits => LeadingDigits(rest)
    case IsoDateText => rest[..10]
  }

  /** The text after a label found at `k` and the spaces that follow it. */
  function AfterLabel(s: string, tag: string, k: nat): string
    requires k + |tag| <= |s|
  {
    var rest := s[k + |tag|..];
    rest[SkipSpaces(rest)..]
  }

  /** The pattern `label\s*(group)` matches at position `k`. */
  predicate MatchAt(s: string, tag: string, cap: Capture, k: nat) {
    k <= |s| && StartsWith(s[k..], tag) && CapturesAt(AfterLabel(s, tag, k), cap)
  }

  /** The leftmost position from `k` on where the pattern matches. */
  function FirstMatch(s: string, tag: string, cap: Capture, k: nat): (r: Option<nat>)
    requires k <= |s|
    ensures r.Some? ==> k <= r.value <= |s| && MatchAt(s, tag, cap, r.value)
                        && forall j :: k <= j < r.value ==> !MatchAt(s, tag, cap, j)
    ensures r.None? ==> forall j :: k <= j <= |s| ==> !MatchAt(s, tag, cap, j)
    decreases |s| - k
  {
    if MatchAt(s, tag, cap, k) then Some(k)
    else if k == |s| then None
    else FirstMatch(s, tag, cap, k + 1)
  }

  /** `re.search(...)`, giving `match.group(1)`, or None where nothing matches. */
  function Search(s: string, tag: string, cap: Capture): (r: Option<string>)
    ensures r.None? <==> forall j :: 0 <= j <= |s| ==> !MatchAt(s, tag, cap, j)
    ensures r.Some? ==> Contains(s, tag)
    ensures r.Some? && cap == Digits ==> |r.value| > 0 && AllDigits(r.value)
    ensures r.Some? && cap == IsoDateText ==> LooksLikeIsoDate(r.value)
  {
    match FirstMatch(s, tag, cap, 0)
    case None => None
    case Some(k) =>
      assert Contains(s[k..], tag);
      ContainsInSuffix(s, k, tag);
      Some(Captured(AfterLabel(s, tag, k), cap))
  }

  // ---------------------------------------------------------------------
  // The tracking metadata

  const TotalLabel: string := "Total Iterations:"
  const DaysLabel: string := "Days Operating:"
  const FirstLabel: string := "First Start Date:"
  const NoPrevious: string := "No previous iteration"

  datatype Metadata = Metadata(totalIterations: nat, daysOperating: nat, firstStartDate: Option<string>)

  /** `int(match.group(1))` for a counter, or the default 0 where it does not match. */
  function CountOf(s: string, tag: string): (n: nat)
    ensures n > 0 ==> Contains(s, tag)
  {
    match Search(s, tag, Digits)
    case None => 0
    case Some(g) => DigitsValue(g)
  }

  /** `extract_tracking_metadata(last_summary)`. */
  function ExtractTrackingMetadata(summary: string): (m: Metadata)
    ensures |summary| == 0 || Contains(summary, NoPrevious) ==> m == Metadata(0, 0, None)
    ensures m.totalIterations > 0 ==> Contains(summary, TotalLabel)
    ensures m.daysOperating > 0 ==> Contains(summary, DaysLabel)
    ensures m.firstStartDate.Some? ==> Contains(summary, FirstLabel) && LooksLikeIsoDate(m.firstStartDate.value)
  {
    if |summary| == 0 || Contains(summary, NoPrevious) then Metadata(0, 0, None)
    else Metadata(CountOf(summary, TotalLabel), CountOf(summary, DaysLabel), Search(summary, FirstLabel, IsoDateText))
  }

  // ---------------------------------------------------------------------
  // The header of `generate_iteration_summary`

  /** `"=" * n`. */
  function Repeat(c: char, n: nat): (r: string)
    ensures |r| == n && forall i :: 0 <= i < n ==> r[i] == c
  {
    if n == 0 then "" else [c] + Repeat(c, n - 1)
  }

  const Rule: string := Repeat('=', 80)

  /** The first line of the header after "ITERATION ", and the rule under it. */
  function IdRest(iterationId: string, timestamp: string): string {
    iterationId + " - " + timestamp + "\n" + Rule + "\n"
  }

  function IdLine(iterationId: string, timestamp: string): string {
    "ITERATION " + IdRest(iterationId, timestamp)
  }

  function LabelLine(tag: string, value: string): string {
    tag + " " + value + "\n"
  }

  /** The header from its "Days Operating" line on. */
  function DaysOnward(days: int, first: string): string {
    LabelLine(DaysLabel, IntText(days)) + (LabelLine(FirstLabel, first) + (Rule + "\n\n"))
  }

  /** The header from its "Total Iterations" line on. */
  function Counts(total: nat, days: int, first: string): string {
    LabelLine(TotalLabel, NatToString(total)) + DaysOnward(days, first)
  }

  /** The metadata header put before the agent's summary. */
  function Header(iterationId: string, timestamp: string, total: nat, days: int, first: string): string {
    IdLine(iterationId, timestamp) + Counts(total, days, first)
  }

  predicate NoUpper(s: string) {
    forall i :: 0 <= i < |s| ==> !IsUpperChar(s[i])
  }

  /** No occurrence of `label` can start inside `pre`, judged by its first two characters. */
  predicate NoEarlyStart(pre: string, tag: string) {
    |tag| >= 2 && forall j :: 0 <= j < |pre| && pre[j] == tag[0] ==> j + 1 < |pre| && pre[j + 1] != tag[1]
  }

  lemma NoStartInPrefix(pre: string, rest: string, tag: string, j: nat)
    requires NoEarlyStart(pre, tag) && j < |pre|
    ensures !StartsWith((pre + rest)[j..], tag)
  {
    var s := pre + rest;
    assert s[j] == pre[j];
    if |tag| <= |s| - j {
      if pre[j] == tag[0] {
        assert s[j + 1] == pre[j + 1];
        assert s[j..][..|tag|][1] == s[j + 1];
      } else {
        assert s[j..][..|tag|][0] == s[j];
      }
    }
  }

  /** A text whose prefix cannot start `x` contains `x` only after that prefix. */
  lemma {:induction false} ContainsPastPrefix(a: string, b: string, x: string)
    requires NoEarlyStart(a, x)
    ensures Contains(a + b, x) ==> Contains(b, x)
    decreases |a|
  {
    if |a| == 0 {
      assert a + b == b;
    } else {
      NoStartInPrefix(a, b, x, 0);
      assert (a + b)[0..] == a + b;
      assert (a + b)[1..] == a[1..] + b;
      assert NoEarlyStart(a[1..], x) by {
        forall j | 0 <= j < |a[1..]| && a[1..][j] == x[0]
          ensures j + 1 < |a[1..]| && a[1..][j + 1] != x[1]
        {
          assert a[j + 1] == x[0];
        }
      }
      ContainsPastPrefix(a[1..], b, x);
    }
  }

  /** Where a labelled line starts, the label matches and is followed by one space and the value. */
  lemma AfterLabelLine(pre: string, tag: string, value: string, post: string)
    requires |value| > 0 && !IsSpaceChar(value[0])
    ensures var s := pre + (LabelLine(tag, value) + post);
            StartsWith(s[|pre|..], tag) && AfterLabel(s, tag, |pre|) == value + ("\n" + post)
  {
    var s := pre + (LabelLine(tag, value) + post);
    var k := |pre|;
    assert s[k..] == tag + (" " + value + ("\n" + post));
    assert s[k..][..|tag|] == tag;
    var rest := s[k + |tag|..];
    assert rest == " " + value + ("\n" + post);
    assert rest[1..] == value + ("\n" + post);
    assert SkipSpaces(rest[1..]) == 0;
  }

  /** The group captures exactly a value followed by a newline. */
  lemma CapturedValue(value: string, post: string, cap: Capture)
    requires cap == Digits ==> |value| > 0 && AllDigits(value)
    requires cap == IsoDateText ==> LooksLikeIsoDate(value)
    ensures CapturesAt(value + ("\n" + post), cap) && Captured(value + ("\n" + post), cap) == value
  {
    if cap == Digits {
      LeadingDigitsOfDigits(value, "\n" + post);
    } else {
      assert (value + ("\n" + post))[..10] == value;
    }
  }

  /** A labelled line after a prefix that cannot start the label is what the search finds. */
  lemma LabelLineFound(pre: string, tag: string, value: string, post: string, cap: Capture)
    requires NoEarlyStart(pre, tag)
    requires cap == Digits ==> |value| > 0 && AllDigits(value)
    requires cap == IsoDateText ==> LooksLikeIsoDate(value)
    ensures Search(pre + (LabelLine(tag, value) + post), tag, cap) == Some(value)
  {
    var s := pre + (LabelLine(tag, value) + post);
    assert IsDigitChar(value[0]);
    AfterLabelLine(pre, tag, value, post);
    CapturedValue(value, post, cap);
    assert MatchAt(s, tag, cap, |pre|);
    forall j | 0 <= j < |pre|
      ensures !MatchAt(s, tag, cap, j)
    {
      NoStartInPrefix(pre, LabelLine(tag, value) + post, tag, j);
    }
  }

  lemma NoUpperHasNo(s: string, c: char)
    requires NoUpper(s) && IsUpperChar(c)
    ensures c !in s
  {
    assert forall i :: 0 <= i < |s| ==> s[i] != c;
  }

  /** Digits and dashes hold no letter. */
  lemma NumeralsNoUpper(n: nat, i: int, date: string)
    requires LooksLikeIsoDate(date)
    ensures NoUpper(NatToString(n)) && NoUpper(IntText(i)) && NoUpper(date)
  {
    assert forall k :: 0 <= k < 4 ==> date[k] == date[..4][k];
    assert forall k :: 5 <= k < 7 ==> date[k] == date[5..7][k - 5];
    assert forall k :: 8 <= k < 10 ==> date[k] == date[8..][k - 8];
  }

  /**
   * "ITERATION " followed by text without the label's first character cannot
   * start a label whose second character is 'o'.
   */
  lemma NoEarlyStartAfterIteration(r: string, tag: string)
    requires |tag| >= 2 && tag[1] == 'o' && tag[0] != ' ' && tag[0] !in r
    ensures NoEarlyStart("ITERATION " + r, tag)
  {
    var pre := "ITERATION " + r;
    forall j | 10 <= j < |pre|
      ensures pre[j] != tag[0]
    {
      assert pre[j] == r[j - 10];
    }
    forall j | 0 <= j < 10
      ensures pre[j] == "ITERATION "[j]
    {
    }
  }

  lemma NoEarlyStartWithout(pre: string, tag: string)
    requires |tag| >= 2 && tag[0] !in pre
    ensures NoEarlyStart(pre, tag)
  {
    assert forall j :: 0 <= j < |pre| ==> pre[j] != tag[0];
  }

  lemma Assoc(a: string, b: string, c: string)
    ensures (a + b) + c == a + (b + c)
  {
  }

  /** A line lacks a character its label and value lack. */
  lemma LineLacks(tag: string, value: string, c: char)
    requires c !in tag && c !in value && c != ' ' && c != '\n'
    ensures c !in LabelLine(tag, value)
  {
  }

  lemma IdRestLacks(iterationId: string, timestamp: string, c: char)
    requires NoUpper(iterationId) && NoUpper(timestamp) && IsUpperChar(c)
    ensures c !in IdRest(iterationId, timestamp)
  {
    NoUpperHasNo(iterationId, c);
    NoUpperHasNo(timestamp, c);
  }

  lemma LabelLetters()
    ensures 'D' !in TotalLabel && 'F' !in TotalLabel && 'F' !in DaysLabel
    ensures 'N' !in TotalLabel && 'N' !in DaysLabel && 'N' !in FirstLabel
  {
  }

  lemma TotalRead(iterationId: string, timestamp: string, total: nat, days: int, first: string, body: string)
    requires NoUpper(iterationId) && NoUpper(timestamp)
    ensures Search(Header(iterationId, timestamp, total, days, first) + body, TotalLabel, Digits) == Some(NatToString(total))
  {
    IdRestLacks(iterationId, timestamp, 'T');
    NoEarlyStartAfterIteration(IdRest(iterationId, timestamp), TotalLabel);
    var tLine := LabelLine(TotalLabel, NatToString(total));
    Assoc(IdLine(iterationId, timestamp), Counts(total, days, first), body);
    Assoc(tLine, DaysOnward(days, first), body);
    LabelLineFound(IdLine(iterationId, timestamp), TotalLabel, NatToString(total), DaysOnward(days, first) + body, Digits);
  }

  lemma DaysRead(iterationId: string, timestamp: string, total: nat, days: nat, first: string, body: string)
    requires NoUpper(iterationId) && NoUpper(timestamp)
    ensures Search(Header(iterationId, timestamp, total, days, first) + body, DaysLabel, Digits) == Some(NatToString(days))
  {
    var idLine, tLine := IdLine(iterationId, timestamp), LabelLine(TotalLabel, NatToString(total));
    IdRestLacks(iterationId, timestamp, 'D');
    NumeralsNoUpper(total, days, "0000-00-00");
    NoUpperHasNo(NatToString(total), 'D');
    LabelLetters();
    LineLacks(TotalLabel, NatToString(total), 'D');
    NoEarlyStartWithout(idLine + tLine, DaysLabel);
    var dLine := LabelLine(DaysLabel, IntText(days));
    var post := LabelLine(FirstLabel, first) + (Rule + "\n\n");
    Assoc(idLine, Counts(total, days, first), body);
    Assoc(tLine, DaysOnward(days, first), body);
    Assoc(dLine, post, body);
    Assoc(idLine, tLine, dLine + (post + body));
    LabelLineFound(idLine + tLine, DaysLabel, NatToString(days), post + body, Digits);
  }

  lemma FirstRead(iterationId: string, timestamp: string, total: nat, days: int, first: string, body: string)
    requires NoUpper(iterationId) && NoUpper(timestamp) && LooksLikeIsoDate(first)
    ensures Search(Header(iterationId, timestamp, total, days, first) + body, FirstLabel, IsoDateText) == Some(first)
  {
    var idLine, tLine := IdLine(iterationId, timestamp), LabelLine(TotalLabel, NatToString(total));
    var dLine, fLine := LabelLine(DaysLabel, IntText(days)), LabelLine(FirstLabel, first);
    IdRestLacks(iterationId, timestamp, 'F');
    NumeralsNoUpper(total, days, first);
    NoUpperHasNo(NatToString(total), 'F');
    NoUpperHasNo(IntText(days), 'F');
    LabelLetters();
    LineLacks(TotalLabel, NatToString(total), 'F');
    LineLacks(DaysLabel, IntText(days), 'F');
    var pre := idLine + tLine + dLine;
    NoEarlyStartWithout(pre, FirstLabel);
    var post := Rule + "\n\n";
    Assoc(idLine, Counts(total, days, first), body);
    Assoc(tLine, DaysOnward(days, first), body);
    Assoc(dLine, fLine + post, body);
    Assoc(fLine, post, body);
    Assoc(idLine, tLine, dLine + (fLine + (post + body)));
    Assoc(idLine + tLine, dLine, fLine + (post + body));
    LabelLineFound(pre, FirstLabel, first, post + body, IsoDateText);
  }

  /** The header itself never says "No previous iteration". */
  lemma NoPreviousOnlyInBody(iterationId: string, timestamp: string, total: nat, days: int, first: string, body: string)
    requires NoUpper(iterationId) && NoUpper(timestamp) && LooksLikeIsoDate(first)
    ensures Contains(Header(iterationId, timestamp, total, days, first) + body, NoPrevious) ==> Contains(body, NoPrevious)
  {
    IdRestLacks(iterationId, timestamp, 'N');
    NumeralsNoUpper(total, days, first);
    NoUpperHasNo(NatToString(total), 'N');
    NoUpperHasNo(IntText(days), 'N');
    NoUpperHasNo(first, 'N');
    LabelLetters();
    LineLacks(TotalLabel, NatToString(total), 'N');
    LineLacks(DaysLabel, IntText(days), 'N');
    LineLacks(FirstLabel, first, 'N');
    var hr := IdRest(iterationId, timestamp) + Counts(total, days, first);
    assert 'N' !in hr;
    NoEarlyStartAfterIteration(hr, NoPrevious);
    Assoc("ITERATION ", IdRest(iterationId, timestamp), Counts(total, days, first));
    ContainsPastPrefix("ITERATION " + hr, body, NoPrevious);
  }

  /**
   * Round trip: the header written by `generate_iteration_summary` is read
   * back by `extract_tracking_metadata`, whatever summary text follows it,
   * for iteration ids and timestamps without capital letters (as the
   * `%Y%m%d_%H%M%S` and `%Y-%m-%d %H:%M:%S` formats give).
   */
  lemma HeaderRoundTrip(iterationId: string, timestamp: string, total: nat, days: nat, first: string, body: string)
    requires NoUpper(iterationId) && NoUpper(timestamp) && LooksLikeIsoDate(first)
    requires !Contains(body, NoPrevious)
    ensures ExtractTrackingMetadata(Header(iterationId, timestamp, total, days, first) + body)
            == Metadata(total, days, Some(first))
  {
    TotalRead(iterationId, timestamp, total, days, first, body);
    DaysRead(iterationId, timestamp, total, days, first, body);
    FirstRead(iterationId, timestamp, total, days, first, body);
    NoPreviousOnlyInBody(iterationId, timestamp, total, days, first, body);
    NatToStringRoundTrip(total);
    NatToStringRoundTrip(days);
  }

  // ---------------------------------------------------------------------
  // The counters of `generate_iteration_summary`

  /** What the new header records: total iterations, days operating, first start date. */
  datatype Tracking = Tracking(total: nat, days: int, first: string)

  /**
   * The new counters from the previous summary's metadata and today's date.
   * None where `strptime` raises on the stored first start date (a
   * `ValueError` that leaves `generate_iteration_summary`).
   */
  function NextTracking(prev: Metadata, today: Date): (r: Option<Tracking>)
    requires ValidDate(today)
    ensures r.Some? ==> r.value.total == prev.totalIterations + 1
    ensures prev.firstStartDate.None? ==> r == Some(Tracking(prev.totalIterations + 1, 0, FormatIsoDate(today)))
    ensures prev.firstStartDate.Some? ==>
              (r.None? <==> ParseIsoDate(prev.firstStartDate.value).None?)
              && (r.Some? ==> r.value.first == prev.firstStartDate.value
                              && r.value.days == Ordinal(today) - Ordinal(ParseIsoDate(prev.firstStartDate.value).value))
  {
    match prev.firstStartDate
    case None => Some(Tracking(prev.totalIterations + 1, 0, FormatIsoDate(today)))
    case Some(first) =>
      match ParseIsoDate(first)
      case None => None
      case Some(start) => Some(Tracking(prev.totalIterations + 1, Ordinal(today) - Ordinal(start), first))
  }

  /** `datetime.now().strftime('%Y-%m-%d %H:%M:%S')`, from the date and the clock time. */
  function Timestamp(today: Date, clock: string): string
    requires ValidDate(today)
  {
    FormatIsoDate(today) + " " + clock
  }

  // ---------------------------------------------------------------------
  // The inputs of the summary

  /** `d.get(key, default)` on a dict: the key is missing, holds None, or holds the text. */
  datatype Field = Missing | PyNone | Text(text: string)

  function Get(f: Field, default: string): string {
    match f
    case Missing => default
    case PyNone => "None"
    case Text(t) => t
  }

  /** An `analyzed_stocks` value: a dict with its decision and reasoning, or anything else. */
  datatype AnalyzedInfo = InfoDict(decision: Field, reasoning: Field) | InfoOther

  /** A `trades_executed` entry: a dict, or anything else. */
  datatype TradeRecord = TradeDict(action: Field, ticker: Field, quantity: Field, price: Option<real>, reasoning: Field) | TradeOther

  /** The number formats the summary uses: `:,.2f`, `:+.1f` and `:.2f`. */
  datatype NumberStyle = Money | SignedOneDecimal | TwoDecimals

  /** What the broker reports for a position and an order. */
  datatype BrokerPosition = BrokerPosition(symbol: string, qty: string, marketValue: Option<real>, unrealizedPlpc: Option<real>)
  datatype BrokerOrder = BrokerOrder(symbol: Option<string>, side: Option<string>, qty: Option<string>, status: Option<string>, limitPrice: Option<string>)

  /** A row of the summary context's positions, or anything else `_format_positions` is given. */
  datatype PositionRow = PositionDict(symbol: Field, qty: Field, marketValue: Option<real>, pnlPct: Option<real>) | PositionOther
  datatype OrderRow = OrderDict(symbol: Field, side: Field, qty: Field, status: Field, limitPrice: Field) | OrderOther

  function FieldOf(o: Option<string>): Field {
    match o
    case None => PyNone
    case Some(t) => Text(t)
  }

  function ContextPosition(p: BrokerPosition): (row: PositionRow)
    ensures row.PositionDict? && row.symbol == Text(p.symbol) && row.marketValue.Some? && row.pnlPct.Some?
    ensures row.pnlPct.value == p.unrealizedPlpc.GetOr(0.0) * 100.0
  {
    PositionDict(Text(p.symbol), Text(p.qty), Some(p.marketValue.GetOr(0.0)), Some(p.unrealizedPlpc.GetOr(0.0) * 100.0))
  }

  /** The context's `positions`: the first 20 broker positions, reshaped. */
  function ContextPositions(positions: seq<BrokerPosition>): (rows: seq<PositionRow>)
    ensures |rows| == if |positions| < 20 then |positions| else 20
    ensures forall i :: 0 <= i < |rows| ==> rows[i] == ContextPosition(positions[i])
  {
    var first := Take(positions, 20);
    seq(|first|, i requires 0 <= i < |first| => ContextPosition(first[i]))
  }

  function ContextOrder(o: BrokerOrder): (row: OrderRow)
    ensures row.OrderDict? && !row.symbol.Missing? && !row.side.Missing? && !row.qty.Missing?
            && !row.status.Missing? && !row.limitPrice.Missing?
  {
    OrderDict(FieldOf(o.symbol), FieldOf(o.side), FieldOf(o.qty), FieldOf(o.status), FieldOf(o.limitPrice))
  }

  /** The context's `open_orders`: the first 10 open orders (none when there are none), reshaped. */
  function ContextOrders(orders: Option<seq<BrokerOrder>>): (rows: seq<OrderRow>)
    ensures orders.None? ==> rows == []
    ensures orders.Some? ==> |rows| == if |orders.value| < 10 then |orders.value| else 10
    ensures orders.Some? ==> forall i :: 0 <= i < |rows| ==> rows[i] == ContextOrder(orders.value[i])
  {
    match orders
    case None => []
    case Some(os) =>
      var first := Take(os, 10);
      seq(|first|, i requires 0 <= i < |first| => ContextOrder(first[i]))
  }

  // ---------------------------------------------------------------------
  // The summary

  /** The fallback summary `_generate_basic_summary` writes from the context. */
  function BasicSummary(iterationId: string, timestamp: string, analyzed: seq<(string, AnalyzedInfo)>,
                        trades: seq<TradeRecord>, portfolioValue: real, cash: real,
                        positionCount: nat, orderCount: nat, render: (NumberStyle, real) -> string): string
  {
    Join(BasicLines(iterationId, timestamp, analyzed, trades, portfolioValue, cash, positionCount, orderCount, render), "\n")
  }

  function BasicLines(iterationId: string, timestamp: string, analyzed: seq<(string, AnalyzedInfo)>,
                      trades: seq<TradeRecord>, portfolioValue: real, cash: real,
                      positionCount: nat, orderCount: nat, render: (NumberStyle, real) -> string): seq<string>
  {
    TitleLines(iterationId, timestamp) + AnalyzedBlock(analyzed) + TradesBlock(trades)
    + AccountLines(portfolioValue, cash, positionCount, render) + PendingLines(orderCount)
  }

  function TitleLines(iterationId: string, timestamp: string): seq<string> {
    ["ITERATION " + iterationId + " - " + timestamp, Rule, ""]
  }

  function AnalyzedBlock(analyzed: seq<(string, AnalyzedInfo)>): seq<string> {
    if |analyzed| > 0 then ["Analyzed this iteration:"] + AnalyzedDecisionLines(analyzed) + [""] else []
  }

  function TradesBlock(trades: seq<TradeRecord>): seq<string> {
    if |trades| > 0 then ["Trades executed:"] + TradeShareLines(trades) + [""] else []
  }

  function AccountLines(portfolioValue: real, cash: real, positionCount: nat, render: (NumberStyle, real) -> string): seq<string> {
    ["Portfolio value: $" + render(Money, portfolioValue), "Cash available: $" + render(Money, cash),
     "Positions: " + NatToString(positionCount)]
  }

  function PendingLines(orderCount: nat): seq<string> {
    if orderCount > 0 then ["Pending orders: " + NatToString(orderCount)] else []
  }

  /** One line per analysed stock whose value is a dict: its ticker and decision. */
  function AnalyzedDecisionLines(analyzed: seq<(string, AnalyzedInfo)>): (lines: seq<string>)
    ensures |lines| <= |analyzed|
  {
    if |analyzed| == 0 then []
    else
      var (ticker, info) := analyzed[0];
      (if info.InfoDict? then ["  " + ticker + ": " + Get(info.decision, "UNKNOWN")] else [])
      + AnalyzedDecisionLines(analyzed[1..])
  }

  /** One line per trade that is a dict: action, ticker and share count. */
  function TradeShareLines(trades: seq<TradeRecord>): (lines: seq<string>)
    ensures |lines| <= |trades|
  {
    if |trades| == 0 then []
    else
      var t := trades[0];
      (if t.TradeDict? then ["  " + Get(t.action, "UNKNOWN") + " " + Get(t.ticker, "N/A") + ": " + Get(t.quantity, "0") + " shares"] else [])
      + TradeShareLines(trades[1..])
  }

  /** `account.get(key, 0)`. */
  datatype Account = Account(portfolioValue: Option<real>, cash: Option<real>, buyingPower: Option<real>)

  /**
   * `generate_iteration_summary`: the header and the agent's reply, or the
   * basic summary where the LLM call raises (`reply` None); None where
   * `strptime` raises on the stored first start date.
   */
  function GenerateIterationSummary(iterationId: string, today: Date, clock: string, lastSummary: string,
                                    reply: Option<string>, analyzed: seq<(string, AnalyzedInfo)>,
                                    trades: seq<TradeRecord>, account: Account, positions: seq<BrokerPosition>,
                                    orders: Option<seq<BrokerOrder>>, render: (NumberStyle, real) -> string): (r: Option<string>)
    requires ValidDate(today)
    ensures r.None? <==> NextTracking(ExtractTrackingMetadata(lastSummary), today).None?
  {
    var timestamp := Timestamp(today, clock);
    match NextTracking(ExtractTrackingMetadata(lastSummary), today)
    case None => None
    case Some(t) =>
      match reply
      case Some(text) => Some(Header(iterationId, timestamp, t.total, t.days, t.first) + text)
      case None =>
        Some(BasicSummary(iterationId, timestamp, analyzed, trades, account.portfolioValue.GetOr(0.0),
                          account.cash.GetOr(0.0), |ContextPositions(positions)|, |ContextOrders(orders)|, render))
  }

  lemma NoUpperCat(a: string, b: string)
    requires NoUpper(a) && NoUpper(b)
    ensures NoUpper(a + b)
  {
    assert forall i :: 0 <= i < |a + b| ==> (a + b)[i] == if i < |a| then a[i] else b[i - |a|];
  }

  lemma TimestampNoUpper(today: Date, clock: string)
    requires ValidDate(today) && NoUpper(clock)
    ensures NoUpper(Timestamp(today, clock))
  {
    FormatParseRoundTrip(today);
    NumeralsNoUpper(0, 0, FormatIsoDate(today));
    NoUpperCat(FormatIsoDate(today), " ");
    NoUpperCat(FormatIsoDate(today) + " ", clock);
  }

  /**
   * Each summary the agent writes counts one more iteration than the one
   * before it, keeps the first start date once there is one (today's date
   * on the first run), and records the days since then.
   */
  lemma SummaryCountsIterations(iterationId: string, today: Date, clock: string, lastSummary: string, text: string,
                                analyzed: seq<(string, AnalyzedInfo)>, trades: seq<TradeRecord>, account: Account,
                                positions: seq<BrokerPosition>, orders: Option<seq<BrokerOrder>>,
                                render: (NumberStyle, real) -> string)
    requires ValidDate(today) && NoUpper(iterationId) && NoUpper(clock) && !Contains(text, NoPrevious)
    requires GenerateIterationSummary(iterationId, today, clock, lastSummary, Some(text), analyzed, trades, account, positions, orders, render).Some?
    ensures var prev := ExtractTrackingMetadata(lastSummary);
            var next := ExtractTrackingMetadata(GenerateIterationSummary(iterationId, today, clock, lastSummary, Some(text),
                                                  analyzed, trades, account, positions, orders, render).value);
            && next.totalIterations == prev.totalIterations + 1
            && (prev.firstStartDate.None? ==> next.daysOperating == 0 && next.firstStartDate == Some(FormatIsoDate(today)))
            && (prev.firstStartDate.Some? ==> next.firstStartDate == prev.firstStartDate)
            && (prev.firstStartDate.Some? ==> var start := ParseIsoDate(prev.firstStartDate.value).value;
                  Ordinal(today) >= Ordinal(start) ==> next.daysOperating == Ordinal(today) - Ordinal(start))
  {
    var prev := ExtractTrackingMetadata(lastSummary);
    var t := NextTracking(prev, today).value;
    TimestampNoUpper(today, clock);
    if prev.firstStartDate.None? {
      FormatParseRoundTrip(today);
    }
    if t.days >= 0 {
      HeaderRoundTrip(iterationId, Timestamp(today, clock), t.total, t.days, t.first, text);
    } else {
      TotalRead(iterationId, Timestamp(today, clock), t.total, t.days, t.first, text);
      FirstRead(iterationId, Timestamp(today, clock), t.total, t.days, t.first, text);
      NoPreviousOnlyInBody(iterationId, Timestamp(today, clock), t.total, t.days, t.first, text);
      NatToStringRoundTrip(t.total);
    }
  }

  // ---------------------------------------------------------------------
  // The fallback summary has no header

  /** No "T" is directly followed by "o": then "Total Iterations:" cannot occur. */
  predicate NoTo(s: string) {
    forall i :: 0 <= i < |s| - 1 ==> !(s[i] == 'T' && s[i + 1] == 'o')
  }

  lemma NoToCat(a: string, b: string)
    requires NoTo(a) && NoTo(b)
    requires |a| == 0 || |b| == 0 || a[|a| - 1] != 'T' || b[0] != 'o'
    ensures NoTo(a + b)
  {
    var s := a + b;
    forall i | 0 <= i < |s| - 1
      ensures !(s[i] == 'T' && s[i + 1] == 'o')
    {
      if i + 1 < |a| {
        assert s[i] == a[i] && s[i + 1] == a[i + 1];
      } else if i >= |a| {
        assert s[i] == b[i - |a|] && s[i + 1] == b[i + 1 - |a|];
      } else {
        assert s[i] == a[|a| - 1] && s[i + 1] == b[0];
      }
    }
  }

  lemma {:induction false} NoToJoin(parts: seq<string>, sep: string)
    requires forall i :: 0 <= i < |parts| ==> NoTo(parts[i])
    requires NoTo(sep) && |sep| > 0 && sep[0] != 'o' && sep[|sep| - 1] != 'T'
    ensures NoTo(Join(parts, sep))
  {
    if |parts| > 1 {
      NoToJoin(parts[1..], sep);
      NoToCat(parts[0], sep);
      NoToCat(parts[0] + sep, Join(parts[1..], sep));
    }
  }

  lemma NoUpperNoTo(s: string)
    requires NoUpper(s)
    ensures NoTo(s)
  {
  }

  /** A text in which "T" is never followed by "o" does not contain "Total Iterations:". */
  lemma {:induction false} NoToOmitsTotal(s: string)
    requires NoTo(s)
    ensures !Contains(s, TotalLabel)
    decreases |s|
  {
    if |TotalLabel| <= |s| {
      assert s[..|TotalLabel|][0] == s[0] && s[..|TotalLabel|][1] == s[1];
      assert TotalLabel[0] == 'T' && TotalLabel[1] == 'o';
    }
    if |s| > 0 {
      forall i | 0 <= i < |s| - 2
        ensures !(s[1..][i] == 'T' && s[1..][i + 1] == 'o')
      {
        assert s[1..][i] == s[i + 1] && s[1..][i + 1] == s[i + 2];
      }
      NoToOmitsTotal(s[1..]);
    }
  }

  predicate FieldNoTo(f: Field) { f.Text? ==> NoTo(f.text) }

  lemma GetNoTo(f: Field, default: string)
    requires FieldNoTo(f) && NoTo(default)
    ensures NoTo(Get(f, default))
  {
  }

  /** The texts the fallback summary copies from its inputs lack "To". */
  predicate InputsNoTo(analyzed: seq<(string, AnalyzedInfo)>, trades: seq<TradeRecord>) {
    AnalyzedNoTo(analyzed) && TradesNoTo(trades)
  }

  predicate AnalyzedNoTo(analyzed: seq<(string, AnalyzedInfo)>) {
    forall i :: 0 <= i < |analyzed| ==> NoTo(analyzed[i].0) && (analyzed[i].1.InfoDict? ==> FieldNoTo(analyzed[i].1.decision))
  }

  predicate TradesNoTo(trades: seq<TradeRecord>) {
    forall i :: 0 <= i < |trades| ==> trades[i].TradeDict? ==>
      FieldNoTo(trades[i].action) && FieldNoTo(trades[i].ticker) && FieldNoTo(trades[i].quantity)
  }

  lemma {:induction false} AnalyzedLinesNoTo(analyzed: seq<(string, AnalyzedInfo)>)
    requires AnalyzedNoTo(analyzed)
    ensures AllNoTo(AnalyzedDecisionLines(analyzed))
  {
    if |analyzed| > 0 {
      var (ticker, info) := analyzed[0];
      assert AnalyzedNoTo(analyzed[1..]) by {
        assert forall i :: 0 <= i < |analyzed[1..]| ==> analyzed[1..][i] == analyzed[i + 1];
      }
      AnalyzedLinesNoTo(analyzed[1..]);
      if info.InfoDict? {
        GetNoTo(info.decision, "UNKNOWN");
        NoToCat("  ", ticker);
        NoToCat("  " + ticker, ": ");
        NoToCat("  " + ticker + ": ", Get(info.decision, "UNKNOWN"));
      }
    }
  }

  lemma {:induction false} TradeLinesNoTo(trades: seq<TradeRecord>)
    requires TradesNoTo(trades)
    ensures AllNoTo(TradeShareLines(trades))
  {
    if |trades| > 0 {
      var t := trades[0];
      assert TradesNoTo(trades[1..]) by {
        assert forall i :: 0 <= i < |trades[1..]| ==> trades[1..][i] == trades[i + 1];
      }
      TradeLinesNoTo(trades[1..]);
      if t.TradeDict? {
        var action, ticker, qty := Get(t.action, "UNKNOWN"), Get(t.ticker, "N/A"), Get(t.quantity, "0");
        GetNoTo(t.action, "UNKNOWN");
        GetNoTo(t.ticker, "N/A");
        GetNoTo(t.quantity, "0");
        NoToCat("  ", action);
        NoToCat("  " + action, " ");
        NoToCat("  " + action + " ", ticker);
        NoToCat("  " + action + " " + ticker, ": ");
        NoToCat("  " + action + " " + ticker + ": ", qty);
        NoToCat("  " + action + " " + ticker + ": " + qty, " shares");
      }
    }
  }

  predicate AllNoTo(lines: seq<string>) {
    forall i :: 0 <= i < |lines| ==> NoTo(lines[i])
  }

  lemma AllNoToCat(a: seq<string>, b: seq<string>)
    requires AllNoTo(a) && AllNoTo(b)
    ensures AllNoTo(a + b)
  {
    assert forall i :: 0 <= i < |a + b| ==> (a + b)[i] == if i < |a| then a[i] else b[i - |a|];
  }

  /** A titled block of lines followed by an empty line. */
  lemma BlockNoTo(title: string, lines: seq<string>)
    requires NoTo(title) && AllNoTo(lines)
    ensures AllNoTo([title] + lines + [""])
  {
    AllNoToCat([title], lines);
    AllNoToCat([title] + lines, [""]);
  }

  lemma AnalyzedBlockNoTo(analyzed: seq<(string, AnalyzedInfo)>)
    requires AnalyzedNoTo(analyzed)
    ensures AllNoTo(AnalyzedBlock(analyzed))
  {
    if |analyzed| > 0 {
      AnalyzedLinesNoTo(analyzed);
      BlockNoTo("Analyzed this iteration:", AnalyzedDecisionLines(analyzed));
    }
  }

  lemma TradesBlockNoTo(trades: seq<TradeRecord>)
    requires TradesNoTo(trades)
    ensures AllNoTo(TradesBlock(trades))
  {
    if |trades| > 0 {
      TradeLinesNoTo(trades);
      BlockNoTo("Trades executed:", TradeShareLines(trades));
    }
  }

  /** The closing lines: account values and counts. */
  lemma AccountLinesNoTo(portfolioValue: real, cash: real, positionCount: nat, orderCount: nat,
                         render: (NumberStyle, real) -> string)
    requires NoTo(render(Money, portfolioValue)) && NoTo(render(Money, cash))
    ensures AllNoTo(AccountLines(portfolioValue, cash, positionCount, render)) && AllNoTo(PendingLines(orderCount))
  {
    NumeralsNoUpper(positionCount, orderCount, "0000-00-00");
    NumeralsNoUpper(orderCount, 0, "0000-00-00");
    NoUpperNoTo(NatToString(positionCount));
    NoUpperNoTo(NatToString(orderCount));
    NoToCat("Portfolio value: $", render(Money, portfolioValue));
    NoToCat("Cash available: $", render(Money, cash));
    NoToCat("Positions: ", NatToString(positionCount));
    NoToCat("Pending orders: ", NatToString(orderCount));
  }

  lemma TitleLinesNoTo(iterationId: string, timestamp: string)
    requires NoTo(iterationId) && NoTo(timestamp)
    ensures AllNoTo(TitleLines(iterationId, timestamp))
  {
    NoToCat("ITERATION ", iterationId);
    NoToCat("ITERATION " + iterationId, " - ");
    NoToCat("ITERATION " + iterationId + " - ", timestamp);
    assert 'T' !in Rule;
  }

  lemma BasicLinesNoTo(iterationId: string, timestamp: string, analyzed: seq<(string, AnalyzedInfo)>,
                       trades: seq<TradeRecord>, portfolioValue: real, cash: real,
                       positionCount: nat, orderCount: nat, render: (NumberStyle, real) -> string)
    requires NoTo(iterationId) && NoTo(timestamp) && InputsNoTo(analyzed, trades)
    requires NoTo(render(Money, portfolioValue)) && NoTo(render(Money, cash))
    ensures AllNoTo(BasicLines(iterationId, timestamp, analyzed, trades, portfolioValue, cash, positionCount, orderCount, render))
  {
    var title, aBlock, tBlock := TitleLines(iterationId, timestamp), AnalyzedBlock(analyzed), TradesBlock(trades);
    var account, pending := AccountLines(portfolioValue, cash, positionCount, render), PendingLines(orderCount);
    TitleLinesNoTo(iterationId, timestamp);
    AnalyzedBlockNoTo(analyzed);
    TradesBlockNoTo(trades);
    AccountLinesNoTo(portfolioValue, cash, positionCount, orderCount, render);
    AllNoToCat(title, aBlock);
    AllNoToCat(title + aBlock, tBlock);
    AllNoToCat(title + aBlock + tBlock, account);
    AllNoToCat(title + aBlock + tBlock + account, pending);
  }

  /**
   * The fallback summary carries no "Total Iterations" line, so the next
   * run's `extract_tracking_metadata` restarts the count at 0 (for inputs
   * whose copied texts never put an "o" right after a "T").
   */
  lemma FallbackRestartsCount(iterationId: string, timestamp: string, analyzed: seq<(string, AnalyzedInfo)>,
                              trades: seq<TradeRecord>, portfolioValue: real, cash: real,
                              positionCount: nat, orderCount: nat, render: (NumberStyle, real) -> string)
    requires NoTo(iterationId) && NoTo(timestamp) && InputsNoTo(analyzed, trades)
    requires NoTo(render(Money, portfolioValue)) && NoTo(render(Money, cash))
    ensures ExtractTrackingMetadata(BasicSummary(iterationId, timestamp, analyzed, trades, portfolioValue, cash,
                                                 positionCount, orderCount, render)).totalIterations == 0
  {
    var lines := BasicLines(iterationId, timestamp, analyzed, trades, portfolioValue, cash, positionCount, orderCount, render);
    BasicLinesNoTo(iterationId, timestamp, analyzed, trades, portfolioValue, cash, positionCount, orderCount, render);
    NoToJoin(lines, "\n");
    NoToOmitsTotal(Join(lines, "\n"));
  }

  // ---------------------------------------------------------------------
  // The `_format_*` helpers that fill the summary prompt

  /** The lines joined by newlines, or the placeholder when there are none. */
  function Listing(lines: seq<string>, placeholder: string): (r: string)
    requires forall i :: 0 <= i < |lines| ==> |lines[i]| > 0 && lines[i][0] == '-'
    requires |placeholder| > 0 && placeholder[0] != '-'
    ensures r == placeholder <==> |lines| == 0
    ensures |lines| > 0 ==> r == Join(lines, "\n")
  {
    if |lines| == 0 then placeholder
    else
      assert Join(lines, "\n")[0] == lines[0][0];
      Join(lines, "\n")
  }

  /** The `- ticker: decision (reasoning)` lines of the analysed stocks that are dicts. */
  function AnalyzedLines(analyzed: seq<(string, AnalyzedInfo)>): (lines: seq<string>)
    ensures |lines| == 0 <==> forall i :: 0 <= i < |analyzed| ==> !analyzed[i].1.InfoDict?
    ensures forall i :: 0 <= i < |lines| ==> |lines[i]| > 0 && lines[i][0] == '-'
  {
    if |analyzed| == 0 then []
    else
      var (ticker, info) := analyzed[0];
      var rest := AnalyzedLines(analyzed[1..]);
      assert forall i :: 1 <= i < |analyzed| ==> analyzed[i] == analyzed[1..][i - 1];
      if info.InfoDict? then ["- " + ticker + ": " + Get(info.decision, "UNKNOWN") + " (" + Get(info.reasoning, "N/A") + ")"] + rest
      else rest
  }

  /**
   * `_format_analyzed_stocks`: None stands for a value that is not a dict;
   * the placeholder comes exactly when no analysed stock has a dict value.
   */
  function FormatAnalyzedStocks(analyzed: Option<seq<(string, AnalyzedInfo)>>): (r: string)
    ensures r == "None this iteration" <==>
              analyzed.None? || forall i :: 0 <= i < |analyzed.value| ==> !analyzed.value[i].1.InfoDict?
  {
    match analyzed
    case None => "None this iteration"
    case Some(a) => Listing(AnalyzedLines(a), "None this iteration")
  }

  /** The trade lines of the trades that are dicts. */
  function TradeLines(trades: seq<TradeRecord>, render: (NumberStyle, real) -> string): (lines: seq<string>)
    ensures |lines| == 0 <==> forall i :: 0 <= i < |trades| ==> !trades[i].TradeDict?
    ensures forall i :: 0 <= i < |lines| ==> |lines[i]| > 0 && lines[i][0] == '-'
  {
    if |trades| == 0 then []
    else
      var t := trades[0];
      var rest := TradeLines(trades[1..], render);
      assert forall i :: 1 <= i < |trades| ==> trades[i] == trades[1..][i - 1];
      if t.TradeDict? then
        ["- " + Get(t.action, "UNKNOWN") + " " + Get(t.ticker, "N/A") + ": " + Get(t.quantity, "0") + " shares @ $"
         + render(TwoDecimals, t.price.GetOr(0.0)) + " - " + Get(t.reasoning, "N/A")] + rest
      else rest
  }

  /** `_format_trades`: None stands for a value that is not a list. */
  function FormatTrades(trades: Option<seq<TradeRecord>>, render: (NumberStyle, real) -> string): (r: string)
    ensures r == "No trades this iteration" <==>
              trades.None? || forall i :: 0 <= i < |trades.value| ==> !trades.value[i].TradeDict?
  {
    match trades
    case None => "No trades this iteration"
    case Some(t) => Listing(TradeLines(t, render), "No trades this iteration")
  }

  /** The sort key of `_format_positions`: a dict's market value (0 when absent), 0 for anything else. */
  function Value(row: PositionRow): real {
    if row.PositionDict? then row.marketValue.GetOr(0.0) else 0.0
  }

  predicate SortedByValue(s: seq<PositionRow>) {
    forall i, j :: 0 <= i < j < |s| ==> Value(s[j]) <= Value(s[i])
  }

  /** Place `x` after the last element worth at least as much: the step of a stable descending sort. */
  function InsertByValue(s: seq<PositionRow>, x: PositionRow): (r: seq<PositionRow>)
    ensures multiset(r) == multiset(s) + multiset{x} && |r| == |s| + 1
  {
    if |s| == 0 then [x]
    else if Value(x) <= Value(s[|s| - 1]) then s + [x]
    else
      var init := s[..|s| - 1];
      assert s == init + [s[|s| - 1]];
      InsertByValue(init, x) + [s[|s| - 1]]
  }

  lemma {:induction false} InsertByValueSorted(s: seq<PositionRow>, x: PositionRow)
    requires SortedByValue(s)
    ensures SortedByValue(InsertByValue(s, x))
  {
    var r := InsertByValue(s, x);
    if |s| > 0 && Value(x) > Value(s[|s| - 1]) {
      var init, last := s[..|s| - 1], s[|s| - 1];
      assert SortedByValue(init);
      InsertByValueSorted(init, x);
      var q := InsertByValue(init, x);
      assert r == q + [last];
      forall i | 0 <= i < |q|
        ensures Value(last) <= Value(q[i])
      {
        assert q[i] in multiset(q);
        if q[i] != x {
          assert q[i] in multiset(init);
          var k :| 0 <= k < |init| && init[k] == q[i];
          assert s[k] == q[i];
        }
      }
    }
  }

  /** `sorted(positions, key=..., reverse=True)`. */
  function SortByValue(s: seq<PositionRow>): (r: seq<PositionRow>)
    ensures multiset(r) == multiset(s) && |r| == |s|
  {
    if |s| == 0 then []
    else
      assert s == s[..|s| - 1] + [s[|s| - 1]];
      InsertByValue(SortByValue(s[..|s| - 1]), s[|s| - 1])
  }

  lemma {:induction false} SortByValueSorted(s: seq<PositionRow>)
    ensures SortedByValue(SortByValue(s))
  {
    if |s| > 0 {
      SortByValueSorted(s[..|s| - 1]);
      InsertByValueSorted(SortByValue(s[..|s| - 1]), s[|s| - 1]);
    }
  }

  /** The positions `_format_positions` shows: the ten largest by market value. */
  function TopPositions(positions: seq<PositionRow>): (top: seq<PositionRow>)
    ensures |top| == if |positions| < 10 then |positions| else 10
    ensures multiset(top) <= multiset(positions)
  {
    var sorted := SortByValue(positions);
    var top := Take(sorted, 10);
    assert sorted == top + sorted[|top|..];
    top
  }

  /**
   * The ten shown are in descending order of market value, and no position
   * left out is worth more than any position shown.
   */
  lemma TopPositionsAreLargest(positions: seq<PositionRow>, x: PositionRow)
    requires x in multiset(positions) - multiset(TopPositions(positions))
    ensures SortedByValue(TopPositions(positions))
    ensures forall i :: 0 <= i < |TopPositions(positions)| ==> Value(x) <= Value(TopPositions(positions)[i])
  {
    var sorted := SortByValue(positions);
    SortByValueSorted(positions);
    var top := TopPositions(positions);
    var rest := sorted[|top|..];
    assert sorted == top + rest;
    assert multiset(sorted) == multiset(top) + multiset(rest);
    assert x in multiset(rest);
    var k :| 0 <= k < |rest| && rest[k] == x;
    assert sorted[|top| + k] == x;
    forall i | 0 <= i < |top|
      ensures Value(x) <= Value(top[i])
    {
      assert top[i] == sorted[i];
    }
    forall i, j | 0 <= i < j < |top|
      ensures Value(top[j]) <= Value(top[i])
    {
      assert top[i] == sorted[i] && top[j] == sorted[j];
    }
  }

  /** The position lines of the rows that are dicts. */
  function PositionLines(rows: seq<PositionRow>, render: (NumberStyle, real) -> string): (lines: seq<string>)
    ensures |lines| <= |rows|
    ensures |lines| == 0 <==> forall i :: 0 <= i < |rows| ==> !rows[i].PositionDict?
    ensures forall i :: 0 <= i < |lines| ==> |lines[i]| > 0 && lines[i][0] == '-'
  {
    if |rows| == 0 then []
    else
      var p := rows[0];
      var rest := PositionLines(rows[1..], render);
      assert forall i :: 1 <= i < |rows| ==> rows[i] == rows[1..][i - 1];
      if p.PositionDict? then
        ["- " + Get(p.symbol, "N/A") + ": " + Get(p.qty, "0") + " shares, $" + render(Money, p.marketValue.GetOr(0.0))
         + ", P&L " + render(SignedOneDecimal, p.pnlPct.GetOr(0.0)) + "%"] + rest
      else rest
  }

  /** `_format_positions`: at most ten lines, from the ten largest positions. */
  function FormatPositions(positions: Option<seq<PositionRow>>, render: (NumberStyle, real) -> string): (r: string)
    ensures positions.None? || |positions.value| == 0 ==> r == "No positions"
    ensures positions.Some? && |positions.value| > 0 ==>
              var lines := PositionLines(TopPositions(positions.value), render);
              |lines| <= 10 && (r == "No positions" <==> |lines| == 0)
  {
    match positions
    case None => "No positions"
    case Some(ps) =>
      if |ps| == 0 then "No positions"
      else Listing(PositionLines(TopPositions(ps), render), "No positions")
  }

  /** The order lines of the rows that are dicts. */
  function OrderLines(rows: seq<OrderRow>): (lines: seq<string>)
    ensures |lines| == 0 <==> forall i :: 0 <= i < |rows| ==> !rows[i].OrderDict?
    ensures forall i :: 0 <= i < |lines| ==> |lines[i]| > 0 && lines[i][0] == '-'
  {
    if |rows| == 0 then []
    else
      var o := rows[0];
      var rest := OrderLines(rows[1..]);
      assert forall i :: 1 <= i < |rows| ==> rows[i] == rows[1..][i - 1];
      if o.OrderDict? then
        ["- " + Upper(Get(o.side, "unknown")) + " " + Get(o.symbol, "N/A") + ": " + Get(o.qty, "0") + " shares @ $"
         + Get(o.limitPrice, "market") + ", status: " + Get(o.status, "unknown")] + rest
      else rest
  }

  /** `_format_orders`: None stands for a value that is not a list. */
  function FormatOrders(orders: Option<seq<OrderRow>>): (r: string)
    ensures r == "No pending orders" <==>
              orders.None? || forall i :: 0 <= i < |orders.value| ==> !orders.value[i].OrderDict?
  {
    match orders
    case None => "No pending orders"
    case Some(os) => Listing(OrderLines(os), "No pending orders")
  }

  /**
   * The context keeps every key of an order, so an order the broker lists
   * without a limit price shows "$None" rather than the "market" default.
   */
  lemma ContextOrderShowsNone(o: BrokerOrder)
    requires o.limitPrice.None?
    ensures OrderLines([ContextOrder(o)])[0]
            == "- " + Upper(Get(FieldOf(o.side), "unknown")) + " " + Get(FieldOf(o.symbol), "N/A") + ": "
               + Get(FieldOf(o.qty), "0") + " shares @ $None, status: " + Get(FieldOf(o.status), "unknown")
  {
    assert [ContextOrder(o)][1..] == [];
  }
}
