/**
 * The trading scheduler: "HH:MM" schedule times parsed and sorted, the
 * trading-day and one-minute-window test, and the once-per-day rule kept by
 * `last_run_date` across polls. The clock is a parameter: every `now` is a
 * `Dates.Moment` already in the scheduler's timezone.
 */
module Scheduler {
  import opened Common
  import opened Dates

  /** A `datetime.time` with zero seconds. */
  datatype TimeOfDay = TimeOfDay(hour: nat, minute: nat)

  predicate ValidTime(t: TimeOfDay) { t.hour < 24 && t.minute < 60 }

  function Minutes(t: TimeOfDay): nat { t.hour * 60 + t.minute }

  predicate IsNumeral(s: string) { |s| > 0 && AllDigits(s) }

  /**
   * `hour, minute = map(int, s.split(':'))` followed by `time(hour, minute)`:
   * None wherever that raises ValueError (not exactly one ':', a part that
   * is not a numeral, an hour over 23 or a minute over 59).
   */
  function ParseTime(s: string): (r: Option<TimeOfDay>)
    ensures r.Some? ==> ValidTime(r.value)
    ensures r.Some? ==> exists k :: 0 <= k < |s| && s[k] == ':' && ':' !in s[..k] && ':' !in s[k + 1..]
  {
    match FindChar(s, ':')
    case None => None
    case Some(k) =>
      var h, m := s[..k], s[k + 1..];
      if ':' in m || !IsNumeral(h) || !IsNumeral(m) then None
      else
        var t := TimeOfDay(DigitsValue(h), DigitsValue(m));
        if ValidTime(t) then Some(t) else None
  }

  /** `strftime('%H:%M')`, as the scheduler prints its schedule. */
  function FormatTime(t: TimeOfDay): (r: string)
    requires ValidTime(t)
    ensures |r| == 5 && r[2] == ':'
  {
    Pad2(t.hour) + ":" + Pad2(t.minute)
  }

  /** Printing a schedule time and parsing it back yields the same time. */
  lemma FormatParseRoundTrip(t: TimeOfDay)
    requires ValidTime(t)
    ensures ParseTime(FormatTime(t)) == Some(t)
  {
    var s := FormatTime(t);
    assert s[..2] == Pad2(t.hour);
    assert s[3..] == Pad2(t.minute);
    assert ':' !in s[..2];
    assert FindChar(s, ':') == Some(2);
    Pad2Value(t.hour);
    Pad2Value(t.minute);
  }

  // ---------------------------------------------------------------------
  // sorted()

  predicate Ascending(ts: seq<TimeOfDay>) {
    forall i, j :: 0 <= i < j < |ts| ==> Minutes(ts[i]) <= Minutes(ts[j])
  }

  function Insert(t: TimeOfDay, ts: seq<TimeOfDay>): (r: seq<TimeOfDay>)
    ensures |r| == |ts| + 1
    ensures r[0] == t || (|ts| > 0 && r[0] == ts[0])
  {
    if |ts| == 0 then [t]
    else if Minutes(t) <= Minutes(ts[0]) then [t] + ts
    else [ts[0]] + Insert(t, ts[1..])
  }

  lemma {:induction false} InsertPermutes(t: TimeOfDay, ts: seq<TimeOfDay>)
    ensures multiset(Insert(t, ts)) == multiset(ts) + multiset{t}
  {
    if |ts| > 0 && Minutes(t) > Minutes(ts[0]) {
      InsertPermutes(t, ts[1..]);
      assert ts == [ts[0]] + ts[1..];
    }
  }

  lemma {:induction false} InsertKeepsAscending(t: TimeOfDay, ts: seq<TimeOfDay>)
    requires Ascending(ts)
    ensures Ascending(Insert(t, ts))
  {
    if |ts| > 0 && Minutes(t) > Minutes(ts[0]) {
      var rest := Insert(t, ts[1..]);
      InsertKeepsAscending(t, ts[1..]);
      assert Minutes(ts[0]) <= Minutes(rest[0]);
      var r := [ts[0]] + rest;
      forall i, j | 0 <= i < j < |r|
        ensures Minutes(r[i]) <= Minutes(r[j])
      {
        if i > 0 {
          assert r[i] == rest[i - 1] && r[j] == rest[j - 1];
        } else if j > 1 {
          assert r[j] == rest[j - 1];
          assert Minutes(rest[0]) <= Minutes(rest[j - 1]);
        }
      }
    }
  }

  /** `sorted(times)`. */
  function SortTimes(ts: seq<TimeOfDay>): (r: seq<TimeOfDay>)
    ensures |r| == |ts|
  {
    if |ts| == 0 then [] else Insert(ts[0], SortTimes(ts[1..]))
  }

  /** `sorted` returns its input ascending, and a permutation of it. */
  lemma {:induction false} SortTimesSorts(ts: seq<TimeOfDay>)
    ensures Ascending(SortTimes(ts))
    ensures multiset(SortTimes(ts)) == multiset(ts)
  {
    if |ts| > 0 {
      SortTimesSorts(ts[1..]);
      InsertKeepsAscending(ts[0], SortTimes(ts[1..]));
      InsertPermutes(ts[0], SortTimes(ts[1..]));
      assert ts == [ts[0]] + ts[1..];
    }
  }

  lemma SortedTimesAreValid(ts: seq<TimeOfDay>)
    requires forall i :: 0 <= i < |ts| ==> ValidTime(ts[i])
    ensures forall i :: 0 <= i < |SortTimes(ts)| ==> ValidTime(SortTimes(ts)[i])
  {
    var r := SortTimes(ts);
    SortTimesSorts(ts);
    forall i | 0 <= i < |r|
      ensures ValidTime(r[i])
    {
      assert r[i] in multiset(r);
      assert r[i] in multiset(ts);
    }
  }

  /** Every schedule string parsed in order; None as soon as one raises. */
  function ParsedAll(ss: seq<string>): (r: Option<seq<TimeOfDay>>)
    ensures r.None? <==> exists i :: 0 <= i < |ss| && ParseTime(ss[i]).None?
    ensures r.Some? ==> |r.value| == |ss| && forall i :: 0 <= i < |ss| ==> Some(r.value[i]) == ParseTime(ss[i])
  {
    if |ss| == 0 then Some([])
    else
      var front := ParsedAll(ss[..|ss| - 1]);
      var last := ParseTime(ss[|ss| - 1]);
      if front.None? then
        var i :| 0 <= i < |ss| - 1 && ParseTime(ss[..|ss| - 1][i]).None?;
        assert ParseTime(ss[i]).None?;
        None
      else if last.None? then None
      else Some(front.value + [last.value])
  }

  /**
   * `_parse_times`: each string parsed in turn (the first bad one raises
   * out of the constructor), then the list sorted.
   */
  method ParseTimes(ss: seq<string>) returns (r: Option<seq<TimeOfDay>>)
    ensures r == if ParsedAll(ss).Some? then Some(SortTimes(ParsedAll(ss).value)) else None
  {
    var times: seq<TimeOfDay> := [];
    var i := 0;
    while i < |ss|
      invariant 0 <= i <= |ss|
      invariant ParsedAll(ss[..i]) == Some(times)
    {
      assert ss[..i + 1][..i] == ss[..i];
      var t := ParseTime(ss[i]);
      if t.None? {
        assert ParsedAll(ss[..i + 1]).None?;
        assert ParseTime(ss[..i + 1][i]).None?;
        assert ParsedAll(ss).None?;
        return None;
      }
      times := times + [t.value];
      i := i + 1;
    }
    assert ss[..i] == ss;
    r := Some(SortTimes(times));
  }

  // ---------------------------------------------------------------------
  // When to run

  /** `_is_trading_day`: Monday through Friday. */
  predicate IsTradingDay(now: Moment) { Weekday(now.day) < 5 }

  /** `abs((current_dt - scheduled_dt).total_seconds()) < 60` on the same day. */
  predicate WithinMinute(t: TimeOfDay, now: Moment) {
    var diff := now.second - (Minutes(t) * 60) as real;
    -60.0 < diff < 60.0
  }

  /** The `for scheduled_time in self.schedule_times` search. */
  function AnyWithinMinute(ts: seq<TimeOfDay>, now: Moment): (r: bool)
    ensures r <==> exists i :: 0 <= i < |ts| && WithinMinute(ts[i], now)
  {
    if |ts| == 0 then false
    else if WithinMinute(ts[0], now) then true
    else
      var r := AnyWithinMinute(ts[1..], now);
      assert forall i :: 1 <= i < |ts| ==> ts[i] == ts[1..][i - 1];
      r
  }

  /**
   * `_should_run_now`: a trading day, no run recorded for today, and within
   * a minute of some scheduled time.
   */
  function ShouldRunNow(now: Moment, lastRunDate: Option<int>, ts: seq<TimeOfDay>): (r: bool)
    ensures r <==> Weekday(now.day) < 5 && lastRunDate != Some(now.day)
                   && exists i :: 0 <= i < |ts| && WithinMinute(ts[i], now)
  {
    if !IsTradingDay(now) then false
    else if lastRunDate == Some(now.day) then false
    else AnyWithinMinute(ts, now)
  }

  predicate NonDecreasingDays(ticks: seq<Moment>) {
    forall i, j :: 0 <= i < j < |ticks| ==> ticks[i].day <= ticks[j].day
  }

  predicate StrictlyIncreasing(days: seq<int>) {
    forall i, j :: 0 <= i < j < |days| ==> days[i] < days[j]
  }

  class TradingScheduler {
    var scheduleTimes: seq<TimeOfDay>
    var lastRunDate: Option<int>

    predicate Valid()
      reads this
    {
      Ascending(scheduleTimes) && forall i :: 0 <= i < |scheduleTimes| ==> ValidTime(scheduleTimes[i])
    }

    /** `__init__` once `_parse_times` has returned `times`: sorted, nothing run yet. */
    constructor(times: seq<TimeOfDay>)
      requires forall i :: 0 <= i < |times| ==> ValidTime(times[i])
      ensures Valid()
      ensures scheduleTimes == SortTimes(times) && lastRunDate.None?
    {
      SortedTimesAreValid(times);
      SortTimesSorts(times);
      scheduleTimes := SortTimes(times);
      lastRunDate := None;
    }

    /**
     * One iteration of the `run_scheduled` loop at time `now`: the run is
     * triggered iff `_should_run_now`; `last_run_date` becomes today only
     * when `run_iteration` returns normally, so a raising run is retried at
     * the next poll inside the window.
     */
    method Poll(now: Moment, runRaises: bool) returns (triggered: bool)
      modifies this`lastRunDate
      ensures triggered == ShouldRunNow(now, old(lastRunDate), scheduleTimes)
      ensures lastRunDate == if triggered && !runRaises then Some(now.day) else old(lastRunDate)
    {
      triggered := ShouldRunNow(now, lastRunDate, scheduleTimes);
      if triggered && !runRaises {
        lastRunDate := Some(now.day);
      }
    }

    /**
     * `run_scheduled` over a finite sequence of polls; `succeeded` lists the
     * day of each run that returned normally. On a clock that does not go
     * back a day, no day appears twice, however many times are scheduled,
     * and none repeats the day recorded before the loop.
     */
    method RunScheduled(ticks: seq<Moment>, raises: seq<bool>) returns (succeeded: seq<int>)
      requires |ticks| == |raises|
      modifies this`lastRunDate
      ensures |succeeded| <= |ticks|
      ensures lastRunDate == if |succeeded| == 0 then old(lastRunDate) else Some(succeeded[|succeeded| - 1])
      ensures NonDecreasingDays(ticks) ==> StrictlyIncreasing(succeeded)
      ensures |succeeded| > 0 && old(lastRunDate).Some? ==> succeeded[0] != old(lastRunDate).value
    {
      succeeded := [];
      var i := 0;
      while i < |ticks|
        invariant 0 <= i <= |ticks|
        invariant |succeeded| <= i
        invariant lastRunDate == if |succeeded| == 0 then old(lastRunDate) else Some(succeeded[|succeeded| - 1])
        invariant NonDecreasingDays(ticks) && |succeeded| > 0 ==> i > 0 && succeeded[|succeeded| - 1] <= ticks[i - 1].day
        invariant NonDecreasingDays(ticks) ==> StrictlyIncreasing(succeeded)
        invariant |succeeded| > 0 && old(lastRunDate).Some? ==> succeeded[0] != old(lastRunDate).value
      {
        var before := lastRunDate;
        var triggered := Poll(ticks[i], raises[i]);
        if triggered && !raises[i] {
          assert before != Some(ticks[i].day);
          assert NonDecreasingDays(ticks) && |succeeded| > 0 ==> succeeded[|succeeded| - 1] < ticks[i].day;
          succeeded := succeeded + [ticks[i].day];
        }
        i := i + 1;
      }
    }

    /** `run_once`: one iteration on demand; it never touches `last_run_date`. */
    method RunOnce(runRaises: bool) returns (completed: bool)
      ensures completed == !runRaises
      ensures lastRunDate == old(lastRunDate)
    {
      completed := !runRaises;
    }
  }

  /**
   * Construction from the configured strings: None where `_parse_times`
   * raises, otherwise a scheduler whose times are the parsed ones, sorted.
   */
  method NewScheduler(ss: seq<string>) returns (s: Option<TradingScheduler>)
    ensures s.None? <==> exists i :: 0 <= i < |ss| && ParseTime(ss[i]).None?
    ensures s.Some? ==> fresh(s.value) && s.value.Valid() && s.value.lastRunDate.None?
    ensures s.Some? ==> s.value.scheduleTimes == SortTimes(ParsedAll(ss).value)
  {
    var times := ParseTimes(ss);
    if times.None? {
      return None;
    }
    var parsed := ParsedAll(ss).value;
    assert forall i :: 0 <= i < |parsed| ==> ValidTime(parsed[i]) by {
      forall i | 0 <= i < |parsed|
        ensures ValidTime(parsed[i])
      {
        assert Some(parsed[i]) == ParseTime(ss[i]);
      }
    }
    var t := new TradingScheduler(parsed);
    s := Some(t);
  }
}
