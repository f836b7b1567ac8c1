/**
 * `get_next_weekday` of the data-flow utilities: a weekend date moves to
 * the following Monday, a weekday is returned as it is.
 */
module DataUtils {
  import opened Common
  import opened Dates

  /** The argument is a `datetime` or a `"%Y-%m-%d"` string. */
  datatype DateArg = DateTimeArg(moment: Moment) | DateStringArg(text: string)

  /** The `datetime` an argument stands for; None where `strptime` raises. */
  function MomentOf(date: DateArg): (r: Option<Moment>)
    ensures date.DateTimeArg? ==> r == Some(date.moment)
    ensures date.DateStringArg? ==> (r.Some? <==> ParseIsoDate(date.text).Some?)
    ensures date.DateStringArg? && r.Some? ==> r.value == Midnight(ParseIsoDate(date.text).value)
  {
    match date
    case DateTimeArg(m) => Some(m)
    case DateStringArg(s) =>
      match ParseIsoDate(s)
      case None => None
      case Some(d) => Some(Midnight(d))
  }

  /** Saturday gains two days and Sunday one; any other day is kept. */
  function NextWeekday(m: Moment): (r: Moment)
    ensures !IsWeekend(r.day) && r.second == m.second
    ensures m.day <= r.day <= m.day + 2
    ensures !IsWeekend(m.day) ==> r == m
    ensures Weekday(m.day) == 5 ==> r.day == m.day + 2
    ensures Weekday(m.day) == 6 ==> r.day == m.day + 1
  {
    if Weekday(m.day) >= 5 then Moment(m.day + (7 - Weekday(m.day)), m.second) else m
  }

  /** `get_next_weekday(date)`; None where parsing the string raises. */
  function GetNextWeekday(date: DateArg): (r: Option<Moment>)
    ensures r.Some? <==> MomentOf(date).Some?
    ensures r.Some? ==> r.value == NextWeekday(MomentOf(date).value)
  {
    match MomentOf(date)
    case None => None
    case Some(m) => Some(NextWeekday(m))
  }

  /** The result is the first weekday on or after the input: every day skipped is a weekend day. */
  lemma NextWeekdayIsFirst(m: Moment, d: int)
    requires m.day <= d < NextWeekday(m).day
    ensures IsWeekend(d)
  {
  }
}
