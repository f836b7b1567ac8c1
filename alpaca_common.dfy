/**
 * The broker settings of the Alpaca data layer: the two credential getters,
 * the paper-mode switch, and the 16-minute clamp the free data tier needs.
 */
module AlpacaCommon {
  import opened Common
  import opened Dates
  import opened DataUtils

  /** A credential, or the `ValueError` raised without one. */
  datatype Credential = Credential(value: string) | CredentialMissing(message: string)

  /** A variable that is unset or empty raises; otherwise its value is the credential. */
  function RequireEnv(value: Option<string>, message: string): (r: Credential)
    ensures r.Credential? <==> value.Some? && |value.value| > 0
    ensures r.Credential? ==> r.value == value.value
    ensures r.CredentialMissing? ==> r.message == message
  {
    if value.Some? && |value.value| > 0 then Credential(value.value) else CredentialMissing(message)
  }

  /** `get_api_key()` for the value of `ALPACA_API_KEY`. */
  function GetApiKey(env: Option<string>): (r: Credential)
    ensures r.Credential? <==> env.Some? && |env.value| > 0
  {
    RequireEnv(env, "ALPACA_API_KEY environment variable is not set.")
  }

  /** `get_secret_key()` for the value of `ALPACA_SECRET_KEY`. */
  function GetSecretKey(env: Option<string>): (r: Credential)
    ensures r.Credential? <==> env.Some? && |env.value| > 0
  {
    RequireEnv(env, "ALPACA_SECRET_KEY environment variable is not set.")
  }

  const PaperWords: set<string> := {"true", "1", "yes", "on"}

  /** `is_paper_mode()` for the value of `ALPACA_PAPER_MODE`, which defaults to "true". */
  function IsPaperMode(env: Option<string>): (r: bool)
    ensures env.None? ==> r
    ensures env.Some? ==> (r <==> Lower(env.value) in PaperWords)
  {
    var l := Lower("true");
    assert l[0] == 't' && l[1] == 'r' && l[2] == 'u' && l[3] == 'e';
    assert l == "true";
    Lower(env.GetOr("true")) in PaperWords
  }

  lemma LowerIdempotent(s: string)
    ensures Lower(Lower(s)) == Lower(s)
  {
    var l := Lower(s);
    assert forall i :: 0 <= i < |l| ==> !IsUpperChar(l[i]) && Lower(l)[i] == LowerChar(l[i]) == l[i];
  }

  /** The switch ignores case: a value and its lower-cased form select the same mode. */
  lemma PaperModeIgnoresCase(s: string)
    ensures IsPaperMode(Some(s)) == IsPaperMode(Some(Lower(s)))
  {
    LowerIdempotent(s);
  }

  /** Sixteen minutes, in seconds: the 15-minute restriction plus a minute of margin. */
  const DelaySeconds: real := 960.0

  /** `datetime.now() - timedelta(minutes=16)`. */
  function DataCutoff(now: Moment): (c: Moment)
    requires ValidMoment(now)
    ensures ValidMoment(c) && Seconds(c) == Seconds(now) - DelaySeconds
  {
    if now.second >= DelaySeconds then Moment(now.day, now.second - DelaySeconds)
    else Moment(now.day - 1, now.second + 86400.0 - DelaySeconds)
  }

  /** A later date is replaced by the cutoff, any other kept: the earlier of the two. */
  function ClampToCutoff(date: Moment, now: Moment): (r: Moment)
    requires ValidMoment(now)
    ensures Seconds(r) <= Seconds(DataCutoff(now))
    ensures Seconds(date) <= Seconds(DataCutoff(now)) ==> r == date
    ensures Seconds(date) > Seconds(DataCutoff(now)) ==> r == DataCutoff(now)
  {
    var cutoff := DataCutoff(now);
    if Seconds(date) > Seconds(cutoff) then cutoff else date
  }

  /** Clamping twice with the same `now` is clamping once. */
  lemma ClampIdempotent(date: Moment, now: Moment)
    requires ValidMoment(now)
    ensures ClampToCutoff(ClampToCutoff(date, now), now) == ClampToCutoff(date, now)
  {
  }

  /** `validate_alpaca_date(date_value)`: a string is parsed first; None where that raises. */
  function ValidateAlpacaDate(date: DateArg, now: Moment): (r: Option<Moment>)
    requires ValidMoment(now)
    ensures r.Some? <==> MomentOf(date).Some?
    ensures r.Some? ==> r.value == ClampToCutoff(MomentOf(date).value, now)
  {
    match MomentOf(date)
    case None => None
    case Some(m) => Some(ClampToCutoff(m, now))
  }
}
