/**
 * The masking of `check_env_var` in the API configuration checker: a set
 * variable is reported with all but its first and last four characters
 * hidden, a short one entirely hidden.
 */
module ApiConfig {
  import opened Common

  /** `(is_set, shown)` as `check_env_var` returns it. */
  datatype EnvCheck = EnvCheck(isSet: bool, shown: string)

  function Stars(n: nat): (r: string)
    ensures |r| == n && forall i :: 0 <= i < n ==> r[i] == '*'
  {
    seq(n, _ => '*')
  }

  /**
   * The mask: longer than eight characters keeps the first four and the
   * last four around stars; otherwise every character becomes a star.
   */
  function Mask(value: string): (m: string)
    ensures |m| == |value|
    ensures |value| > 8 ==> m[..4] == value[..4] && m[|m| - 4..] == value[|value| - 4..]
                            && forall i :: 4 <= i < |m| - 4 ==> m[i] == '*'
    ensures |value| <= 8 ==> forall i :: 0 <= i < |m| ==> m[i] == '*'
  {
    if |value| > 8 then
      var m := value[..4] + Stars(|value| - 8) + value[|value| - 4..];
      assert m[|m| - 4..] == value[|value| - 4..];
      m
    else Stars(|value|)
  }

  /** `check_env_var(name)` for the variable's value (None when unset). */
  function CheckEnvVar(value: Option<string>): (r: EnvCheck)
    ensures r.isSet <==> value.Some? && |value.value| > 0
    ensures !r.isSet ==> r.shown == "Not set"
    ensures r.isSet ==> r.shown == Mask(value.value)
  {
    if value.Some? && |value.value| > 0 then EnvCheck(true, Mask(value.value)) else EnvCheck(false, "Not set")
  }

  /** The mask shows at most eight characters of the value, and none of a short one. */
  lemma MaskHides(value: string, i: int)
    requires 0 <= i < |value| && Mask(value)[i] != '*'
    ensures |value| > 8 && (i < 4 || i >= |value| - 4) && Mask(value)[i] == value[i]
  {
    var m := Mask(value);
    if i < 4 {
      assert m[i] == m[..4][i];
    } else {
      assert m[i] == m[|m| - 4..][i - (|m| - 4)];
    }
  }
}
