/**
  The handful of JavaScript built-ins the application's logic relies on,
  written out over Dafny's exact types: `Math.round`, `Number.prototype.toFixed(1)`
  read back with `parseFloat`, `String.prototype.trim`, and the truthiness tests
  (`x || d`, `!x`) that the components apply to optional profile fields.
  Numbers are `real`: the model is exact where the source uses IEEE doubles.
*/
module Js {

  /** An optional value: `None` stands for `undefined` or `null`. */
  datatype Option<T> = None | Some(value: T)

  /** The outcome of an awaited call: a value, or the message of what it threw. */
  datatype Result<T> = Ok(value: T) | Err(error: string)

  /** `Math.round`: the nearest integer, halves rounded toward +infinity. */
  function Round(x: real): (n: int)
    ensures x - 0.5 < n as real <= x + 0.5
  {
    (x + 0.5).Floor
  }

  /** `Math.round` never reverses the order of its arguments. */
  lemma RoundMonotone(x: real, y: real)
    requires x <= y
    ensures Round(x) <= Round(y)
  {
  }

  /** An argument one or more above another rounds strictly higher. */
  lemma RoundStrictStep(x: real, y: real)
    requires x + 1.0 <= y
    ensures Round(x) < Round(y)
  {
  }

  /** A real with at most one decimal digit. */
  predicate IsTenth(r: real)
  {
    (r * 10.0).Floor as real == r * 10.0
  }

  /** Tenths of a non-negative real, rounded half up: `toFixed(1)` on a magnitude. */
  function TenthsOf(y: real): (n: int)
    requires y >= 0.0
    ensures n >= 0
    ensures y * 10.0 - 0.5 < n as real <= y * 10.0 + 0.5
  {
    (y * 10.0 + 0.5).Floor
  }

  /**
    `parseFloat(x.toFixed(1))`: the nearest multiple of 0.1. `toFixed` rounds
    the magnitude and restores the sign, so exact halves go away from zero.
  */
  function ToFixed1(x: real): (r: real)
    ensures IsTenth(r)
    ensures x >= 0.0 ==> x - 0.05 < r <= x + 0.05
    ensures x < 0.0 ==> x - 0.05 <= r < x + 0.05
  {
    var n := if x < 0.0 then -TenthsOf(-x) else TenthsOf(x);
    assert (n as real / 10.0 * 10.0).Floor == n;
    n as real / 10.0
  }

  /**
    Rounding to one decimal never carries a value from at or above a
    one-decimal threshold `t` to below it; it carries a value from below `t`
    to `t` or above exactly when the value is within 0.05 under `t`.
  */
  lemma {:induction false} ToFixed1AgainstThreshold(x: real, t: real)
    requires IsTenth(t) && t > 0.0
    ensures x >= t ==> ToFixed1(x) >= t
    ensures x < t ==> (ToFixed1(x) >= t <==> t - 0.05 <= x)
  {
    var k := (t * 10.0).Floor;
    assert k as real == t * 10.0;
    if x >= 0.0 {
      var n := TenthsOf(x);
      assert ToFixed1(x) == n as real / 10.0;
      if x >= t {
        assert k as real <= x * 10.0 + 0.5;
        assert k <= n;
      } else if t - 0.05 <= x {
        assert k as real <= x * 10.0 + 0.5;
        assert k <= n;
      } else {
        assert x * 10.0 + 0.5 < k as real;
        assert n < k;
        assert n as real / 10.0 < t;
      }
    } else {
      assert ToFixed1(x) < x + 0.05;
    }
  }

  /** The characters `String.prototype.trim` removes: white space and line terminators. */
  predicate IsWhitespace(c: char)
  {
    c == '\t' || c == '\n' || c == '\U{000B}' || c == '\U{000C}' || c == '\r' || c == ' '
    || c == '\U{00A0}' || c == '\U{1680}' || ('\U{2000}' <= c <= '\U{200A}')
    || c == '\U{2028}' || c == '\U{2029}' || c == '\U{202F}' || c == '\U{205F}'
    || c == '\U{3000}' || c == '\U{FEFF}'
  }

  /** The index of the first non-white-space character of `s` at or after `i`. */
  function SkipLeading(s: string, i: nat): (k: nat)
    requires i <= |s|
    ensures i <= k <= |s|
    ensures forall j :: i <= j < k ==> IsWhitespace(s[j])
    ensures k < |s| ==> !IsWhitespace(s[k])
    decreases |s| - i
  {
    if i < |s| && IsWhitespace(s[i]) then SkipLeading(s, i + 1) else i
  }

  /** The end of `s[..j]` once its trailing white space is dropped. */
  function SkipTrailing(s: string, j: nat): (k: nat)
    requires j <= |s|
    ensures k <= j
    ensures forall m :: k <= m < j ==> IsWhitespace(s[m])
    ensures k > 0 ==> !IsWhitespace(s[k - 1])
    decreases j
  {
    if j > 0 && IsWhitespace(s[j - 1]) then SkipTrailing(s, j - 1) else j
  }

  /** `String.prototype.trim`. */
  function Trim(s: string): (r: string)
    ensures |r| <= |s|
    ensures r == "" <==> forall i :: 0 <= i < |s| ==> IsWhitespace(s[i])
    ensures r != "" ==> !IsWhitespace(r[0]) && !IsWhitespace(r[|r| - 1])
    ensures exists i, j :: 0 <= i <= j <= |s| && r == s[i..j]
              && (forall k :: 0 <= k < i ==> IsWhitespace(s[k]))
              && (forall k :: j <= k < |s| ==> IsWhitespace(s[k]))
  {
    var i := SkipLeading(s, 0);
    if i == |s| then
      assert "" == s[|s|..|s|];
      ""
    else
      var j := SkipTrailing(s, |s|);
      assert !IsWhitespace(s[i]);
      s[i..j]
  }

  /** Trimming twice is trimming once. */
  lemma {:induction false} TrimIdempotent(s: string)
    ensures Trim(Trim(s)) == Trim(s)
  {
    var r := Trim(s);
    if r != "" {
      assert SkipLeading(r, 0) == 0;
      assert SkipTrailing(r, |r|) == |r|;
    }
  }

  /** JavaScript truthiness of an optional number (NaN is not modelled). */
  predicate TruthyNumber(o: Option<real>)
  {
    o.Some? && o.value != 0.0
  }

  /** JavaScript truthiness of an optional string. */
  predicate TruthyString(o: Option<string>)
  {
    o.Some? && o.value != ""
  }

  /** `o || d` for a number. */
  function NumberOr(o: Option<real>, d: real): real
  {
    if TruthyNumber(o) then o.value else d
  }

  /** `o || d` for a string. */
  function StringOr(o: Option<string>, d: string): string
  {
    if TruthyString(o) then o.value else d
  }

  /** `o || d` for an array: every array, even an empty one, is truthy. */
  function ArrayOr<T>(o: Option<seq<T>>, d: seq<T>): seq<T>
  {
    if o.Some? then o.value else d
  }
}
