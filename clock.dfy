/**
 * The `m:ss` time display. `FormatTime` follows the float expression of
 * the player (truncating division by 60, remainder, `toString`, and
 * `("0" + s).slice(-2)`) on non-negative reals; `FormatSeconds` is the same
 * text for a whole number of seconds, and `ParseClock` reads it back.
 */
module Clock {
  import opened Wrappers

  predicate IsDigit(c: char) {
    '0' <= c <= '9'
  }

  function Digit(d: nat): (c: char)
    requires d < 10
    ensures IsDigit(c) && c as int - '0' as int == d
  {
    ('0' as int + d) as char
  }

  function DigitValue(c: char): (d: nat)
    requires IsDigit(c)
    ensures d < 10 && Digit(d) == c
  {
    c as int - '0' as int
  }

  predicate AllDigits(s: string) {
    forall i :: 0 <= i < |s| ==> IsDigit(s[i])
  }

  /** The number a string of decimal digits denotes, most significant digit first. */
  function DecimalValue(s: string): nat
    requires AllDigits(s)
    decreases |s|
  {
    if |s| == 0 then 0 else 10 * DecimalValue(s[..|s| - 1]) + DigitValue(s[|s| - 1])
  }

  /** A decimal numeral as JavaScript prints an integer: digits, no leading zero except "0" itself. */
  predicate Canonical(s: string) {
    |s| >= 1 && AllDigits(s) && (s[0] == '0' ==> |s| == 1)
  }

  /** `Number.prototype.toString()` of a non-negative whole number. */
  function NatToString(n: nat): (s: string)
    ensures Canonical(s) && DecimalValue(s) == n
    decreases n
  {
    if n < 10 then [Digit(n)]
    else
      var prefix := NatToString(n / 10);
      var s := prefix + [Digit(n % 10)];
      assert s[..|s| - 1] == prefix;
      s
  }

  lemma {:induction false} LeadingDigitNonZero(s: string)
    requires AllDigits(s) && |s| >= 1 && s[0] != '0'
    ensures DecimalValue(s) >= 1
    decreases |s|
  {
    if |s| > 1 {
      LeadingDigitNonZero(s[..|s| - 1]);
    }
  }

  /** A canonical numeral is exactly what `toString` prints for its value. */
  lemma {:induction false} CanonicalRoundTrip(s: string)
    requires Canonical(s)
    ensures NatToString(DecimalValue(s)) == s
    decreases |s|
  {
    if |s| > 1 {
      var prefix := s[..|s| - 1];
      assert Canonical(prefix);
      LeadingDigitNonZero(prefix);
      CanonicalRoundTrip(prefix);
      assert prefix + [s[|s| - 1]] == s;
    }
  }

  /** `String.prototype.slice(-2)`: the last two characters, or the whole string when shorter. */
  function SliceLast2(s: string): (r: string)
    ensures |r| == if |s| < 2 then |s| else 2
  {
    if |s| >= 2 then s[|s| - 2..] else s
  }

  /** What `slice(-2)` keeps is the end of the string. */
  lemma SliceLast2Suffix(s: string)
    ensures s == s[..|s| - |SliceLast2(s)|] + SliceLast2(s)
  {
  }

  lemma TwoDigitValue(s: string)
    requires |s| == 2 && AllDigits(s)
    ensures DecimalValue(s) == 10 * DigitValue(s[0]) + DigitValue(s[1])
  {
    assert s[..1][..0] == [];
    assert DecimalValue(s[..1]) == DigitValue(s[0]);
  }

  /** The seconds field: `("0" + toString(v)).slice(-2)` is `v` in exactly two digits. */
  lemma PaddedSeconds(v: nat)
    requires v < 100
    ensures SliceLast2("0" + NatToString(v)) == [Digit(v / 10), Digit(v % 10)]
    ensures AllDigits([Digit(v / 10), Digit(v % 10)])
    ensures DecimalValue([Digit(v / 10), Digit(v % 10)]) == v
  {
    var tens, ones := Digit(v / 10), Digit(v % 10);
    TwoDigitValue([tens, ones]);
    assert DigitValue(tens) == v / 10 && DigitValue(ones) == v % 10;
    if v < 10 {
      assert NatToString(v) == [ones];
      assert "0" + NatToString(v) == [tens, ones];
    } else {
      assert NatToString(v / 10) == [tens];
      assert NatToString(v) == [tens, ones];
      assert ("0" + NatToString(v))[1..] == [tens, ones];
    }
  }

  lemma Fields(minutes: string, seconds: string)
    requires |seconds| == 2
    ensures var r := minutes + ":" + seconds;
      |r| == |minutes| + 3 && r[|r| - 3] == ':' && r[..|r| - 3] == minutes && r[|r| - 2..] == seconds
  {
  }

  /** The display for a whole number `t` of seconds. */
  function FormatSeconds(t: nat): (r: string)
    ensures |r| >= 4 && r[|r| - 3] == ':'
  {
    NatToString(t / 60) + ":" + SliceLast2("0" + NatToString(t % 60))
  }

  /** `r` is a display with minute field worth `minutes` and a two-digit seconds field worth `seconds`. */
  predicate ClockFields(r: string, minutes: nat, seconds: nat) {
    && |r| >= 4 && r[|r| - 3] == ':'
    && Canonical(r[..|r| - 3]) && DecimalValue(r[..|r| - 3]) == minutes
    && AllDigits(r[|r| - 2..]) && DecimalValue(r[|r| - 2..]) == seconds
  }

  /**
   * The display for `t` seconds has the whole minutes, unpadded, before the
   * colon and the seconds within the minute, always two digits, after it.
   */
  lemma FormatSecondsFields(t: nat)
    ensures ClockFields(FormatSeconds(t), t / 60, t % 60)
  {
    var minutes := NatToString(t / 60);
    var v := t % 60;
    var seconds := SliceLast2("0" + NatToString(v));
    PaddedSeconds(v);
    var r := minutes + ":" + seconds;
    Fields(minutes, seconds);
    assert r[..|r| - 3] == minutes && r[|r| - 2..] == seconds;
    assert ClockFields(r, t / 60, v);
  }

  /** Reads a well-formed `m:ss` display back into whole seconds. */
  function ParseClock(s: string): Option<nat> {
    if |s| >= 4 && s[|s| - 3] == ':' && Canonical(s[..|s| - 3])
       && AllDigits(s[|s| - 2..]) && DecimalValue(s[|s| - 2..]) < 60
    then Some(60 * DecimalValue(s[..|s| - 3]) + DecimalValue(s[|s| - 2..]))
    else None
  }

  /** Every display reads back as the number of seconds it was made from. */
  lemma FormatThenParse(t: nat)
    ensures ParseClock(FormatSeconds(t)) == Some(t)
  {
    FormatSecondsFields(t);
    FieldsParse(FormatSeconds(t), t);
  }

  /** A display whose fields are worth the whole minutes and the remaining seconds of `t` reads back as `t`. */
  lemma FieldsParse(r: string, t: nat)
    requires ClockFields(r, t / 60, t % 60)
    ensures ParseClock(r) == Some(t)
  {
    assert 60 * (t / 60) + t % 60 == t;
  }

  /** Every well-formed display is the display of the seconds it reads as. */
  lemma {:induction false} ParseThenFormat(s: string)
    requires ParseClock(s).Some?
    ensures FormatSeconds(ParseClock(s).value) == s
  {
    var t := ParseClock(s).value;
    FormatSecondsFields(t);
    assert ClockFields(s, t / 60, t % 60);
    SameFields(FormatSeconds(t), s, t / 60, t % 60);
  }

  /** A display is determined by the values of its two fields. */
  lemma SameFields(a: string, b: string, minutes: nat, seconds: nat)
    requires ClockFields(a, minutes, seconds) && ClockFields(b, minutes, seconds)
    ensures a == b
  {
    CanonicalRoundTrip(a[..|a| - 3]);
    CanonicalRoundTrip(b[..|b| - 3]);
    TwoDigitValue(a[|a| - 2..]);
    TwoDigitValue(b[|b| - 2..]);
    Reassemble(a);
    Reassemble(b);
  }

  lemma Reassemble(s: string)
    requires |s| >= 4 && s[|s| - 3] == ':'
    ensures s == s[..|s| - 3] + ":" + s[|s| - 2..]
  {
    var n := |s| - 3;
    assert s == s[..n] + s[n..];
    assert s[n..] == [':'] + s[n + 1..];
  }

  /** JavaScript's `Math.trunc` on a non-negative number. */
  function Trunc(x: real): (n: nat)
    requires x >= 0.0
    ensures n as real <= x < n as real + 1.0
  {
    x.Floor
  }

  /** JavaScript's `x % 60` on a non-negative `x`: what is left after the whole minutes. */
  function MinuteRemainder(x: real): (r: real)
    requires x >= 0.0
    ensures 0.0 <= r < 60.0
    ensures Trunc(r) == x.Floor % 60
  {
    WholeMinutes(x, Trunc(x / 60.0));
    x - 60.0 * Trunc(x / 60.0) as real
  }

  /**
   * The display for a playback time of `x` seconds, computed as the
   * player computes it; it is the display of the whole seconds elapsed.
   */
  function FormatTime(x: real): (r: string)
    requires x >= 0.0
    ensures r == FormatSeconds(x.Floor)
  {
    var q := Trunc(x / 60.0);
    var rest := MinuteRemainder(x);
    WholeMinutes(x, q);
    NatToString(q) + ":" + SliceLast2("0" + NatToString(Trunc(rest)))
  }

  lemma WholeMinutes(x: real, q: nat)
    requires x >= 0.0 && q == Trunc(x / 60.0)
    ensures x.Floor / 60 == q && x.Floor % 60 == Trunc(x - 60.0 * q as real)
  {
    var whole := x.Floor;
    assert 60 * q <= whole < 60 * q + 60;
  }
}
