/** The `formatTime` helper of the player hook and of the application layout
    (the two are written identically): `${Math.floor(s / 60)}:` followed by
    `Math.floor(s % 60)` padded to two characters with '0'. */
module TimeFormat {
  import opened Text

  /** JavaScript's `%` on numbers: the remainder of the division truncated
      toward zero, so it takes the sign of the dividend. */
  function JsRem(x: real, m: real): real
    requires m != 0.0
  {
    var q := x / m;
    var t := if q >= 0.0 then q.Floor else -((-q).Floor);
    x - m * t as real
  }

  /** `formatTime(seconds)`. */
  function FormatTime(seconds: real): string {
    var mins := (seconds / 60.0).Floor;
    var secs := JsRem(seconds, 60.0).Floor;
    IntToString(mins) + ":" + PadStart2(IntToString(secs))
  }

  /** For a non-negative time the two fields are the whole minutes and the
      remaining whole seconds of `floor(seconds)`. */
  lemma FormatTimeFields(seconds: real)
    requires seconds >= 0.0
    ensures (seconds / 60.0).Floor == seconds.Floor / 60
    ensures JsRem(seconds, 60.0).Floor == seconds.Floor % 60
    ensures 0 <= JsRem(seconds, 60.0).Floor < 60
    ensures (seconds / 60.0).Floor * 60 + JsRem(seconds, 60.0).Floor == seconds.Floor
  {
    var f := seconds.Floor;
    var q := f / 60;
    assert f as real <= seconds < f as real + 1.0;
    assert q * 60 <= f < q * 60 + 60;
    assert (q * 60) as real == q as real * 60.0;
    assert q as real <= seconds / 60.0;
    assert seconds / 60.0 < q as real + 1.0;
    assert (seconds / 60.0).Floor == q;
    var rem := seconds - 60.0 * q as real;
    assert JsRem(seconds, 60.0) == rem;
    assert (f - q * 60) as real <= rem < (f - q * 60) as real + 1.0;
    assert rem.Floor == f - q * 60;
  }

  /** For a non-negative time the text is the decimal minutes, ':' and exactly
      two digits of seconds, the seconds below 60; minutes and seconds add up to
      `floor(seconds)`. */
  lemma FormatTimeShape(seconds: real)
    requires seconds >= 0.0
    ensures var f := seconds.Floor;
            FormatTime(seconds)
            == NatToString(f / 60) + ":" + [DigitChar(f % 60 / 10), DigitChar(f % 60 % 10)]
  {
    FormatTimeFields(seconds);
    var f := seconds.Floor;
    var secs := f % 60;
    if secs < 10 {
      assert NatToString(secs) == [DigitChar(secs)];
      assert secs / 10 == 0 && secs % 10 == secs;
    } else {
      assert NatToString(secs) == NatToString(secs / 10) + [DigitChar(secs % 10)];
      assert NatToString(secs / 10) == [DigitChar(secs / 10)];
    }
  }

  /** The text `m:ss` for `s < 60` splits back into `m` and `s`. */
  lemma {:induction false} ClockTextFields(m: nat, s: nat)
    requires s < 60
    ensures var minutes := NatToString(m);
            var text := minutes + ":" + [DigitChar(s / 10), DigitChar(s % 10)];
            text[..|minutes|] == minutes && text[|minutes|] == ':' && |text| == |minutes| + 3
            && IsDigits(text[|minutes| + 1..])
            && DecimalValue(minutes) == m && DecimalValue(text[|minutes| + 1..]) == s
  {
    var minutes := NatToString(m);
    var ss := [DigitChar(s / 10), DigitChar(s % 10)];
    var text := minutes + ":" + ss;
    NatToStringRoundTrip(m);
    assert text[|minutes| + 1..] == ss;
    assert ss[..1] == [DigitChar(s / 10)];
    assert DecimalValue(ss[..1]) == s / 10;
  }

  /** Reading the two fields back recovers `floor(seconds)`: the minutes times
      60 plus the two-digit seconds, which are below 60. */
  lemma FormatTimeRoundTrip(seconds: real)
    requires seconds >= 0.0
    ensures var f := seconds.Floor;
            var text := FormatTime(seconds);
            var minutes := NatToString(f / 60);
            text[..|minutes|] == minutes && text[|minutes|] == ':' && |text| == |minutes| + 3
            && IsDigits(text[|minutes| + 1..])
            && 60 * DecimalValue(minutes) + DecimalValue(text[|minutes| + 1..]) == f
            && DecimalValue(text[|minutes| + 1..]) < 60
  {
    FormatTimeShape(seconds);
    var f := seconds.Floor;
    ClockTextFields(f / 60, f % 60);
  }
}
