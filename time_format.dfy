/**
 * `formatDuration` (the five identical copies in the pages and artist hubs)
 * and the players' `formatTime`: "m:ss" from a number of seconds.
 */
module TimeFormat {
  import opened Text

  /** Truncation toward zero, as JavaScript's `%` uses it. */
  function Trunc(x: real): (t: int)
    ensures 0.0 <= x ==> t == x.Floor
    ensures x < 0.0 ==> x <= t as real < x + 1.0
  {
    if x >= 0.0 then x.Floor else -((-x).Floor)
  }

  /** JavaScript's `x % m` on numbers: the remainder carries the sign of `x`. */
  function JsRem(x: real, m: real): real
    requires m != 0.0
  {
    x - m * Trunc(x / m) as real
  }

  /** `${Math.floor(s / 60)}:${Math.floor(s % 60).toString().padStart(2, '0')}`. */
  function FormatDuration(seconds: real): string {
    IntToString((seconds / 60.0).Floor) + ":" + PadStart2(IntToString(JsRem(seconds, 60.0).Floor))
  }

  /** `formatTime`: falsy input (here: 0) renders "0:00", anything else as FormatDuration. */
  function FormatTime(seconds: real): string {
    if seconds == 0.0 then "0:00" else FormatDuration(seconds)
  }

  /** The seconds field of a whole-second count below 60, padded to two digits. */
  function TwoDigits(k: nat): string {
    PadStart2(NatToString(k))
  }

  lemma TwoDigitsFacts(k: nat)
    requires k < 60
    ensures |TwoDigits(k)| == 2
    ensures IsDigits(TwoDigits(k))
    ensures ParseDigits(TwoDigits(k)) == k
  {
    NatToStringShort(k);
    ParseNatToString(k);
    var d := NatToString(k);
    if |d| == 1 {
      assert TwoDigits(k) == "0" + d;
      assert ("0" + d)[..1] == "0";
    }
  }

  /** For non-negative input the two fields are minutes and seconds of the whole-second count. */
  lemma {:induction false} FloorSplit(seconds: real)
    requires 0.0 <= seconds
    ensures (seconds / 60.0).Floor == seconds.Floor / 60
    ensures JsRem(seconds, 60.0).Floor == seconds.Floor % 60
  {
    var n := seconds.Floor;
    var q := (seconds / 60.0).Floor;
    assert q as real <= seconds / 60.0 < q as real + 1.0;
    assert 60.0 * q as real <= seconds < 60.0 * q as real + 60.0;
    assert 60 * q <= n < 60 * q + 60;
    assert n / 60 == q;
    assert Trunc(seconds / 60.0) == q;
    var rem := seconds - 60.0 * q as real;
    assert (n - 60 * q) as real <= rem < (n - 60 * q) as real + 1.0;
    assert rem.Floor == n - 60 * q;
  }

  /**
   * The rendering of a non-negative duration: minutes, a colon, and exactly two
   * digits of seconds below 60, so that reading it back gives the whole seconds.
   */
  lemma FormatDurationFields(seconds: real)
    requires 0.0 <= seconds
    ensures var r := FormatDuration(seconds);
      var n := seconds.Floor;
      |r| >= 4 && r[|r| - 3] == ':'
      && IsDigits(r[..|r| - 3]) && ParseDigits(r[..|r| - 3]) == n / 60
      && IsDigits(r[|r| - 2..]) && ParseDigits(r[|r| - 2..]) == n % 60 < 60
      && 60 * ParseDigits(r[..|r| - 3]) + ParseDigits(r[|r| - 2..]) == n
  {
    var n := seconds.Floor;
    FloorSplit(seconds);
    TwoDigitsFacts(n % 60);
    ParseNatToString(n / 60);
    var m := NatToString(n / 60);
    var ss := TwoDigits(n % 60);
    var r := FormatDuration(seconds);
    assert r == m + ":" + ss;
    assert r[..|r| - 3] == m;
    assert r[|r| - 2..] == ss;
  }

  /** Two durations render alike exactly when they have the same whole seconds. */
  lemma FormatDurationInjective(a: real, b: real)
    requires 0.0 <= a && 0.0 <= b
    ensures FormatDuration(a) == FormatDuration(b) <==> a.Floor == b.Floor
  {
    FormatDurationFields(a);
    FormatDurationFields(b);
    FloorSplit(a);
    FloorSplit(b);
  }

  /** The players' formatTime agrees with formatDuration on every input. */
  lemma FormatTimeAgrees(seconds: real)
    ensures FormatTime(seconds) == FormatDuration(seconds)
  {
    if seconds == 0.0 {
      assert JsRem(0.0, 60.0) == 0.0;
      assert FormatDuration(0.0) == "0" + ":" + "00";
    }
  }

  /** The minute boundary: 59 s is "0:59" and 60 s is "1:00". */
  lemma MinuteBoundary()
    ensures FormatTime(59.0) == "0:59"
    ensures FormatTime(60.0) == "1:00"
  {
    FloorSplit(59.0);
    FloorSplit(60.0);
    assert NatToString(59) == "59";
    assert FormatDuration(59.0) == "0" + ":" + "59";
    assert FormatDuration(60.0) == "1" + ":" + "00";
  }
}
