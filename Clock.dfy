/** The fixed-width `HH:MM:SS` rendering of a playback position: the time-of-day
    part (characters 11 to 18) of the ISO-8601 string of `new Date(t * 1000)`. */
module Clock {
  import opened Wrappers
  import opened Strings

  const SecondsPerDay: nat := 86400

  /** A two-digit, zero-padded field. */
  function Pad2(n: nat): (r: string)
    requires n < 100
    ensures |r| == 2 && '0' <= r[0] <= '9' && '0' <= r[1] <= '9'
    ensures DigitValue(r[0]) * 10 + DigitValue(r[1]) == n
  {
    [Digit(n / 10), Digit(n % 10)]
  }

  /** The value of a two-digit field, if both characters are digits. */
  function ReadPad2(s: string): (r: Option<nat>)
    requires |s| == 2
    ensures r.Some? ==> r.value < 100
  {
    if '0' <= s[0] <= '9' && '0' <= s[1] <= '9' then Some(DigitValue(s[0]) * 10 + DigitValue(s[1])) else None
  }

  /** The second of the day reached `t` whole seconds after midnight UTC. */
  function DaySecond(t: nat): (d: nat)
    ensures d < SecondsPerDay
  {
    t % SecondsPerDay
  }

  /** The hour, minute and second fields of that time of day (`getUTCHours` and friends). */
  function Hours(t: nat): (h: nat)
    ensures h < 24
  {
    DaySecond(t) / 60 / 60
  }

  function Minutes(t: nat): (m: nat)
    ensures m < 60
  {
    DaySecond(t) / 60 % 60
  }

  function Seconds(t: nat): (s: nat)
    ensures s < 60
  {
    DaySecond(t) % 60
  }

  /** The three fields together name the second of the day. */
  lemma FieldsCompose(t: nat)
    ensures Hours(t) * 3600 + Minutes(t) * 60 + Seconds(t) == DaySecond(t)
  {
    var d := DaySecond(t);
    var m := d / 60;
    assert d == 60 * m + d % 60;
    assert m == 60 * (m / 60) + m % 60;
  }

  /** The eight time-of-day characters of the ISO-8601 UTC rendering of `t` seconds after the epoch, for whole seconds `t`. */
  function FormatClock(t: nat): (r: string)
    ensures |r| == 8 && r[2] == ':' && r[5] == ':'
  {
    Pad2(Hours(t)) + ":" + Pad2(Minutes(t)) + ":" + Pad2(Seconds(t))
  }

  /** Reads an `HH:MM:SS` string back to seconds since midnight; `None` for anything malformed or out of range. */
  function ParseClock(s: string): (r: Option<nat>)
    ensures r.Some? ==> r.value < SecondsPerDay
  {
    if |s| != 8 || s[2] != ':' || s[5] != ':' then None
    else
      match (ReadPad2(s[0..2]), ReadPad2(s[3..5]), ReadPad2(s[6..8]))
      case (Some(h), Some(m), Some(sec)) =>
        if h < 24 && m < 60 && sec < 60 then Some(h * 3600 + m * 60 + sec) else None
      case _ => None
  }

  lemma ReadPad2Pad2(n: nat)
    requires n < 100
    ensures ReadPad2(Pad2(n)) == Some(n)
  {
  }

  /** The rendering encodes exactly the time of day: reading it back gives `t mod 86400`,
      so hours wrap at 24 and sub-day information is never lost. */
  lemma FormatClockRoundTrip(t: nat)
    ensures ParseClock(FormatClock(t)) == Some(DaySecond(t))
  {
    var r := FormatClock(t);
    assert r[0..2] == Pad2(Hours(t));
    assert r[3..5] == Pad2(Minutes(t));
    assert r[6..8] == Pad2(Seconds(t));
    ReadPad2Pad2(Hours(t));
    ReadPad2Pad2(Minutes(t));
    ReadPad2Pad2(Seconds(t));
    FieldsCompose(t);
  }

  /** Two positions render alike exactly when they fall on the same second of the day. */
  lemma FormatClockInjectiveModDay(t: nat, u: nat)
    ensures FormatClock(t) == FormatClock(u) <==> DaySecond(t) == DaySecond(u)
  {
    FormatClockRoundTrip(t);
    FormatClockRoundTrip(u);
  }

  /** The reference values: 0 s, 3661 s, a position just short of one minute, and one day plus five seconds. */
  lemma FormatClockExamples()
    ensures FormatClock(0) == "00:00:00"
    ensures FormatClock(3661) == "01:01:01"
    ensures FormatClock(59) == "00:00:59"
    ensures FormatClock(86405) == "00:00:05"
  {
    assert Pad2(0) == "00" && Pad2(1) == "01" && Pad2(59) == "59" && Pad2(5) == "05";
    assert Hours(0) == 0 && Minutes(0) == 0 && Seconds(0) == 0;
    assert Hours(59) == 0 && Minutes(59) == 0 && Seconds(59) == 59;
    assert Hours(3661) == 1 && Minutes(3661) == 1 && Seconds(3661) == 1;
    assert DaySecond(86405) == 5;
    assert Hours(86405) == 0 && Minutes(86405) == 0 && Seconds(86405) == 5;
  }
}
