/** The player's control bar: the compact clock shown beside the seek bar, the ten-second seek
    buttons and the playback-rate choices. */
module VideoControls {
  import opened Strings
  import opened Clock

  /** `formatTime`: `H:MM:SS` when the hour of the day is not zero, `M:SS` otherwise; the leading
      field is unpadded, the others are two digits. */
  function FormatCompact(t: nat): (r: string)
    ensures |r| >= 4 && r[|r| - 3] == ':' && r[|r| - 2..] == Pad2(Seconds(t))
    ensures Hours(t) != 0 ==> |r| >= 7 && r[|r| - 6] == ':' && r[|r| - 5..|r| - 3] == Pad2(Minutes(t))
    ensures Hours(t) == 0 ==> r[..|r| - 3] == NatToString(Minutes(t))
    ensures |r| <= 8
  {
    var hh, mm, ss := Hours(t), Minutes(t), Pad2(Seconds(t));
    if hh != 0 then NatToString(hh) + ":" + Pad2(mm) + ":" + ss
    else NatToString(mm) + ":" + ss
  }

  /** A two-digit field with a leading zero dropped. */
  function DropZero(f: string): string
  {
    if |f| == 2 && f[0] == '0' then f[1..] else f
  }

  /** The compact form read off the fixed-width `HH:MM:SS` form: a zero hour field is dropped
      with its colon, and the leading zero of the first remaining field is dropped. */
  function TrimClock(s: string): string
    requires |s| == 8
  {
    var hh, rest := s[..2], s[3..];
    if hh == "00" then DropZero(rest[..2]) + rest[2..] else DropZero(hh) + ":" + rest
  }

  /** `n.toString()` of a two-digit number is its padded form without the leading zero. */
  lemma NatToStringIsDropZero(n: nat)
    requires n < 100
    ensures NatToString(n) == DropZero(Pad2(n))
  {
    if n >= 10 {
      assert NatToString(n / 10) == [Digit(n / 10)];
    }
  }

  /** A padded field reads "00" exactly for zero. */
  lemma Pad2Zero(n: nat)
    requires n < 100
    ensures Pad2(n) == "00" <==> n == 0
  {
    if Pad2(n) == "00" {
      assert DigitValue(Pad2(n)[0]) == 0 && DigitValue(Pad2(n)[1]) == 0;
    }
  }

  /** The control bar's clock is the notes' clock with leading zeros removed: the two renderings
      of one position never disagree. */
  lemma CompactIsTrimmedClock(t: nat)
    ensures FormatCompact(t) == TrimClock(FormatClock(t))
  {
    var s := FormatClock(t);
    assert s[..2] == Pad2(Hours(t));
    assert s[3..][..2] == Pad2(Minutes(t));
    assert s[3..][2..] == ":" + Pad2(Seconds(t));
    Pad2Zero(Hours(t));
    NatToStringIsDropZero(Hours(t));
    NatToStringIsDropZero(Minutes(t));
  }

  /** Positions within the first hour of the day print as `M:SS`. */
  lemma FormatCompactMinuteExamples()
    ensures FormatCompact(0) == "0:00"
    ensures FormatCompact(600) == "10:00"
    ensures FormatCompact(86400) == "0:00"
  {
    assert Pad2(0) == "00";
    assert Hours(0) == 0 && Minutes(0) == 0 && Seconds(0) == 0;
    assert Hours(600) == 0 && Minutes(600) == 10 && Seconds(600) == 0;
    assert Hours(86400) == 0 && Minutes(86400) == 0 && Seconds(86400) == 0;
    assert NatToString(10) == "10";
  }

  /** Later positions print as `H:MM:SS`, the hour unpadded. */
  lemma FormatCompactHourExamples()
    ensures FormatCompact(3661) == "1:01:01"
    ensures FormatCompact(86399) == "23:59:59"
  {
    assert Pad2(59) == "59" && Pad2(1) == "01";
    assert Hours(3661) == 1 && Minutes(3661) == 1 && Seconds(3661) == 1;
    assert Hours(86399) == 23 && Minutes(86399) == 59 && Seconds(86399) == 59;
    assert NatToString(23) == "23";
  }

  const SeekStep: int := 10

  /** The rewind button's seek request: ten seconds back, not clamped at zero. */
  function RewindTarget(currentTime: int): (r: int)
    ensures r < currentTime
  {
    currentTime - SeekStep
  }

  /** The fast-forward button's seek request: ten seconds on, not clamped at the duration. */
  function ForwardTarget(currentTime: int): (r: int)
    ensures r > currentTime
  {
    currentTime + SeekStep
  }

  /** Each button moves the request by ten seconds, the two undo each other, and near the start rewinding asks for a negative position. */
  lemma SeekButtonsInverse(t: int)
    ensures ForwardTarget(RewindTarget(t)) == t && RewindTarget(ForwardTarget(t)) == t
    ensures t - RewindTarget(t) == 10 && ForwardTarget(t) - t == 10
    ensures 0 <= t < SeekStep ==> RewindTarget(t) < 0
  {
  }

  /** The playback rates offered, in quarters of normal speed: 0.25x up to 2x. */
  const RateQuarters: seq<nat> := [1, 2, 3, 4, 5, 6, 7, 8]

  /** Eight rates, evenly spaced a quarter apart, normal speed among them. */
  lemma RatesAreQuarterSteps()
    ensures |RateQuarters| == 8
    ensures forall k :: 0 <= k < |RateQuarters| ==> RateQuarters[k] == k + 1
    ensures 4 in RateQuarters
  {
  }
}
