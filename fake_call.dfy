/** The fake incoming-call screen: its call timer and the `mm:ss` display. */
module FakeCall {
  import opened Text

  /** `formatTime`: whole minutes and the remaining seconds, each padded to two digits. */
  function FormatTime(seconds: nat): (t: string)
    ensures |t| >= 5 && t[|t| - 3] == ':'
  {
    PadStart(NatToString(seconds / 60), 2, '0') + ":" + PadStart(NatToString(seconds % 60), 2, '0')
  }

  /** The minute field of an `m...m:ss` display. */
  function Minutes(t: string): string
    requires |t| >= 3
  {
    t[..|t| - 3]
  }

  /** The two-character second field of an `m...m:ss` display. */
  function Seconds(t: string): string
    requires |t| >= 3
  {
    t[|t| - 2..]
  }

  /** Reads an `m...m:ss` display back as a number of seconds. */
  function ParseClock(t: string): nat
    requires |t| >= 3 && IsDigits(Minutes(t)) && IsDigits(Seconds(t))
  {
    ParseNat(Minutes(t)) * 60 + ParseNat(Seconds(t))
  }

  /**
   * The display has at least two minute digits, a colon and exactly two
   * second digits below 60, and reads back as the original count.
   */
  lemma FormatTimeReadsBack(seconds: nat)
    ensures |FormatTime(seconds)| >= 5 && FormatTime(seconds)[|FormatTime(seconds)| - 3] == ':'
    ensures |FormatTime(seconds)| == 5 || FormatTime(seconds)[0] != '0'
    ensures IsDigits(Minutes(FormatTime(seconds))) && IsDigits(Seconds(FormatTime(seconds)))
    ensures ParseNat(Minutes(FormatTime(seconds))) == seconds / 60
    ensures ParseNat(Seconds(FormatTime(seconds))) == seconds % 60 < 60
    ensures ParseClock(FormatTime(seconds)) == seconds
  {
    var mm := PadStart(NatToString(seconds / 60), 2, '0');
    var ss := PadStart(NatToString(seconds % 60), 2, '0');
    var t := FormatTime(seconds);
    assert |ss| == 2;
    assert Minutes(t) == mm && Seconds(t) == ss;
    ParsePaddedNat(seconds / 60, 2);
    ParsePaddedNat(seconds % 60, 2);
    PaddedMinutesLeadingDigit(seconds / 60);
    assert t[0] == mm[0];
  }

  /** A minute field longer than two characters starts with a non-zero digit. */
  lemma PaddedMinutesLeadingDigit(m: nat)
    ensures var mm := PadStart(NatToString(m), 2, '0');
      |mm| == 2 || mm[0] != '0'
  {
    var d := NatToString(m);
    if |d| > 2 {
      assert PadStart(d, 2, '0') == d;
      NatToStringLeadingDigit(m);
    }
  }

  /** There is no hour field: an hour shows as sixty minutes. */
  lemma NoHourRollover()
    ensures FormatTime(0) == "00:00"
    ensures FormatTime(3600) == "60:00"
  {
    var zero := NatToString(0);
    assert zero == "0";
    assert PadStart(zero, 2, '0') == "00";
    var sixty := NatToString(60);
    assert sixty == NatToString(6) + [DigitChar(0)];
    assert sixty == "60";
    assert PadStart(sixty, 2, '0') == "60";
    assert 3600 / 60 == 60 && 3600 % 60 == 0;
  }

  class CallScreen {
    var isRinging: bool
    var isMuted: bool
    var callTimer: nat

    /** The timer only counts once the call is answered. */
    ghost predicate Valid()
      reads this
    {
      isRinging ==> callTimer == 0
    }

    constructor ()
      ensures Valid() && isRinging && !isMuted && callTimer == 0
    {
      isRinging := true;
      isMuted := false;
      callTimer := 0;
    }

    /** One interval tick. */
    method Tick()
      requires Valid()
      modifies this`callTimer
      ensures Valid()
      ensures callTimer == if isRinging then old(callTimer) else old(callTimer) + 1
    {
      if !isRinging {
        callTimer := callTimer + 1;
      }
    }

    method HandleAnswer()
      requires Valid()
      modifies this`isRinging
      ensures Valid() && !isRinging
    {
      isRinging := false;
    }

    /** Flips the mute flag, so two toggles restore it. */
    method ToggleMute()
      requires Valid()
      modifies this`isMuted
      ensures Valid() && isMuted == !old(isMuted)
    {
      isMuted := !isMuted;
    }
  }
}
