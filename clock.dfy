// Relative times as the two activity lists print them, and the `m:ss`
// clock text of the quiz countdown and the transcript timestamps. Times are integer
// millisecond timestamps passed in by the caller; "now" is a parameter.

module Clock {
  import opened Wrappers
  import opened Strings

  const MinuteMs: int := 60000
  const HourMs: int := 3600000
  const DayMs: int := 86400000

  /** A bucketed age: the largest unit with a positive count, or "Just now". */
  datatype Ago = JustNow | Minutes(m: nat) | Hours(h: nat) | Days(d: nat)

  /** `'Just now'`, `` `${m}m ago` ``, `` `${h}h ago` `` or `` `${d}d ago` ``. */
  function AgoText(a: Ago): string
  {
    match a
    case JustNow => "Just now"
    case Minutes(m) => NatToString(m) + "m ago"
    case Hours(h) => NatToString(h) + "h ago"
    case Days(d) => NatToString(d) + "d ago"
  }

  /** The unit letter of a printed age. */
  function UnitOf(a: Ago): char
  {
    match a
    case JustNow => ' '
    case Minutes(_) => 'm'
    case Hours(_) => 'h'
    case Days(_) => 'd'
  }

  /** The count of a printed age (none for "Just now"). */
  function CountOf(a: Ago): Option<int>
  {
    match a
    case JustNow => None
    case Minutes(m) => Some(m)
    case Hours(h) => Some(h)
    case Days(d) => Some(d)
  }

  /** A printed age reads back: its leading number is the count and the letter after it is the unit. */
  lemma AgoTextReadsBack(a: Ago)
    ensures ParseInt(AgoText(a)) == CountOf(a)
    ensures !a.JustNow? ==> |AgoText(a)| >= 6 && AgoText(a)[|AgoText(a)| - 5] == UnitOf(a)
  {
    var t := AgoText(a);
    match a
    case JustNow =>
      assert t[0] == 'J';
      assert TrimStart(t) == t;
      assert Unsigned(t) == t;
    case Minutes(m) =>
      ParseIntOfNumber(m, "m ago");
    case Hours(h) =>
      ParseIntOfNumber(h, "h ago");
    case Days(d) =>
      ParseIntOfNumber(d, "d ago");
  }

  /** Different ages never print the same text. */
  lemma AgoTextInjective(a: Ago, b: Ago)
    requires AgoText(a) == AgoText(b)
    ensures a == b
  {
    AgoTextReadsBack(a);
    AgoTextReadsBack(b);
  }

  function Pad2(t: string): (r: string)
    ensures |t| < 2 ==> r == "0" + t
    ensures |t| >= 2 ==> r == t
  {
    if |t| < 2 then "0" + t else t
  }

  /** `formatTime`: whole minutes, a colon, then the seconds in two digits. */
  function FormatTime(seconds: nat): string
  {
    NatToString(seconds / 60) + ":" + Pad2(NatToString(seconds % 60))
  }

  /** The seconds part is always two digits. */
  lemma SecondsTwoDigits(seconds: nat)
    ensures |Pad2(NatToString(seconds % 60))| == 2 && AllDigits(Pad2(NatToString(seconds % 60)))
  {
    var s := seconds % 60;
    if s >= 10 {
      assert NatToString(s) == NatToString(s / 10) + [DigitChar(s % 10)];
    }
  }

  /** Reading the two parts of the text back gives the minutes and seconds, so the text determines the time. */
  lemma FormatTimeReadsBack(seconds: nat)
    ensures Split(FormatTime(seconds), ':') == [NatToString(seconds / 60), Pad2(NatToString(seconds % 60))]
    ensures ParseInt(NatToString(seconds / 60)) == Some(seconds / 60)
    ensures ParseInt(Pad2(NatToString(seconds % 60))) == Some(seconds % 60)
  {
    var m := NatToString(seconds / 60);
    var ss := Pad2(NatToString(seconds % 60));
    SecondsTwoDigits(seconds);
    assert NoSeparator(m, ':');
    assert NoSeparator(ss, ':');
    JoinSplitRoundTrip([m, ss], ':');
    assert Join([m, ss], [':']) == m + ":" + ss;
    ParsePrinted(seconds / 60);
    ParseTwoDigits(seconds % 60);
  }

  lemma ParseTwoDigits(s: nat)
    requires s < 60
    ensures ParseInt(Pad2(NatToString(s))) == Some(s)
  {
    var t := Pad2(NatToString(s));
    if s < 10 {
      assert t == ['0', DigitChar(s)];
      assert AllDigits(t);
      assert TrimStart(t) == t;
      assert Unsigned(t) == t;
      LeadingDigitsOfDigits(t, "");
      assert t + "" == t;
      assert t[..1] == "0";
      assert t[..1][..0] == [];
      assert DigitsValue(t[..1]) == 0;
      assert DigitsValue(t) == s;
    } else {
      ParsePrinted(s);
    }
  }

  /** Different times never print the same clock text. */
  lemma FormatTimeInjective(a: nat, b: nat)
    requires FormatTime(a) == FormatTime(b)
    ensures a == b
  {
    FormatTimeReadsBack(a);
    FormatTimeReadsBack(b);
    assert a == 60 * (a / 60) + a % 60;
    assert b == 60 * (b / 60) + b % 60;
  }
}
