/** Clock times written as text, as the booking and availability code stores them. */
module TimeUtil {
  import opened Common

  const MINUTES_PER_DAY: nat := 1440

  /** White space as trimming and the pattern class for white space understand it. */
  predicate IsSpace(c: char) {
    || '\t' <= c <= '\r'
    || c == ' '
    || c == '\U{00A0}' || c == '\U{1680}'
    || '\U{2000}' <= c <= '\U{200A}'
    || c == '\U{2028}' || c == '\U{2029}' || c == '\U{202F}'
    || c == '\U{205F}' || c == '\U{3000}' || c == '\U{FEFF}'
  }

  /** The 25 characters one by one. */
  lemma SpacesAre(c: char)
    ensures IsSpace(c) <==>
            c in {'\t', '\n', '\U{000B}', '\U{000C}', '\r', ' ', '\U{00A0}', '\U{1680}', '\U{2000}', '\U{2001}',
                  '\U{2002}', '\U{2003}', '\U{2004}', '\U{2005}', '\U{2006}', '\U{2007}', '\U{2008}', '\U{2009}',
                  '\U{200A}', '\U{2028}', '\U{2029}', '\U{202F}', '\U{205F}', '\U{3000}', '\U{FEFF}'}
  {
  }

  function TrimStart(s: string): string {
    if s != [] && IsSpace(s[0]) then TrimStart(s[1..]) else s
  }

  function TrimEnd(s: string): string {
    if s != [] && IsSpace(s[|s| - 1]) then TrimEnd(s[..|s| - 1]) else s
  }

  function Trim(s: string): string {
    TrimEnd(TrimStart(s))
  }

  predicate IsDigit(c: char) {
    '0' <= c <= '9'
  }

  function DigitValue(c: char): (d: nat)
    requires IsDigit(c)
    ensures d < 10
  {
    c as int - '0' as int
  }

  function DigitChar(d: nat): (c: char)
    requires d < 10
    ensures IsDigit(c) && DigitValue(c) == d
  {
    ('0' as int + d) as char
  }

  datatype Clock = Clock(hours: nat, minutes: nat, tail: string)

  /** One or two hour digits, a colon, two minute digits, and whatever follows. */
  function ReadClock(s: string): Option<Clock> {
    if |s| >= 4 && IsDigit(s[0]) && s[1] == ':' && IsDigit(s[2]) && IsDigit(s[3]) then
      Some(Clock(DigitValue(s[0]), 10 * DigitValue(s[2]) + DigitValue(s[3]), s[4..]))
    else if |s| >= 5 && IsDigit(s[0]) && IsDigit(s[1]) && s[2] == ':' && IsDigit(s[3]) && IsDigit(s[4]) then
      Some(Clock(10 * DigitValue(s[0]) + DigitValue(s[1]), 10 * DigitValue(s[3]) + DigitValue(s[4]), s[5..]))
    else
      None
  }

  /** The AM/PM marker in any letter case, after optional white space; Some(true) is PM. */
  function ReadPeriod(tail: string): Option<bool> {
    var t := TrimStart(tail);
    if |t| == 2 && t[0] in "AaPp" && t[1] in "Mm" then Some(t[0] in "Pp") else None
  }

  function ParseTimeToMinutes(value: string): (r: Option<nat>)
    ensures r.Some? ==> r.value < MINUTES_PER_DAY
  {
    match ReadClock(Trim(value))
    case None => None
    case Some(Clock(hours, minutes, tail)) =>
      match ReadPeriod(tail)
      case Some(pm) =>
        if hours < 1 || hours > 12 || minutes > 59 then None
        else Some((hours % 12 + (if pm then 12 else 0)) * 60 + minutes)
      case None =>
        if tail != "" || hours > 23 || minutes > 59 then None
        else Some(hours * 60 + minutes)
  }

  function Decimal(n: nat): string {
    if n < 10 then [DigitChar(n)] else Decimal(n / 10) + [DigitChar(n % 10)]
  }

  /** padStart(2, '0') */
  function Pad2(s: string): string {
    if |s| == 0 then "00" else if |s| == 1 then "0" + s else s
  }

  function FormatMinutesAs24Hour(minutes: nat): string {
    Pad2(Decimal(minutes / 60)) + ":" + Pad2(Decimal(minutes % 60))
  }

  function FormatMinutesAs12Hour(minutes: nat): string {
    var hours24 := minutes / 60;
    var hours12 := if hours24 % 12 == 0 then 12 else hours24 % 12;
    Decimal(hours12) + ":" + Pad2(Decimal(minutes % 60)) + (if hours24 >= 12 then " PM" else " AM")
  }

  function To24Hour(value: string): string {
    match ParseTimeToMinutes(value)
    case None => value
    case Some(minutes) => FormatMinutesAs24Hour(minutes)
  }

  function To12Hour(value: string): string {
    match ParseTimeToMinutes(value)
    case None => value
    case Some(minutes) => FormatMinutesAs12Hour(minutes)
  }

  datatype TimeRange = TimeRange(startTime: string, endTime: string)

  predicate RangesOverlap(left: TimeRange, right: TimeRange) {
    match (ParseTimeToMinutes(left.startTime), ParseTimeToMinutes(left.endTime),
           ParseTimeToMinutes(right.startTime), ParseTimeToMinutes(right.endTime))
    case (Some(ls), Some(le), Some(rs), Some(re)) => ls < re && rs < le
    case _ => false
  }

  /** The range is on the clock at this minute: the start is included, the end is not. */
  predicate Covers(range: TimeRange, minute: nat) {
    && ParseTimeToMinutes(range.startTime).Some?
    && ParseTimeToMinutes(range.endTime).Some?
    && ParseTimeToMinutes(range.startTime).value <= minute < ParseTimeToMinutes(range.endTime).value
  }

  // ---- Formatting and reading back ----

  lemma {:induction false} DecimalDigits(n: nat)
    ensures forall i :: 0 <= i < |Decimal(n)| ==> IsDigit(Decimal(n)[i])
  {
    if n >= 10 {
      DecimalDigits(n / 10);
    }
  }

  lemma DecimalLength(n: nat)
    ensures |Decimal(n)| >= 1
    ensures |Decimal(n)| == 1 <==> n < 10
  {
  }

  /** A decimal writing determines its number. */
  lemma {:induction false} DecimalDetermines(m: nat, n: nat)
    requires Decimal(m) == Decimal(n)
    ensures m == n
  {
    var s, t := Decimal(m), Decimal(n);
    DecimalLength(m);
    DecimalLength(n);
    assert DigitValue(s[|s| - 1]) == m % 10;
    assert DigitValue(t[|t| - 1]) == n % 10;
    if m >= 10 {
      assert Decimal(m / 10) == s[..|s| - 1];
      assert Decimal(n / 10) == t[..|t| - 1];
      DecimalDetermines(m / 10, n / 10);
    }
  }

  lemma DecimalTwoDigits(n: nat)
    requires n < 100
    ensures |Decimal(n)| == if n < 10 then 1 else 2
    ensures Pad2(Decimal(n)) == [DigitChar(n / 10), DigitChar(n % 10)]
    ensures n >= 10 ==> Decimal(n) == [DigitChar(n / 10), DigitChar(n % 10)]
  {
    if n >= 10 {
      assert Decimal(n / 10) == [DigitChar(n / 10)];
    }
  }

  /** Text that neither starts nor ends with white space survives trimming. */
  lemma TrimKeeps(s: string)
    requires s != [] && !IsSpace(s[0]) && !IsSpace(s[|s| - 1])
    ensures Trim(s) == s
  {
  }

  lemma ClockParts(minutes: nat)
    requires minutes < MINUTES_PER_DAY
    ensures minutes / 60 < 24 && minutes % 60 < 60 && minutes == (minutes / 60) * 60 + minutes % 60
  {
  }

  lemma ReadsWritten24(h: nat, m: nat)
    requires h < 24 && m < 60
    ensures ReadClock(Trim(Pad2(Decimal(h)) + ":" + Pad2(Decimal(m)))) == Some(Clock(h, m, ""))
  {
    var s := Pad2(Decimal(h)) + ":" + Pad2(Decimal(m));
    DecimalTwoDigits(h);
    DecimalTwoDigits(m);
    hide Decimal, Pad2;
    assert s == [DigitChar(h / 10), DigitChar(h % 10), ':', DigitChar(m / 10), DigitChar(m % 10)];
    TrimKeeps(s);
    assert s[5..] == "";
  }

  lemma ParsedWithoutPeriod(value: string, h: nat, m: nat)
    requires ReadClock(Trim(value)) == Some(Clock(h, m, "")) && h < 24 && m < 60
    ensures ParseTimeToMinutes(value) == Some(h * 60 + m)
  {
    hide ReadClock, Trim;
  }

  lemma Format24RoundTrip(minutes: nat)
    requires minutes < MINUTES_PER_DAY
    ensures ParseTimeToMinutes(FormatMinutesAs24Hour(minutes)) == Some(minutes)
  {
    hide ParseTimeToMinutes, ReadClock, Trim, Decimal, Pad2;
    ClockParts(minutes);
    ReadsWritten24(minutes / 60, minutes % 60);
    ParsedWithoutPeriod(FormatMinutesAs24Hour(minutes), minutes / 60, minutes % 60);
  }

  /** A written hour of one or two digits is read back, whatever marker follows the minutes. */
  lemma ReadsWrittenClock(h: nat, m: nat, tail: string)
    requires 1 <= h < 100 && m < 60
    ensures ReadClock(Decimal(h) + ":" + Pad2(Decimal(m)) + tail) == Some(Clock(h, m, tail))
  {
    DecimalTwoDigits(h);
    DecimalTwoDigits(m);
    var s := Decimal(h) + ":" + Pad2(Decimal(m)) + tail;
    var n := |Decimal(h)|;
    assert s[n] == ':' && s[n + 1] == DigitChar(m / 10) && s[n + 2] == DigitChar(m % 10);
    assert s[n + 3..] == tail;
    assert DigitValue(s[n + 1]) == m / 10 && DigitValue(s[n + 2]) == m % 10;
    if h < 10 {
      assert s[0] == DigitChar(h);
    } else {
      assert s[0] == DigitChar(h / 10) && s[1] == DigitChar(h % 10);
      assert !(s[1] == ':');
    }
  }

  lemma ReadsMarker(pm: bool)
    ensures ReadPeriod(if pm then " PM" else " AM") == Some(pm)
  {
    var tail := if pm then " PM" else " AM";
    assert tail[1..] == (if pm then "PM" else "AM");
    assert TrimStart(tail) == tail[1..];
  }

  lemma TrimKeepsWritten12(h: nat, m: nat, tail: string)
    requires 1 <= h < 100 && tail != "" && !IsSpace(tail[|tail| - 1])
    ensures Trim(Decimal(h) + ":" + Pad2(Decimal(m)) + tail) == Decimal(h) + ":" + Pad2(Decimal(m)) + tail
  {
    DecimalTwoDigits(h);
    var s := Decimal(h) + ":" + Pad2(Decimal(m)) + tail;
    assert s[0] == Decimal(h)[0] && IsDigit(s[0]);
    assert s[|s| - 1] == tail[|tail| - 1];
    TrimKeeps(s);
  }

  /** What reading a written twelve-hour time gives back. */
  lemma ParsedWithPeriod(value: string, h: nat, m: nat, tail: string, pm: bool)
    requires ReadClock(Trim(value)) == Some(Clock(h, m, tail)) && ReadPeriod(tail) == Some(pm) && 1 <= h <= 12 && m < 60
    ensures ParseTimeToMinutes(value) == Some((h % 12 + (if pm then 12 else 0)) * 60 + m)
  {
    hide ReadClock, Trim, ReadPeriod;
  }

  lemma ReadsWritten12(h: nat, m: nat, pm: bool)
    requires 1 <= h <= 12 && m < 60
    ensures ParseTimeToMinutes(Decimal(h) + ":" + Pad2(Decimal(m)) + (if pm then " PM" else " AM"))
         == Some((h % 12 + (if pm then 12 else 0)) * 60 + m)
  {
    hide ParseTimeToMinutes, ReadClock, Trim, ReadPeriod, Decimal, Pad2;
    var tail := if pm then " PM" else " AM";
    TrimKeepsWritten12(h, m, tail);
    ReadsWrittenClock(h, m, tail);
    ReadsMarker(pm);
    ParsedWithPeriod(Decimal(h) + ":" + Pad2(Decimal(m)) + tail, h, m, tail, pm);
  }

  lemma HoursOnTheDial(h24: nat, h: nat)
    requires h24 < 24 && h == if h24 % 12 == 0 then 12 else h24 % 12
    ensures 1 <= h <= 12 && h % 12 + (if h24 >= 12 then 12 else 0) == h24
  {
  }

  lemma PartsOfClock(h24: nat, m: nat)
    requires m < 60
    ensures (h24 * 60 + m) / 60 == h24 && (h24 * 60 + m) % 60 == m
  {
  }

  lemma Written12(h24: nat, m: nat, h: nat)
    requires m < 60 && h == if h24 % 12 == 0 then 12 else h24 % 12
    ensures FormatMinutesAs12Hour(h24 * 60 + m) ==
            Decimal(h) + ":" + Pad2(Decimal(m)) + (if h24 >= 12 then " PM" else " AM")
  {
    hide Decimal, Pad2;
    PartsOfClock(h24, m);
  }

  lemma Clock12RoundTrip(h24: nat, m: nat)
    requires h24 < 24 && m < 60
    ensures ParseTimeToMinutes(FormatMinutesAs12Hour(h24 * 60 + m)) == Some(h24 * 60 + m)
  {
    hide *;
    var h, pm := if h24 % 12 == 0 then 12 else h24 % 12, h24 >= 12;
    Written12(h24, m, h);
    HoursOnTheDial(h24, h);
    ReadsWritten12(h, m, pm);
  }

  lemma Format12RoundTrip(minutes: nat)
    requires minutes < MINUTES_PER_DAY
    ensures ParseTimeToMinutes(FormatMinutesAs12Hour(minutes)) == Some(minutes)
  {
    hide *;
    ClockParts(minutes);
    Clock12RoundTrip(minutes / 60, minutes % 60);
  }

  /** Rewriting any text, readable or not, never changes the minute it stands for. */
  lemma RewritingKeepsTheMinute(value: string)
    ensures ParseTimeToMinutes(To24Hour(value)) == ParseTimeToMinutes(value)
    ensures ParseTimeToMinutes(To12Hour(value)) == ParseTimeToMinutes(value)
  {
    var parsed := ParseTimeToMinutes(value);
    if parsed.Some? {
      Format24RoundTrip(parsed.value);
      Format12RoundTrip(parsed.value);
    }
  }

  /** Both writings are canonical: two readable texts get the same one exactly when they mean the same minute. */
  lemma CanonicalWriting(a: string, b: string)
    requires ParseTimeToMinutes(a).Some? && ParseTimeToMinutes(b).Some?
    ensures To24Hour(a) == To24Hour(b) <==> ParseTimeToMinutes(a) == ParseTimeToMinutes(b)
    ensures To12Hour(a) == To12Hour(b) <==> ParseTimeToMinutes(a) == ParseTimeToMinutes(b)
    ensures To24Hour(To12Hour(a)) == To24Hour(a) && To12Hour(To24Hour(a)) == To12Hour(a)
  {
    RewritingKeepsTheMinute(a);
    RewritingKeepsTheMinute(b);
  }

  /**
   * Two ranges of positive length overlap exactly when some minute of the day
   * lies in both; an empty range can still be reported as overlapping.
   */
  lemma OverlapMeansSharedMinute(left: TimeRange, right: TimeRange)
    ensures (exists minute: nat :: Covers(left, minute) && Covers(right, minute))
              <==>
            && RangesOverlap(left, right)
            && ParseTimeToMinutes(left.startTime).value < ParseTimeToMinutes(left.endTime).value
            && ParseTimeToMinutes(right.startTime).value < ParseTimeToMinutes(right.endTime).value
  {
    if RangesOverlap(left, right) {
      var ls, rs := ParseTimeToMinutes(left.startTime).value, ParseTimeToMinutes(right.startTime).value;
      var le, re := ParseTimeToMinutes(left.endTime).value, ParseTimeToMinutes(right.endTime).value;
      if ls < le && rs < re {
        var shared := if ls < rs then rs else ls;
        assert Covers(left, shared) && Covers(right, shared);
      }
    }
  }
}
