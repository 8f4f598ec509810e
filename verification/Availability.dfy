/** Validation of the availability a Tasker submits. */
module Availability {
  import opened Common
  import opened TimeUtil

  datatype Slot = Slot(date: string, range: TimeRange)

  /** The moment of validation: the UTC date as text and the UTC minute of the day. */
  datatype Now = Now(today: string, minutes: nat)

  datatype SlotError =
    | DatesNotTodayOrLater(dates: seq<string>)
    | StartsAlreadyPassed(slots: seq<Slot>)
    | EndNotAfterStart(date: string)
    | SlotsOverlap(date: string)

  // ---- Dates ----

  predicate AllDigits(s: string) {
    forall i :: 0 <= i < |s| ==> IsDigit(s[i])
  }

  function Number(s: string): nat
    requires AllDigits(s)
  {
    if s == [] then 0 else 10 * Number(s[..|s| - 1]) + DigitValue(s[|s| - 1])
  }

  predicate IsLeapYear(year: nat) {
    year % 4 == 0 && (year % 100 != 0 || year % 400 == 0)
  }

  function DaysInMonth(year: nat, month: nat): nat
    requires 1 <= month <= 12
  {
    if month == 2 then (if IsLeapYear(year) then 29 else 28)
    else if month in {4, 6, 9, 11} then 30
    else 31
  }

  /**
   * A date of the calendar written as four, two and two digits. The platform's
   * date constructor reads the years 0 to 99 as 1900 to 1999, so those never
   * read back as themselves and are refused.
   */
  predicate IsValidDateOnly(s: string) {
    && |s| == 10 && s[4] == '-' && s[7] == '-'
    && AllDigits(s[..4]) && AllDigits(s[5..7]) && AllDigits(s[8..])
    && Number(s[..4]) >= 100
    && 1 <= Number(s[5..7]) <= 12
    && 1 <= Number(s[8..]) <= DaysInMonth(Number(s[..4]), Number(s[5..7]))
  }

  /** Text comparison, character by character. */
  predicate TextAtMost(a: string, b: string) {
    a == [] || (b != [] && (a[0] < b[0] || (a[0] == b[0] && TextAtMost(a[1..], b[1..]))))
  }

  predicate IsTodayOrFutureDate(date: string, now: Now) {
    IsValidDateOnly(date) && TextAtMost(now.today, date)
  }

  datatype Day = Day(year: nat, month: nat, day: nat)

  function DayOf(date: string): Day
    requires IsValidDateOnly(date)
  {
    Day(Number(date[..4]), Number(date[5..7]), Number(date[8..]))
  }

  /** In the order of the calendar. */
  predicate NotAfter(a: Day, b: Day) {
    a.year < b.year || (a.year == b.year && (a.month < b.month || (a.month == b.month && a.day <= b.day)))
  }

  const MONTH_DAYS: seq<nat> := [31, 28, 31, 30, 31, 30, 31, 31, 30, 31, 30, 31]

  /** Months have the days of the calendar, February one more in years divisible by 4, save centuries not by 400. */
  lemma MonthsAreTheCalendars(year: nat, month: nat)
    requires 1 <= month <= 12
    ensures DaysInMonth(year, month) ==
            MONTH_DAYS[month - 1]
            + if month == 2 && (year % 400 == 0 || (year % 100 != 0 && year % 4 == 0)) then 1 else 0
  {
    if month == 2 {
      LeapYears(year);
    }
    hide IsLeapYear;
  }

  lemma LeapYears(year: nat)
    ensures IsLeapYear(year) <==> year % 400 == 0 || (year % 100 != 0 && year % 4 == 0)
  {
    if year % 400 == 0 {
      assert year == 4 * (100 * (year / 400));
    }
  }

  lemma {:induction false} TextComparesInParts(a: string, b: string, x: string, y: string)
    requires |a| == |b|
    ensures TextAtMost(a + x, b + y) <==> if a == b then TextAtMost(x, y) else TextAtMost(a, b)
  {
    if a == "" {
      assert a + x == x && b + y == y;
    } else {
      TextComparesInParts(a[1..], b[1..], x, y);
      assert (a + x)[1..] == a[1..] + x && (b + y)[1..] == b[1..] + y;
      assert a == [a[0]] + a[1..] && b == [b[0]] + b[1..];
    }
  }

  lemma {:induction false} DigitsCompareAsNumbers(a: string, b: string)
    requires |a| == |b| && AllDigits(a) && AllDigits(b)
    ensures TextAtMost(a, b) <==> Number(a) <= Number(b)
    ensures a == b <==> Number(a) == Number(b)
  {
    if a != "" {
      var n := |a| - 1;
      DigitsCompareAsNumbers(a[..n], b[..n]);
      TextComparesInParts(a[..n], b[..n], a[n..], b[n..]);
      assert a == a[..n] + a[n..] && b == b[..n] + b[n..];
      assert TextAtMost(a[n..], b[n..]) <==> a[n] <= b[n];
      DigitsInOrder(a[n], b[n]);
    }
  }

  lemma DigitsInOrder(c: char, d: char)
    requires IsDigit(c) && IsDigit(d)
    ensures c <= d <==> DigitValue(c) <= DigitValue(d)
    ensures c == d <==> DigitValue(c) == DigitValue(d)
  {
  }

  /** Comparing two dates as texts is comparing them in the calendar. */
  lemma DatesCompareAsTexts(a: string, b: string)
    requires IsValidDateOnly(a) && IsValidDateOnly(b)
    ensures TextAtMost(a, b) <==> NotAfter(DayOf(a), DayOf(b))
    ensures a == b <==> DayOf(a) == DayOf(b)
  {
    DigitsCompareAsNumbers(a[..4], b[..4]);
    DigitsCompareAsNumbers(a[5..7], b[5..7]);
    DigitsCompareAsNumbers(a[8..], b[8..]);
    TextComparesInParts(a[..5], b[..5], a[5..], b[5..]);
    TextComparesInParts(a[..4], b[..4], "-", "-");
    TextComparesInParts(a[5..8], b[5..8], a[8..], b[8..]);
    TextComparesInParts(a[5..7], b[5..7], "-", "-");
    hide TextAtMost, Number, AllDigits;
    DateInParts(a);
    DateInParts(b);
  }

  lemma DateInParts(s: string)
    requires |s| == 10 && s[4] == '-' && s[7] == '-'
    ensures s == s[..5] + s[5..] && s[..5] == s[..4] + "-" && s[5..] == s[5..8] + s[8..] && s[5..8] == s[5..7] + "-"
  {
  }

  /** A day with four digits of year, in a month of so many days. */
  predicate IsOnCalendar(d: Day) {
    && 100 <= d.year <= 9999 && 1 <= d.month <= 12 && 1 <= d.day
    && d.day <= MONTH_DAYS[d.month - 1]
                + if d.month == 2 && (d.year % 400 == 0 || (d.year % 100 != 0 && d.year % 4 == 0)) then 1 else 0
  }

  function DateText(d: Day): string
    requires IsOnCalendar(d)
  {
    [DigitChar(d.year / 1000), DigitChar(d.year / 100 % 10), DigitChar(d.year / 10 % 10), DigitChar(d.year % 10), '-',
     DigitChar(d.month / 10), DigitChar(d.month % 10), '-', DigitChar(d.day / 10), DigitChar(d.day % 10)]
  }

  lemma TwoDigits(s: string)
    requires |s| == 2 && AllDigits(s)
    ensures Number(s) == 10 * DigitValue(s[0]) + DigitValue(s[1])
  {
    assert s[..1] == [s[0]];
    assert Number(s[..1]) == 10 * Number([]) + DigitValue(s[0]);
  }

  lemma FourDigits(s: string)
    requires |s| == 4 && AllDigits(s)
    ensures Number(s) == 1000 * DigitValue(s[0]) + 100 * DigitValue(s[1]) + 10 * DigitValue(s[2]) + DigitValue(s[3])
  {
    TwoDigits(s[..2]);
    assert s[..3][..2] == s[..2];
    assert Number(s[..3]) == 10 * Number(s[..2]) + DigitValue(s[2]);
  }

  lemma LastPlace(y: nat, rest: nat, d: nat)
    requires d < 10
    ensures y == 10 * rest + d <==> rest == y / 10 && d == y % 10
  {
  }

  lemma PlacesOf(y: nat, a: nat, b: nat, c: nat, d: nat)
    requires b < 10 && c < 10 && d < 10
    ensures y == 1000 * a + 100 * b + 10 * c + d <==>
            a == y / 1000 && b == y / 100 % 10 && c == y / 10 % 10 && d == y % 10
  {
    LastPlace(y, 100 * a + 10 * b + c, d);
    LastPlace(y / 10, 10 * a + b, c);
    LastPlace(y / 100, a, b);
    assert y / 10 / 10 == y / 100 && y / 100 / 10 == y / 1000;
  }

  lemma PartsOfDateText(d: Day)
    requires IsOnCalendar(d)
    ensures IsValidDateOnly(DateText(d)) && DayOf(DateText(d)) == d
  {
    var s := DateText(d);
    var year, month, day := s[..4], s[5..7], s[8..];
    FourDigits(year);
    TwoDigits(month);
    TwoDigits(day);
    PlacesOf(d.year, d.year / 1000, d.year / 100 % 10, d.year / 10 % 10, d.year % 10);
    MonthsAreTheCalendars(d.year, d.month);
    hide Number, DaysInMonth, DigitValue, DigitChar;
    assert Number(month) == 10 * (d.month / 10) + d.month % 10 == d.month;
    assert Number(day) == 10 * (d.day / 10) + d.day % 10 == d.day;
  }

  lemma SameDigit(c: char)
    requires IsDigit(c)
    ensures DigitChar(DigitValue(c)) == c
  {
  }

  lemma TextOfYear(year: string)
    requires |year| == 4 && AllDigits(year)
    ensures var y := Number(year);
            && y <= 9999
            && year == [DigitChar(y / 1000), DigitChar(y / 100 % 10), DigitChar(y / 10 % 10), DigitChar(y % 10)]
  {
    FourDigits(year);
    hide Number, DigitValue, DigitChar;
    PlacesOf(Number(year), DigitValue(year[0]), DigitValue(year[1]), DigitValue(year[2]), DigitValue(year[3]));
    SameDigit(year[0]);
    SameDigit(year[1]);
    SameDigit(year[2]);
    SameDigit(year[3]);
  }

  lemma TextOfTwo(s: string)
    requires |s| == 2 && AllDigits(s)
    ensures Number(s) < 100 && s == [DigitChar(Number(s) / 10), DigitChar(Number(s) % 10)]
  {
    TwoDigits(s);
    hide Number, DigitValue, DigitChar;
    SameDigit(s[0]);
    SameDigit(s[1]);
  }

  lemma TextOfParts(s: string)
    requires IsValidDateOnly(s)
    ensures IsOnCalendar(DayOf(s)) && DateText(DayOf(s)) == s
  {
    MonthsAreTheCalendars(DayOf(s).year, DayOf(s).month);
    TextOfYear(s[..4]);
    TextOfTwo(s[5..7]);
    TextOfTwo(s[8..]);
    hide Number, DaysInMonth, DigitChar, AllDigits;
    assert s == s[..4] + "-" + s[5..7] + "-" + s[8..];
  }

  /** The valid texts are exactly the days of the calendar, written out; each day has one text. */
  lemma ValidDatesAreTheCalendars(s: string)
    ensures IsValidDateOnly(s) <==> exists d: Day :: IsOnCalendar(d) && DateText(d) == s
    ensures forall d: Day :: IsOnCalendar(d) && DateText(d) == s ==> IsValidDateOnly(s) && DayOf(s) == d
  {
    if IsValidDateOnly(s) {
      TextOfParts(s);
    }
    forall d: Day | IsOnCalendar(d) && DateText(d) == s ensures IsValidDateOnly(s) && DayOf(s) == d {
      PartsOfDateText(d);
    }
    hide *;
  }

  /** A date is accepted exactly if it is one of the calendar and not before today. */
  lemma AcceptedDatesAreNotPast(date: string, now: Now)
    requires IsValidDateOnly(now.today)
    ensures IsTodayOrFutureDate(date, now) <==>
            IsValidDateOnly(date) && NotAfter(DayOf(now.today), DayOf(date))
  {
    if IsValidDateOnly(date) {
      DatesCompareAsTexts(now.today, date);
    }
    hide TextAtMost;
  }

  // ---- What the rules mean ----

  predicate HasElapsed(slot: Slot, now: Now) {
    && slot.date == now.today
    && ParseTimeToMinutes(slot.range.startTime).Some?
    && ParseTimeToMinutes(slot.range.startTime).value <= now.minutes
  }

  predicate StartPrecedesEnd(slot: Slot) {
    && ParseTimeToMinutes(slot.range.startTime).Some?
    && ParseTimeToMinutes(slot.range.endTime).Some?
    && ParseTimeToMinutes(slot.range.startTime).value < ParseTimeToMinutes(slot.range.endTime).value
  }

  predicate Clash(a: Slot, b: Slot) {
    a.date == b.date && RangesOverlap(a.range, b.range)
  }

  ghost predicate DatesOk(slots: seq<Slot>, now: Now) {
    forall i :: 0 <= i < |slots| ==> IsTodayOrFutureDate(slots[i].date, now)
  }

  ghost predicate NoneElapsed(slots: seq<Slot>, now: Now) {
    forall i :: 0 <= i < |slots| ==> !HasElapsed(slots[i], now)
  }

  ghost predicate AllOrdered(slots: seq<Slot>) {
    forall i :: 0 <= i < |slots| ==> StartPrecedesEnd(slots[i])
  }

  ghost predicate PairwiseDisjoint(slots: seq<Slot>) {
    forall i, j :: 0 <= i < j < |slots| ==> !Clash(slots[i], slots[j])
  }

  ghost predicate Acceptable(slots: seq<Slot>, now: Now) {
    DatesOk(slots, now) && NoneElapsed(slots, now) && AllOrdered(slots) && PairwiseDisjoint(slots)
  }

  /** A slot on its own: today or later, with a start that lies ahead and an end after it. */
  predicate IsSound(slot: Slot, now: Now)
    requires IsValidDateOnly(now.today)
  {
    && IsValidDateOnly(slot.date) && NotAfter(DayOf(now.today), DayOf(slot.date))
    && match (ParseTimeToMinutes(slot.range.startTime), ParseTimeToMinutes(slot.range.endTime))
       case (Some(from), Some(to)) => from < to && (slot.date == now.today ==> now.minutes < from)
       case _ => false
  }

  /** Two slots on one date, one over before the other begins. */
  predicate AreApart(a: Slot, b: Slot) {
    match (ParseTimeToMinutes(a.range.startTime), ParseTimeToMinutes(a.range.endTime),
           ParseTimeToMinutes(b.range.startTime), ParseTimeToMinutes(b.range.endTime))
    case (Some(fromA), Some(toA), Some(fromB), Some(toB)) => toA <= fromB || toB <= fromA
    case _ => false
  }

  lemma SoundAlone(slot: Slot, now: Now)
    requires IsValidDateOnly(now.today)
    ensures IsSound(slot, now) <==>
            IsTodayOrFutureDate(slot.date, now) && !HasElapsed(slot, now) && StartPrecedesEnd(slot)
  {
    AcceptedDatesAreNotPast(slot.date, now);
    hide IsTodayOrFutureDate, IsValidDateOnly, ParseTimeToMinutes;
  }

  /** On minutes and days alone: when a list of slots is accepted. */
  lemma AcceptedExactlyWhen(slots: seq<Slot>, now: Now)
    requires IsValidDateOnly(now.today)
    ensures Acceptable(slots, now) <==>
            && (forall i :: 0 <= i < |slots| ==> IsSound(slots[i], now))
            && (forall i, j :: 0 <= i < j < |slots| && slots[i].date == slots[j].date ==> AreApart(slots[i], slots[j]))
  {
    forall i | 0 <= i < |slots|
      ensures IsSound(slots[i], now) <==>
              && IsTodayOrFutureDate(slots[i].date, now) && !HasElapsed(slots[i], now)
              && StartPrecedesEnd(slots[i])
    {
      SoundAlone(slots[i], now);
    }
    hide IsSound, IsTodayOrFutureDate, HasElapsed, IsValidDateOnly, ParseTimeToMinutes;
    forall i, j | 0 <= i < j < |slots| && StartPrecedesEnd(slots[i]) && StartPrecedesEnd(slots[j])
      ensures Clash(slots[i], slots[j]) <==> slots[i].date == slots[j].date && !AreApart(slots[i], slots[j])
    {
    }
    hide StartPrecedesEnd, Clash, AreApart;
  }

  function Select(slots: seq<Slot>, keep: Slot -> bool): seq<Slot> {
    if slots == [] then []
    else Select(slots[..|slots| - 1], keep)
         + (if keep(slots[|slots| - 1]) then [slots[|slots| - 1]] else [])
  }

  function DatesOf(slots: seq<Slot>): (dates: seq<string>)
    ensures |dates| == |slots|
  {
    if slots == [] then [] else DatesOf(slots[..|slots| - 1]) + [slots[|slots| - 1].date]
  }

  lemma {:induction false} SelectMeaning(slots: seq<Slot>, keep: Slot -> bool)
    ensures forall s :: s in Select(slots, keep) <==> s in slots && keep(s)
    ensures Select(slots, keep) == [] <==> forall i :: 0 <= i < |slots| ==> !keep(slots[i])
  {
    if slots != [] {
      var init, last := slots[..|slots| - 1], slots[|slots| - 1];
      SelectMeaning(init, keep);
      assert slots == init + [last];
      assert forall i :: 0 <= i < |init| ==> slots[i] == init[i];
    }
  }

  // ---- The validator ----

  lemma ExtendDisjoint(slots: seq<Slot>, n: nat)
    requires n < |slots| && PairwiseDisjoint(slots[..n])
    requires forall i :: 0 <= i < n ==> !Clash(slots[i], slots[n])
    ensures PairwiseDisjoint(slots[..n + 1])
  {
    hide Clash;
    var longer := slots[..n + 1];
    forall i, j | 0 <= i < j < |longer| ensures !Clash(longer[i], longer[j]) {
      if j < n {
        assert slots[..n][i] == longer[i] && slots[..n][j] == longer[j];
      }
    }
  }

  /** The slots of one date, in order. */
  function OnDate(slots: seq<Slot>, date: string): seq<Slot> {
    Select(slots, (s: Slot) => s.date == date)
  }

  /** Is the slot clear of those of its own date? */
  method ClashesWithAny(values: seq<Slot>, slot: Slot) returns (clashes: bool)
    ensures clashes <==> exists k :: 0 <= k < |values| && RangesOverlap(values[k].range, slot.range)
  {
    hide RangesOverlap;
    for k := 0 to |values|
      invariant forall m :: 0 <= m < k ==> !RangesOverlap(values[m].range, slot.range)
    {
      if RangesOverlap(values[k].range, slot.range) {
        return true;
      }
    }
    return false;
  }

  lemma ClashAmongSameDate(slots: seq<Slot>, n: nat, values: seq<Slot>)
    requires n < |slots| && values == OnDate(slots[..n], slots[n].date)
    ensures (exists k :: 0 <= k < |values| && RangesOverlap(values[k].range, slots[n].range))
        <==> (exists i :: 0 <= i < n && Clash(slots[i], slots[n]))
  {
    hide RangesOverlap;
    var onDate := (s: Slot) => s.date == slots[n].date;
    SelectMeaning(slots[..n], onDate);
    if i :| 0 <= i < n && Clash(slots[i], slots[n]) {
      assert slots[..n][i] == slots[i];
      assert slots[i] in values;
    }
    if k :| 0 <= k < |values| && RangesOverlap(values[k].range, slots[n].range) {
      assert values[k] in slots[..n];
      var i :| 0 <= i < n && slots[..n][i] == values[k];
      assert Clash(slots[i], slots[n]);
    }
  }

  /** Groups the slots by date and compares each one with those of its date seen before it. */
  method FindOverlap(slots: seq<Slot>) returns (clash: Option<string>)
    ensures clash.None? <==> PairwiseDisjoint(slots)
    ensures clash.Some? ==> exists j ::
        && 0 <= j < |slots| && clash.value == slots[j].date && PairwiseDisjoint(slots[..j])
        && exists i :: 0 <= i < j && Clash(slots[i], slots[j])
  {
    hide RangesOverlap;
    var byDate: map<string, seq<Slot>> := map[];
    for n := 0 to |slots|
      invariant PairwiseDisjoint(slots[..n])
      invariant forall d :: OnDate(slots[..n], d) == if d in byDate then byDate[d] else []
    {
      var slot := slots[n];
      var values := if slot.date in byDate then byDate[slot.date] else [];
      ClashAmongSameDate(slots, n, values);
      var clashes := ClashesWithAny(values, slot);
      if clashes {
        return Some(slot.date);
      }
      ExtendDisjoint(slots, n);
      byDate := byDate[slot.date := values + [slot]];
      assert slots[..n + 1][..n] == slots[..n];
    }
    assert slots[..|slots|] == slots;
    return None;
  }

  /**
   * Rejects in the order the rules are checked and reports exactly the offending
   * dates or slots; it accepts exactly the acceptable lists.
   */
  method ValidateAvailabilitySlots(slots: seq<Slot>, now: Now) returns (r: Result<(), SlotError>)
    ensures r.Success? <==> Acceptable(slots, now)
    ensures r.Failure? && r.error.DatesNotTodayOrLater? <==> !DatesOk(slots, now)
    ensures r.Failure? && r.error.DatesNotTodayOrLater? ==>
        r.error.dates == DatesOf(Select(slots, (s: Slot) => !IsTodayOrFutureDate(s.date, now)))
    ensures r.Failure? && r.error.StartsAlreadyPassed? <==> DatesOk(slots, now) && !NoneElapsed(slots, now)
    ensures r.Failure? && r.error.StartsAlreadyPassed? ==>
        r.error.slots == Select(slots, (s: Slot) => HasElapsed(s, now))
    ensures r.Failure? && r.error.EndNotAfterStart? <==>
        DatesOk(slots, now) && NoneElapsed(slots, now) && !AllOrdered(slots)
    ensures r.Failure? && r.error.EndNotAfterStart? ==> exists j ::
        0 <= j < |slots| && !StartPrecedesEnd(slots[j]) && AllOrdered(slots[..j]) && r.error.date == slots[j].date
    ensures r.Failure? && r.error.SlotsOverlap? ==> exists j ::
        && 0 <= j < |slots| && r.error.date == slots[j].date && PairwiseDisjoint(slots[..j])
        && exists i :: 0 <= i < j && Clash(slots[i], slots[j])
  {
    hide IsTodayOrFutureDate, HasElapsed, StartPrecedesEnd, RangesOverlap;
    var badDate := (s: Slot) => !IsTodayOrFutureDate(s.date, now);
    var invalidDates := Select(slots, badDate);
    SelectMeaning(slots, badDate);
    if invalidDates != [] {
      return Failure(DatesNotTodayOrLater(DatesOf(invalidDates)));
    }
    var hasElapsed := (s: Slot) => HasElapsed(s, now);
    var elapsed := Select(slots, hasElapsed);
    SelectMeaning(slots, hasElapsed);
    if elapsed != [] {
      return Failure(StartsAlreadyPassed(elapsed));
    }
    for n := 0 to |slots|
      invariant AllOrdered(slots[..n])
    {
      if !StartPrecedesEnd(slots[n]) {
        return Failure(EndNotAfterStart(slots[n].date));
      }
      assert forall i :: 0 <= i < n ==> slots[..n][i] == slots[i];
    }
    assert slots[..|slots|] == slots;
    var clash := FindOverlap(slots);
    match clash {
      case Some(date) => return Failure(SlotsOverlap(date));
      case None => return Success(());
    }
  }

  // ---- Properties of the verdict ----

  /** The slot with its two times rewritten: kept, in 24-hour form or in 12-hour form, independently. */
  predicate IsRewriting(a: Slot, b: Slot) {
    && a.date == b.date
    && b.range.startTime in {a.range.startTime, To24Hour(a.range.startTime), To12Hour(a.range.startTime)}
    && b.range.endTime in {a.range.endTime, To24Hour(a.range.endTime), To12Hour(a.range.endTime)}
  }

  /** Rewriting the times of any slots, each in its own way, never changes the verdict. */
  lemma RewritingKeepsTheVerdict(slots: seq<Slot>, rewritten: seq<Slot>, now: Now)
    requires |slots| == |rewritten|
    requires forall i :: 0 <= i < |slots| ==> IsRewriting(slots[i], rewritten[i])
    ensures Acceptable(slots, now) <==> Acceptable(rewritten, now)
  {
    forall i | 0 <= i < |slots|
      ensures slots[i].date == rewritten[i].date
      ensures ParseTimeToMinutes(rewritten[i].range.startTime) == ParseTimeToMinutes(slots[i].range.startTime)
      ensures ParseTimeToMinutes(rewritten[i].range.endTime) == ParseTimeToMinutes(slots[i].range.endTime)
    {
      assert IsRewriting(slots[i], rewritten[i]);
      RewritingKeepsTheMinute(slots[i].range.startTime);
      RewritingKeepsTheMinute(slots[i].range.endTime);
    }
    SameMinutesSameVerdict(slots, rewritten, now);
  }

  lemma SameMinutesSameVerdict(a: seq<Slot>, b: seq<Slot>, now: Now)
    requires |a| == |b|
    requires forall i :: 0 <= i < |a| ==>
        && a[i].date == b[i].date
        && ParseTimeToMinutes(a[i].range.startTime) == ParseTimeToMinutes(b[i].range.startTime)
        && ParseTimeToMinutes(a[i].range.endTime) == ParseTimeToMinutes(b[i].range.endTime)
    ensures Acceptable(a, now) <==> Acceptable(b, now)
  {
    assert forall i :: 0 <= i < |a| ==>
        && (HasElapsed(a[i], now) <==> HasElapsed(b[i], now))
        && (StartPrecedesEnd(a[i]) <==> StartPrecedesEnd(b[i]));
    assert forall i, j :: 0 <= i < j < |a| ==> (Clash(a[i], a[j]) <==> Clash(b[i], b[j]));
  }

  /** What acceptance buys: no minute of any date belongs to two of the slots. */
  lemma AcceptedSlotsShareNoMinute(slots: seq<Slot>, now: Now, i: nat, j: nat, minute: nat)
    requires Acceptable(slots, now)
    requires i < j < |slots| && slots[i].date == slots[j].date
    ensures !(Covers(slots[i].range, minute) && Covers(slots[j].range, minute))
  {
    OverlapMeansSharedMinute(slots[i].range, slots[j].range);
    assert !Clash(slots[i], slots[j]);
  }

  /** The order in which the slots are submitted decides which error is named, never whether there is one. */
  lemma OrderDoesNotMatter(slots: seq<Slot>, reordered: seq<Slot>, now: Now)
    requires multiset(slots) == multiset(reordered)
    ensures Acceptable(slots, now) <==> Acceptable(reordered, now)
  {
    if Acceptable(slots, now) {
      ReorderedIsAcceptable(slots, reordered, now);
    }
    if Acceptable(reordered, now) {
      ReorderedIsAcceptable(reordered, slots, now);
    }
  }

  lemma ReorderedIsAcceptable(slots: seq<Slot>, reordered: seq<Slot>, now: Now)
    requires multiset(slots) == multiset(reordered)
    requires Acceptable(slots, now)
    ensures Acceptable(reordered, now)
  {
    hide IsTodayOrFutureDate, HasElapsed, StartPrecedesEnd;
    assert |slots| == |multiset(slots)| == |reordered|;
    forall s | s in reordered ensures s in slots {
      assert multiset(reordered)[s] > 0;
    }
    assert forall i :: 0 <= i < |reordered| ==> reordered[i] in slots;
    assert DatesOk(reordered, now) && NoneElapsed(reordered, now) && AllOrdered(reordered);
    forall i, j | 0 <= i < j < |reordered| ensures !Clash(reordered[i], reordered[j]) {
      var p, q := WhereTheyWere(slots, reordered, i, j);
      if p < q {
        assert !Clash(slots[p], slots[q]);
      } else {
        assert !Clash(slots[q], slots[p]);
      }
    }
  }

  lemma WithoutOne(slots: seq<Slot>, p: nat)
    requires p < |slots|
    ensures multiset(slots[..p] + slots[p + 1..]) == multiset(slots) - multiset{slots[p]}
  {
    assert slots == slots[..p] + [slots[p]] + slots[p + 1..];
  }

  lemma AmongReordered(slots: seq<Slot>, reordered: seq<Slot>, slot: Slot)
    requires multiset(slots) == multiset(reordered) && slot in reordered
    ensures slot in slots
  {
    assert multiset(reordered)[slot] > 0;
  }

  lemma WithoutPlace(slots: seq<Slot>, p: nat, k: nat) returns (q: nat)
    requires p < |slots| && k < |slots[..p] + slots[p + 1..]|
    ensures q < |slots| && q != p && slots[q] == (slots[..p] + slots[p + 1..])[k]
  {
    q := if k < p then k else k + 1;
  }

  /** Two places of a reordering come from two different places of the original. */
  lemma WhereTheyWere(slots: seq<Slot>, reordered: seq<Slot>, i: nat, j: nat) returns (p: nat, q: nat)
    requires multiset(slots) == multiset(reordered) && i < j < |reordered|
    ensures p < |slots| && q < |slots| && p != q
    ensures slots[p] == reordered[i] && slots[q] == reordered[j]
  {
    AmongReordered(slots, reordered, reordered[i]);
    p :| 0 <= p < |slots| && slots[p] == reordered[i];
    var rest, others := slots[..p] + slots[p + 1..], reordered[..i] + reordered[i + 1..];
    WithoutOne(slots, p);
    WithoutOne(reordered, i);
    assert others[j - 1] == reordered[j];
    AmongReordered(rest, others, reordered[j]);
    var k :| 0 <= k < |rest| && rest[k] == reordered[j];
    q := WithoutPlace(slots, p, k);
  }
}
