/** Exactly which texts are times of day, and which minute each of them means. */
module TimeTexts {
  import opened Common
  import opened TimeUtil

  predicate AllSpaces(s: string) {
    forall i :: 0 <= i < |s| ==> IsSpace(s[i])
  }

  predicate AllDigits(s: string) {
    forall i :: 0 <= i < |s| ==> '0' <= s[i] <= '9'
  }

  /** One or two digits as a number. */
  function NumberOf(s: string): nat
    requires AllDigits(s) && 1 <= |s| <= 2
  {
    if |s| == 1 then s[0] as int - '0' as int else 10 * (s[0] as int - '0' as int) + (s[1] as int - '0' as int)
  }

  predicate IsMark(mark: string) {
    |mark| == 2 && (mark[0] in {'a', 'A', 'p', 'P'}) && (mark[1] in {'m', 'M'})
  }

  /** Hours, a colon, two digits of minutes, and perhaps a mark; white space around, and before the mark. */
  predicate IsWritten(value: string, pre: string, hh: string, mm: string, gap: string, mark: string, post: string) {
    && value == pre + (hh + ":" + mm + gap + mark) + post
    && AllSpaces(pre) && AllSpaces(gap) && AllSpaces(post)
    && AllDigits(hh) && 1 <= |hh| <= 2 && AllDigits(mm) && |mm| == 2
    && (IsMark(mark) || (mark == "" && gap == ""))
  }

  /** The minute of the day: on a dial of twelve hours with a mark, of twenty-four without. */
  function MinuteOf(hh: string, mm: string, mark: string): Option<nat>
    requires AllDigits(hh) && 1 <= |hh| <= 2 && AllDigits(mm) && |mm| == 2
  {
    var h, m := NumberOf(hh), NumberOf(mm);
    if m >= 60 then None
    else if mark == "" then (if h < 24 then Some(60 * h + m) else None)
    else if h == 0 || h > 12 then None
    else
      var noon := if mark[0] in {'p', 'P'} then 720 else 0;
      Some((if h == 12 then 0 else 60 * h) + m + noon)
  }

  // ---- Trimming ----

  lemma {:induction false} TrimStartSkips(pre: string, s: string)
    requires AllSpaces(pre)
    ensures TrimStart(pre + s) == TrimStart(s)
  {
    if pre == "" {
      assert pre + s == s;
    } else {
      assert (pre + s)[1..] == pre[1..] + s;
      TrimStartSkips(pre[1..], s);
    }
  }

  lemma {:induction false} TrimEndSkips(s: string, post: string)
    requires AllSpaces(post)
    ensures TrimEnd(s + post) == TrimEnd(s)
  {
    if post == "" {
      assert s + post == s;
    } else {
      var n := |post| - 1;
      assert (s + post)[..|s + post| - 1] == s + post[..n];
      TrimEndSkips(s, post[..n]);
    }
  }

  lemma {:induction false} TrimStartSplits(s: string) returns (pre: string)
    ensures s == pre + TrimStart(s) && AllSpaces(pre)
    ensures TrimStart(s) == "" || !IsSpace(TrimStart(s)[0])
  {
    if s != "" && IsSpace(s[0]) {
      pre := TrimStartSplits(s[1..]);
      pre := [s[0]] + pre;
    } else {
      pre := "";
    }
  }

  lemma {:induction false} TrimEndSplits(s: string) returns (post: string)
    ensures s == TrimEnd(s) + post && AllSpaces(post)
  {
    if s != "" && IsSpace(s[|s| - 1]) {
      post := TrimEndSplits(s[..|s| - 1]);
      post := post + [s[|s| - 1]];
    } else {
      post := "";
    }
  }

  lemma TrimFindsCore(pre: string, core: string, post: string)
    requires AllSpaces(pre) && AllSpaces(post)
    requires core != "" && !IsSpace(core[0]) && !IsSpace(core[|core| - 1])
    ensures Trim(pre + core + post) == core
  {
    assert pre + core + post == pre + (core + post);
    TrimStartSkips(pre, core + post);
    assert TrimStart(core + post) == core + post;
    TrimEndSkips(core, post);
    assert TrimEnd(core) == core;
  }

  lemma TrimSplits(value: string) returns (pre: string, post: string)
    ensures value == pre + Trim(value) + post && AllSpaces(pre) && AllSpaces(post)
  {
    pre := TrimStartSplits(value);
    post := TrimEndSplits(TrimStart(value));
    hide TrimStart, TrimEnd;
    assert value == pre + (Trim(value) + post);
  }

  // ---- Reading ----

  lemma DigitsAreNoSpaces(s: string, i: nat)
    requires AllDigits(s) && i < |s|
    ensures !IsSpace(s[i]) && IsDigit(s[i])
  {
  }

  lemma MarksAreNoSpaces(mark: string)
    requires IsMark(mark)
    ensures !IsSpace(mark[0]) && !IsSpace(mark[1])
  {
  }

  lemma ReadsWrittenClock(hh: string, mm: string, tail: string)
    requires AllDigits(hh) && 1 <= |hh| <= 2 && AllDigits(mm) && |mm| == 2
    ensures ReadClock(hh + ":" + mm + tail) == Some(TimeUtil.Clock(NumberOf(hh), NumberOf(mm), tail))
  {
    var s := hh + ":" + mm + tail;
    if |hh| == 1 {
      assert s[0] == hh[0] && s[1] == ':' && s[2] == mm[0] && s[3] == mm[1] && s[4..] == tail;
    } else {
      assert s[0] == hh[0] && s[1] == hh[1] && s[2] == ':' && s[3] == mm[0] && s[4] == mm[1] && s[5..] == tail;
    }
  }

  lemma ReadsWrittenMark(gap: string, mark: string)
    requires AllSpaces(gap) && IsMark(mark)
    ensures ReadPeriod(gap + mark) == Some(mark[0] in {'p', 'P'})
  {
    TrimStartSkips(gap, mark);
    MarksAreNoSpaces(mark);
    assert TrimStart(mark) == mark;
  }

  lemma WrittenIsTrimmed(value: string, pre: string, hh: string, mm: string, gap: string, mark: string, post: string)
    requires IsWritten(value, pre, hh, mm, gap, mark, post)
    ensures Trim(value) == hh + ":" + mm + (gap + mark)
  {
    var core := hh + ":" + mm + gap + mark;
    DigitsAreNoSpaces(hh, 0);
    DigitsAreNoSpaces(mm, 1);
    if mark != "" {
      MarksAreNoSpaces(mark);
    }
    hide IsSpace, Trim;
    assert core[0] == hh[0];
    assert core[|core| - 1] == if mark == "" then mm[1] else mark[1];
    TrimFindsCore(pre, core, post);
    assert core == hh + ":" + mm + (gap + mark);
  }

  lemma MarkIsRead(gap: string, mark: string)
    requires AllSpaces(gap) && (IsMark(mark) || (mark == "" && gap == ""))
    ensures ReadPeriod(gap + mark) == if mark == "" then None else Some(mark[0] in {'p', 'P'})
    ensures gap + mark == "" <==> mark == ""
  {
    if mark == "" {
      assert gap + mark == "";
      NoMark();
    } else {
      ReadsWrittenMark(gap, mark);
    }
  }

  /** What is written as a time is read as its minute, or not at all if it is not on the dial. */
  lemma WrittenIsRead(value: string, pre: string, hh: string, mm: string, gap: string, mark: string, post: string)
    requires IsWritten(value, pre, hh, mm, gap, mark, post)
    ensures ParseTimeToMinutes(value) == MinuteOf(hh, mm, mark)
  {
    WrittenIsTrimmed(value, pre, hh, mm, gap, mark, post);
    ReadsWrittenClock(hh, mm, gap + mark);
    MarkIsRead(gap, mark);
    hide Trim, ReadClock, ReadPeriod, IsSpace, AllSpaces, NumberOf;
  }

  lemma NoMark()
    ensures ReadPeriod("").None?
  {
  }

  /** How a text that reads as a clock is written. */
  lemma ClockParts(s: string) returns (hh: string, mm: string)
    requires ReadClock(s).Some?
    ensures AllDigits(hh) && 1 <= |hh| <= 2 && AllDigits(mm) && |mm| == 2
    ensures s == hh + ":" + mm + ReadClock(s).value.tail
  {
    if |s| >= 4 && IsDigit(s[0]) && s[1] == ':' && IsDigit(s[2]) && IsDigit(s[3]) {
      hh, mm := [s[0]], [s[2], s[3]];
      assert s == s[..4] + s[4..] && s[..4] == hh + ":" + mm;
    } else {
      hh, mm := [s[0], s[1]], [s[3], s[4]];
      assert s == s[..5] + s[5..] && s[..5] == hh + ":" + mm;
    }
  }

  /** Whatever is read as a minute is written as a time. */
  lemma ReadIsWritten(value: string)
    returns (pre: string, hh: string, mm: string, gap: string, mark: string, post: string)
    requires ParseTimeToMinutes(value).Some?
    ensures IsWritten(value, pre, hh, mm, gap, mark, post)
  {
    pre, post := TrimSplits(value);
    hh, mm := ClockParts(Trim(value));
    var tail := ReadClock(Trim(value)).value.tail;
    if ReadPeriod(tail).Some? {
      gap := TrimStartSplits(tail);
      mark := TrimStart(tail);
      assert IsMark(mark);
    } else {
      gap, mark := "", "";
    }
    hide TrimStart, TrimEnd, ReadClock, IsSpace;
    assert Trim(value) == hh + ":" + mm + gap + mark;
  }

  /**
   * A text is read as this minute if and only if it is written as a time that
   * means it: with or without a mark, of one or two digits of hours and two of
   * minutes on the dial, and nothing else but white space around.
   */
  lemma ReadsExactlyTheTimes(value: string, minute: nat)
    ensures ParseTimeToMinutes(value) == Some(minute) <==>
            exists pre, hh, mm, gap, mark, post ::
              IsWritten(value, pre, hh, mm, gap, mark, post) && MinuteOf(hh, mm, mark) == Some(minute)
  {
    hide ParseTimeToMinutes, MinuteOf, AllSpaces, IsMark;
    if ParseTimeToMinutes(value) == Some(minute) {
      var pre, hh, mm, gap, mark, post := ReadIsWritten(value);
      WrittenIsRead(value, pre, hh, mm, gap, mark, post);
    }
    forall pre, hh, mm, gap, mark, post |
      IsWritten(value, pre, hh, mm, gap, mark, post) && MinuteOf(hh, mm, mark) == Some(minute)
      ensures ParseTimeToMinutes(value) == Some(minute)
    {
      WrittenIsRead(value, pre, hh, mm, gap, mark, post);
    }
  }
}
