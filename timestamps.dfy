/**
  parseTime (utils.go:96-123): ODM epochs are either calendar dates
  `YYYY-MM-DDThh:mm:ss[.f]` with an optional trailing `Z`, or ordinal dates
  `YYYY-DDDThh:mm:ss[.f]`. Both are read with the rules of Go's time.Parse
  for the layouts the code builds, and both give a UTC instant.
 */
module Timestamps {
  import opened Wrappers
  import opened GoStrings
  import opened GoStrconv

  /** A UTC instant as Go's time.Date(year, month, day, hour, min, sec, nsec, time.UTC) holds it. */
  datatype Instant = Instant(year: int, month: nat, day: nat, hour: nat, minute: nat, second: nat, nanos: nat)

  /** The time of day read from `hh:mm:ss[.f]`. */
  datatype Clock = Clock(hour: nat, minute: nat, second: nat, nanos: nat)

  /** Why a timestamp was not read: a malformed text, or a Go run-time panic (an index out of range). */
  datatype TimeFault = Malformed | Panic

  const NanosPerSecond: nat := 1_000_000_000

  /** Go's isLeap: the proleptic Gregorian rule. */
  predicate IsLeap(year: int) {
    year % 4 == 0 && (year % 100 != 0 || year % 400 == 0)
  }

  /** Go's daysBefore table: days in the months before month m+1 of a common year. */
  function DaysBefore(m: nat): (d: nat)
    requires m <= 12
    ensures m > 0 ==> DaysBefore(m - 1) < d
  {
    [0, 31, 59, 90, 120, 151, 181, 212, 243, 273, 304, 334, 365][m]
  }

  /** Go's daysIn: the length of a month, February having 29 days in a leap year. */
  function DaysIn(month: nat, year: int): (n: nat)
    requires 1 <= month <= 12
    ensures 28 <= n <= 31
  {
    if month == 2 && IsLeap(year) then 29 else DaysBefore(month) - DaysBefore(month - 1)
  }

  predicate ValidClock(c: Clock) {
    c.hour < 24 && c.minute < 60 && c.second < 60 && c.nanos < NanosPerSecond
  }

  /** An instant with a four-digit year and every field in range. */
  predicate ValidInstant(i: Instant) {
    && 0 <= i.year <= 9999
    && 1 <= i.month <= 12 && 1 <= i.day <= DaysIn(i.month, i.year)
    && ValidClock(Clock(i.hour, i.minute, i.second, i.nanos))
  }

  function Pow10(n: nat): (p: nat)
    ensures p >= 1
  {
    if n == 0 then 1 else 10 * Pow10(n - 1)
  }

  /**
    The nanoseconds of a fraction of a second written with the digits `f`:
    the first nine digits count, fewer are padded with zeros on the right.
   */
  function FractionNanos(f: string): (n: nat)
    requires AllDigits(f)
  {
    var k := if |f| < 9 then |f| else 9;
    DigitsValue(f[..k]) * Pow10(9 - k)
  }

  /**
    What follows the seconds: nothing, or a '.' or ',' and at least one digit
    (time.Parse takes every digit and keeps the first nine).
   */
  function ParseFraction(tail: string): (r: Option<nat>)
  {
    if tail == [] then Some(0)
    else if |tail| >= 2 && (tail[0] == '.' || tail[0] == ',') && AllDigits(tail[1..]) then Some(FractionNanos(tail[1..]))
    else None
  }

  /**
    The clock of the layouts `15:04:05` (time.Parse): an hour of one or two
    digits, then `:mm:ss` with exactly two digits each, then an optional
    fraction, and nothing after it; hour below 24, minute and second below 60.
   */
  function ParseClock(t: string): (r: Option<Clock>)
  {
    if t == [] || !IsDigit(t[0]) then None
    else
      var hl := if |t| >= 2 && IsDigit(t[1]) then 2 else 1;
      var rest := t[hl..];
      if |rest| < 6 || rest[0] != ':' || !IsDigit(rest[1]) || !IsDigit(rest[2])
         || rest[3] != ':' || !IsDigit(rest[4]) || !IsDigit(rest[5]) then None
      else
        var hour, minute, second := DigitsValue(t[..hl]), DigitsValue(rest[1..3]), DigitsValue(rest[4..6]);
        match ParseFraction(rest[6..])
        case None => None
        case Some(nanos) =>
          if hour < 24 && minute < 60 && second < 60 then Some(Clock(hour, minute, second, nanos)) else None
  }

  /**
    time.Parse(time.RFC3339, v) where v ends in 'Z': `YYYY-MM-DDT`, a clock,
    then the final 'Z'. A numeric offset can never be read here, since the
    caller guarantees a 'Z' that no offset form leaves room for.
   */
  function ParseRFC3339(v: string): (r: Option<Instant>)
    ensures r.Some? ==> |v| >= 12 && v[|v| - 1] == 'Z'
    ensures r.Some? ==> 1 <= r.value.month <= 12 && 1 <= r.value.day <= DaysIn(r.value.month, r.value.year)
  {
    if |v| < 12 || v[|v| - 1] != 'Z' then None
    else if !(AllDigits(v[..4]) && v[4] == '-' && AllDigits(v[5..7]) && v[7] == '-' && AllDigits(v[8..10]) && v[10] == 'T') then None
    else
      var year, month, day := DigitsValue(v[..4]), DigitsValue(v[5..7]), DigitsValue(v[8..10]);
      if !(1 <= month <= 12) || day < 1 || day > DaysIn(month, year) then None
      else
        match ParseClock(v[11..|v| - 1])
        case None => None
        case Some(c) => Some(Instant(year, month, day, c.hour, c.minute, c.second, c.nanos))
  }

  /**
    The month and day of day `yday` of `year`, as time.Parse derives them for
    the layout element `002`: day 60 of a leap year is 29 February, later days
    of a leap year are shifted back by one, and the result must lie in 1..365.
   */
  function OrdinalDate(year: int, yday: int): (r: Option<(nat, nat)>)
  {
    if IsLeap(year) && yday == 31 + 29 then Some((2, 29))
    else
      var y := if IsLeap(year) && yday > 31 + 29 then yday - 1 else yday;
      if y < 1 || y > 365 then None
      else
        var m0 := (y - 1) / 31 + 1;
        var m := if DaysBefore(m0) < y then m0 + 1 else m0;
        Some((m, y - DaysBefore(m - 1)))
  }

  /** The day of the year of a date, 1 for 1 January. */
  function DayOfYear(year: int, month: nat, day: nat): nat
    requires 1 <= month <= 12
  {
    DaysBefore(month - 1) + day + (if IsLeap(year) && month > 2 then 1 else 0)
  }

  /**
    strconv.Atoi of the first three BYTES of a text that has at least three.
    When its first three characters are ASCII those bytes are these
    characters. Otherwise the bytes hold a byte of a multi-byte UTF-8
    character, which is neither a digit nor a sign, and Atoi refuses them.
   */
  function AtoiFirstThreeBytes(p: string): (r: Option<int>)
    requires ByteLength(p) >= 3
  {
    if |p| >= 3 && IsAscii(p[0]) && IsAscii(p[1]) && IsAscii(p[2]) then Atoi(p[..3]) else None
  }

  /** Three characters that Atoi accepts are ASCII, so they are the text's first three bytes. */
  lemma AtoiFirstThreeBytesOfDigits(p: string)
    requires |p| >= 3 && Atoi(p[..3]).Some?
    ensures ByteLength(p) >= 3 && AtoiFirstThreeBytes(p) == Atoi(p[..3])
  {
    var n := p[..3];
    assert n[1..] == [p[1], p[2]];
    assert IsDigit(p[0]) || p[0] == '-' || p[0] == '+';
  }

  /**
    The day of the year is sliced by bytes: a single euro sign after the '-'
    is three bytes long, so nothing panics, and Atoi refuses the bytes.
   */
  lemma ParseTimeMultibyteDay()
    ensures ParseTime("2020-\U{20AC}") == Err(Malformed)
  {
    SplitOnOneDash("2020", "\U{20AC}");
    assert "2020" + "-" + "\U{20AC}" == "2020-\U{20AC}";
    assert ByteLength("\U{20AC}") == 3;
  }

  /** Fewer than three bytes after the '-' make the `[:3]` slice panic. */
  lemma ParseTimeShortDay()
    ensures ParseTime("2020-06") == Err(Panic)
  {
    SplitOnOneDash("2020", "06");
    assert "2020" + "-" + "06" == "2020-06";
    assert ByteLength("06") == 2;
  }

  /**
    The ordinal branch of parseTime for a text with exactly one '-': the day
    of the year is Atoi of the first three bytes after the '-' (a panic when
    there are fewer), the year what precedes the '-', and the clock the text
    between the first and the second 'T' (a panic when there is no 'T'). The
    text is then re-printed as `%04d-%03dT<clock>` and read with the layout
    `2006-002T15:04:05`, which needs a year of four digits and accepts no 'Z'.
   */
  function ParseOrdinal(s: string): (r: Result<Instant, TimeFault>)
    requires |Split(s, "-")| == 2
    ensures ByteLength(Split(s, "-")[1]) < 3 ==> r == Err(Panic)
    ensures r.Ok? ==> 0 <= r.value.year <= 9999 && 1 <= r.value.month <= 12
  {
    var parts := Split(s, "-");
    if ByteLength(parts[1]) < 3 then Err(Panic)
    else
      match AtoiFirstThreeBytes(parts[1])
      case None => Err(Malformed)
      case Some(yday) =>
        match Atoi(parts[0])
        case None => Err(Malformed)
        case Some(year) =>
          var tparts := Split(s, "T");
          if |tparts| < 2 then Err(Panic)
          else if !(0 <= year <= 9999) || !(0 <= yday <= 999) then Err(Malformed)
          else
            match OrdinalDate(year, yday)
            case None => Err(Malformed)
            case Some(md) =>
              match ParseClock(tparts[1])
              case None => Err(Malformed)
              case Some(c) => Ok(Instant(year, md.0, md.1, c.hour, c.minute, c.second, c.nanos))
  }

  /**
    parseTime: a text with exactly one '-' is an ordinal date; any other text
    gets a 'Z' appended when it holds none and is read as RFC 3339.
   */
  function ParseTime(s: string): (r: Result<Instant, TimeFault>)
    ensures r == Err(Panic) ==> |Split(s, "-")| == 2
  {
    if |Split(s, "-")| == 2 then ParseOrdinal(s)
    else
      var v := if 'Z' in s then s else s + "Z";
      match ParseRFC3339(v)
      case None => Err(Malformed)
      case Some(i) => Ok(i)
  }

  /** The month guessed from (y-1)/31 is the month of day y or the one before it. */
  lemma MonthGuess(y: int)
    requires 1 <= y <= 365
    ensures var m0 := (y - 1) / 31 + 1;
      1 <= m0 <= 12 && DaysBefore(m0 - 1) < y && (m0 == 12 || y <= DaysBefore(m0 + 1))
  {
  }

  /** A day of the year that OrdinalDate accepts names a real date whose day of the year it is. */
  lemma OrdinalDateSound(year: int, yday: int)
    requires OrdinalDate(year, yday).Some?
    ensures var (m, d) := OrdinalDate(year, yday).value;
      1 <= m <= 12 && 1 <= d <= DaysIn(m, year) && DayOfYear(year, m, d) == yday
  {
    if !(IsLeap(year) && yday == 31 + 29) {
      var y := if IsLeap(year) && yday > 31 + 29 then yday - 1 else yday;
      MonthGuess(y);
    }
  }

  /** OrdinalDate accepts exactly the days 1..365, or 1..366 in a leap year. */
  lemma OrdinalDateRange(year: int, yday: int)
    ensures OrdinalDate(year, yday).Some? <==> 1 <= yday <= (if IsLeap(year) then 366 else 365)
  {
  }

  /** The day of the year of a date is read back as that date. */
  lemma OrdinalDateOfDayOfYear(year: int, month: nat, day: nat)
    requires 1 <= month <= 12 && 1 <= day <= DaysIn(month, year)
    ensures OrdinalDate(year, DayOfYear(year, month, day)) == Some((month, day))
  {
    var yday := DayOfYear(year, month, day);
    DayOfYearBounds(year, month, day);
    OrdinalDateRange(year, yday);
    OrdinalDateSound(year, yday);
    var (m, d) := OrdinalDate(year, yday).value;
    DayOfYearBounds(year, m, d);
    if m < month {
      DaysBeforeLeapMonotone(year, m, month - 1);
    } else if m > month {
      DaysBeforeLeapMonotone(year, month, m - 1);
    }
  }

  /** Days of the year before month k+1, counting 29 February in a leap year. */
  function DaysBeforeIn(year: int, k: nat): nat
    requires k <= 12
  {
    DaysBefore(k) + (if IsLeap(year) && k >= 2 then 1 else 0)
  }

  lemma DaysBeforeLeapMonotone(year: int, a: nat, b: nat)
    requires a <= b <= 12
    ensures DaysBeforeIn(year, a) <= DaysBeforeIn(year, b)
  {
  }

  /** The days of month m are the days of the year after DaysBeforeIn(m-1), up to DaysBeforeIn(m). */
  lemma DayOfYearBounds(year: int, month: nat, day: nat)
    requires 1 <= month <= 12 && 1 <= day <= DaysIn(month, year)
    ensures DaysBeforeIn(year, month - 1) < DayOfYear(year, month, day) <= DaysBeforeIn(year, month)
    ensures 1 <= DayOfYear(year, month, day) <= (if IsLeap(year) then 366 else 365)
  {
  }

  /** `width` decimal digits of n, most significant first, zero-padded (Go's %0<width>d for n < 10^width). */
  function Pad(n: nat, width: nat): (s: string)
    ensures |s| == width && AllDigits(s)
  {
    if width == 0 then [] else Pad(n / 10, width - 1) + [DigitChar(n % 10)]
  }

  lemma {:induction false} PadValue(n: nat, width: nat)
    requires n < Pow10(width)
    ensures DigitsValue(Pad(n, width)) == n
  {
    if width > 0 {
      PadValue(n / 10, width - 1);
      var s := Pad(n, width);
      assert s[..|s| - 1] == Pad(n / 10, width - 1);
    }
  }

  lemma {:induction false} DigitsValueBound(s: string)
    requires AllDigits(s)
    ensures DigitsValue(s) < Pow10(|s|)
  {
    if s != [] {
      DigitsValueBound(s[..|s| - 1]);
    }
  }

  lemma {:induction false} Pow10Add(a: nat, b: nat)
    ensures Pow10(a) * Pow10(b) == Pow10(a + b)
  {
    if a > 0 {
      Pow10Add(a - 1, b);
    }
  }

  /** A fraction never reaches a whole second. */
  lemma FractionNanosBound(f: string)
    requires AllDigits(f)
    ensures FractionNanos(f) < NanosPerSecond
  {
    var k := if |f| < 9 then |f| else 9;
    DigitsValueBound(f[..k]);
    Pow10Add(k, 9 - k);
    assert Pow10(9) == NanosPerSecond;
  }

  /** A clock that is read has every field in range. */
  lemma ParseClockValid(t: string)
    requires ParseClock(t).Some?
    ensures ValidClock(ParseClock(t).value)
  {
    var hl := if |t| >= 2 && IsDigit(t[1]) then 2 else 1;
    var tail := t[hl..][6..];
    if tail != [] {
      FractionNanosBound(tail[1..]);
    }
  }

  /** A clock written as `hh:mm:ss`, followed by `.nnnnnnnnn` when it has nanoseconds. */
  function FormatClock(c: Clock): string {
    Pad(c.hour, 2) + ":" + Pad(c.minute, 2) + ":" + Pad(c.second, 2)
    + (if c.nanos == 0 then "" else "." + Pad(c.nanos, 9))
  }

  /** The fraction written for a clock is read back as its nanoseconds. */
  lemma ParseFractionFormat(nanos: nat)
    requires nanos < NanosPerSecond
    ensures ParseFraction(if nanos == 0 then "" else "." + Pad(nanos, 9)) == Some(nanos)
  {
    if nanos != 0 {
      var f := Pad(nanos, 9);
      assert ("." + f)[1..] == f;
      assert f[..9] == f;
      assert Pow10(9) == NanosPerSecond;
      PadValue(nanos, 9);
    }
  }

  /** Reading a written clock gives it back. */
  lemma ParseClockFormat(c: Clock)
    requires ValidClock(c)
    ensures ParseClock(FormatClock(c)) == Some(c)
  {
    var hh, mm, ss := Pad(c.hour, 2), Pad(c.minute, 2), Pad(c.second, 2);
    var frac := if c.nanos == 0 then "" else "." + Pad(c.nanos, 9);
    var t := FormatClock(c);
    assert t == hh + (":" + mm + ":" + ss + frac);
    var rest := ":" + mm + ":" + ss + frac;
    assert t[..2] == hh && t[2..] == rest;
    assert rest[1..3] == mm && rest[4..6] == ss && rest[6..] == frac;
    assert DigitsValue(hh) == c.hour by { PadValue(c.hour, 2); }
    assert DigitsValue(mm) == c.minute by { PadValue(c.minute, 2); }
    assert DigitsValue(ss) == c.second by { PadValue(c.second, 2); }
    assert ParseFraction(frac) == Some(c.nanos) by { ParseFractionFormat(c.nanos); }
  }

  function ClockOf(i: Instant): Clock {
    Clock(i.hour, i.minute, i.second, i.nanos)
  }

  /** A written clock holds only digits, ':' and '.'. */
  lemma FormatClockChars(c: Clock)
    ensures forall k | 0 <= k < |FormatClock(c)| ::
      IsDigit(FormatClock(c)[k]) || FormatClock(c)[k] == ':' || FormatClock(c)[k] == '.'
  {
  }

  /** Every instant that parseTime returns has its fields in range. */
  lemma ParseTimeValid(s: string)
    requires ParseTime(s).Ok?
    ensures ValidInstant(ParseTime(s).value)
  {
    var i := ParseTime(s).value;
    if |Split(s, "-")| == 2 {
      var parts, tparts := Split(s, "-"), Split(s, "T");
      var yday := AtoiFirstThreeBytes(parts[1]).value;
      OrdinalDateSound(i.year, yday);
      ParseClockValid(tparts[1]);
    } else {
      var v := if 'Z' in s then s else s + "Z";
      DigitsValueBound(v[..4]);
      assert Pow10(4) == 10000;
      ParseClockValid(v[11..|v| - 1]);
    }
  }

  /** An instant written as `YYYY-MM-DDThh:mm:ss[.nnnnnnnnn]Z`. */
  function FormatCalendar(i: Instant): string
    requires ValidInstant(i)
  {
    Pad(i.year, 4) + "-" + Pad(i.month, 2) + "-" + Pad(i.day, 2) + "T" + FormatClock(ClockOf(i)) + "Z"
  }

  /** An instant written as `YYYY-DDDThh:mm:ss[.nnnnnnnnn]`, the day counted from the start of the year. */
  function FormatOrdinal(i: Instant): string
    requires ValidInstant(i)
  {
    Pad(i.year, 4) + "-" + Pad(DayOfYear(i.year, i.month, i.day), 3) + "T" + FormatClock(ClockOf(i))
  }

  /** Where the pieces of `YYYY-MM-DDTclockZ` sit. */
  lemma CalendarLayout(s: string, y: string, mo: string, d: string, c: string)
    requires s == y + "-" + mo + "-" + (d + "T" + c) && |y| == 4 && |mo| == 2 && |d| == 2
    ensures var v := s + "Z";
      |v| == 12 + |c| && v[|v| - 1] == 'Z' && v[..4] == y && v[4] == '-' && v[5..7] == mo && v[7] == '-'
      && v[8..10] == d && v[10] == 'T' && v[11..|v| - 1] == c
  {
    var v := s + "Z";
    assert v[..|s|] == s;
    assert s[..4] == y && s[5..7] == mo && s[8..10] == d && s[11..] == c;
  }

  /** time.Parse(time.RFC3339, v) for a text whose fields are in place. */
  lemma RFC3339Of(v: string, clock: Clock)
    requires |v| >= 12 && v[|v| - 1] == 'Z' && v[4] == '-' && v[7] == '-' && v[10] == 'T'
    requires AllDigits(v[..4]) && AllDigits(v[5..7]) && AllDigits(v[8..10])
    requires 1 <= DigitsValue(v[5..7]) <= 12 && 1 <= DigitsValue(v[8..10]) <= DaysIn(DigitsValue(v[5..7]), DigitsValue(v[..4]))
    requires ParseClock(v[11..|v| - 1]) == Some(clock)
    ensures ParseRFC3339(v)
         == Some(Instant(DigitsValue(v[..4]), DigitsValue(v[5..7]), DigitsValue(v[8..10]), clock.hour, clock.minute, clock.second, clock.nanos))
  {
  }

  /** The calendar branch of parseTime, taken when the text does not split into two pieces on '-'. */
  lemma ParseTimeCalendar(s: string, t: Instant)
    requires |Split(s, "-")| != 2 && ParseRFC3339(if 'Z' in s then s else s + "Z") == Some(t)
    ensures ParseTime(s) == Ok(t)
  {
  }

  /** A written clock holds no '-', 'T' or 'Z'. */
  lemma ClockChars(c: Clock)
    ensures '-' !in FormatClock(c) && 'T' !in FormatClock(c) && 'Z' !in FormatClock(c)
  {
    FormatClockChars(c);
  }

  /** Appending a 'Z' does not change how a text splits on '-'. */
  lemma SplitDashesZ(base: string)
    ensures |Split(base + "Z", "-")| == |Split(base, "-")|
  {
    SplitCharCount(base, '-');
    SplitCharCount(base + "Z", '-');
    CountAppend(base, "Z", '-');
  }

  /** The calendar branch for a text `YYYY-MM-DDTclockZ` once its pieces are known. */
  lemma ParseTimeCalendarZPieces(s: string, y: string, mo: string, d: string, c: string, clock: Clock)
    requires s == (y + "-" + mo + "-" + (d + "T" + c)) + "Z"
    requires |y| == 4 && |mo| == 2 && |d| == 2 && AllDigits(y) && AllDigits(mo) && AllDigits(d) && '-' !in c && 'Z' !in c
    requires 1 <= DigitsValue(mo) <= 12 && 1 <= DigitsValue(d) <= DaysIn(DigitsValue(mo), DigitsValue(y))
    requires ParseClock(c) == Some(clock)
    ensures ParseTime(s) == Ok(Instant(DigitsValue(y), DigitsValue(mo), DigitsValue(d), clock.hour, clock.minute, clock.second, clock.nanos))
  {
    var base := y + "-" + mo + "-" + (d + "T" + c);
    assert |Split(s, "-")| == 3 by {
      CalendarTextShape(base, y, mo, d, c);
      SplitDashesZ(base);
    }
    assert 'Z' in s by { assert s[|s| - 1] == 'Z'; }
    CalendarTextRFC3339(base, y, mo, d, c, clock);
    ParseTimeCalendar(s, Instant(DigitsValue(y), DigitsValue(mo), DigitsValue(d), clock.hour, clock.minute, clock.second, clock.nanos));
  }

  /** Reading a written calendar date gives back the instant. */
  lemma ParseFormatCalendar(i: Instant)
    requires ValidInstant(i)
    ensures ParseTime(FormatCalendar(i)) == Ok(i)
  {
    var y, m, d, c := Pad(i.year, 4), Pad(i.month, 2), Pad(i.day, 2), FormatClock(ClockOf(i));
    assert FormatCalendar(i) == (y + "-" + m + "-" + (d + "T" + c)) + "Z";
    assert DigitsValue(y) == i.year && DigitsValue(m) == i.month && DigitsValue(d) == i.day by {
      PadValue(i.year, 4);
      PadValue(i.month, 2);
      PadValue(i.day, 2);
    }
    assert '-' !in c && 'Z' !in c by { ClockChars(ClockOf(i)); }
    assert ParseClock(c) == Some(ClockOf(i)) by { ParseClockFormat(ClockOf(i)); }
    ParseTimeCalendarZPieces(FormatCalendar(i), y, m, d, c, ClockOf(i));
  }

  /** The ordinal branch once its pieces are known. */
  lemma ParseTimeOrdinalPieces(s: string, y: string, n: string, c: string, year: int, yday: int, md: (nat, nat), clock: Clock)
    requires Split(s, "-") == [y, n + "T" + c] && |n| == 3
    requires |Split(s, "T")| >= 2 && Split(s, "T")[1] == c
    requires Atoi(n) == Some(yday) && Atoi(y) == Some(year) && 0 <= year <= 9999 && 0 <= yday <= 999
    requires OrdinalDate(year, yday) == Some(md) && ParseClock(c) == Some(clock)
    ensures ParseTime(s) == Ok(Instant(year, md.0, md.1, clock.hour, clock.minute, clock.second, clock.nanos))
  {
    OrdinalDayBytes(n, c, yday);
  }

  /** The day of the year written as three characters before the 'T' is read from the first three bytes. */
  lemma OrdinalDayBytes(n: string, c: string, yday: int)
    requires |n| == 3 && Atoi(n) == Some(yday)
    ensures ByteLength(n + "T" + c) >= 3 && AtoiFirstThreeBytes(n + "T" + c) == Some(yday)
  {
    assert (n + "T" + c)[..3] == n;
    AtoiFirstThreeBytesOfDigits(n + "T" + c);
  }

  /** Reading a written ordinal date gives back the instant. */
  lemma ParseFormatOrdinal(i: Instant)
    requires ValidInstant(i)
    ensures ParseTime(FormatOrdinal(i)) == Ok(i)
  {
    var yday := DayOfYear(i.year, i.month, i.day);
    DayOfYearBounds(i.year, i.month, i.day);
    var s := FormatOrdinal(i);
    var y, n, c := Pad(i.year, 4), Pad(yday, 3), FormatClock(ClockOf(i));
    assert s == y + "-" + n + "T" + c;
    assert Split(s, "-") == [y, n + "T" + c] && Split(s, "T") == [y + "-" + n, c] by {
      DigitsOnly(y);
      DigitsOnly(n);
      ClockChars(ClockOf(i));
      OrdinalTextSplits(y, n, c);
    }
    assert Atoi(n) == Some(yday) by {
      PadValue(yday, 3);
      AtoiDigits(n);
    }
    assert Atoi(y) == Some(i.year) by {
      PadValue(i.year, 4);
      AtoiDigits(y);
    }
    assert OrdinalDate(i.year, yday) == Some((i.month, i.day)) by {
      OrdinalDateOfDayOfYear(i.year, i.month, i.day);
    }
    assert ParseClock(c) == Some(ClockOf(i)) by { ParseClockFormat(ClockOf(i)); }
    ParseTimeOrdinalPieces(s, y, n, c, i.year, yday, (i.month, i.day), ClockOf(i));
  }

  /**
    The 'Z' that parseTime appends to a text without one: on the calendar
    path a text without a 'Z' reads exactly as the text with a 'Z' after it.
   */
  lemma ParseTimeZoneOptional(s: string)
    requires |Split(s, "-")| != 2 && 'Z' !in s
    ensures ParseTime(s) == ParseTime(s + "Z")
  {
    assert |Split(s + "Z", "-")| == |Split(s, "-")| by {
      SplitCharCount(s, '-');
      SplitCharCount(s + "Z", '-');
      CountAppend(s, "Z", '-');
    }
  }

  /** A calendar date written without the final 'Z' is read as UTC. */
  lemma ParseFormatCalendarWithoutZone(i: Instant)
    requires ValidInstant(i)
    ensures ParseTime(FormatCalendar(i)[..|FormatCalendar(i)| - 1]) == Ok(i)
  {
    var full := FormatCalendar(i);
    var y, m, d, c := Pad(i.year, 4), Pad(i.month, 2), Pad(i.day, 2), FormatClock(ClockOf(i));
    var base := y + "-" + m + "-" + (d + "T" + c);
    assert full == base + "Z";
    assert full[..|full| - 1] == base;
    assert |Split(base, "-")| == 3 && 'Z' !in base by {
      ClockChars(ClockOf(i));
      CalendarTextShape(base, y, m, d, c);
    }
    ParseTimeZoneOptional(base);
    ParseFormatCalendar(i);
  }

  /** The value of a two-digit string. */
  lemma DigitsValue2(s: string)
    requires |s| == 2 && AllDigits(s)
    ensures DigitsValue(s) == 10 * DigitValue(s[0]) + DigitValue(s[1])
  {
    assert DigitsValue(s[..1]) == DigitValue(s[0]) by {
      assert s[..1][..0] == [];
    }
  }

  /** The value of a three-digit string. */
  lemma DigitsValue3(s: string)
    requires |s| == 3 && AllDigits(s)
    ensures DigitsValue(s) == 100 * DigitValue(s[0]) + 10 * DigitValue(s[1]) + DigitValue(s[2])
  {
    DigitsValue2(s[..2]);
  }

  /** The value of a four-digit string. */
  lemma DigitsValue4(s: string)
    requires |s| == 4 && AllDigits(s)
    ensures DigitsValue(s) == 1000 * DigitValue(s[0]) + 100 * DigitValue(s[1]) + 10 * DigitValue(s[2]) + DigitValue(s[3])
  {
    DigitsValue3(s[..3]);
  }

  /** A text `y-rest` with no other '-' splits into `y` and `rest`. */
  lemma SplitOnOneDash(y: string, rest: string)
    requires '-' !in y && '-' !in rest
    ensures Split(y + "-" + rest, "-") == [y, rest]
  {
    var s := y + "-" + rest;
    assert s[..|y|] == y && s[|y| + 1..] == rest;
    SplitAtFirst(s, '-', |y|);
    SplitWithout(rest, '-');
  }

  /** A text `head T c` with no other 'T' splits into `head` and `c`. */
  lemma SplitOnOneT(head: string, c: string)
    requires 'T' !in head && 'T' !in c
    ensures Split(head + "T" + c, "T") == [head, c]
  {
    var s := head + "T" + c;
    assert s[..|head|] == head && s[|head| + 1..] == c;
    SplitAtFirst(s, 'T', |head|);
    SplitWithout(c, 'T');
  }

  /** A text `y-nTc` with no other '-' or 'T' splits into its year and the rest, and before and after its 'T'. */
  lemma OrdinalTextSplits(y: string, n: string, c: string)
    requires '-' !in y && '-' !in n && '-' !in c && 'T' !in y && 'T' !in n && 'T' !in c
    ensures Split(y + "-" + n + "T" + c, "-") == [y, n + "T" + c]
    ensures Split(y + "-" + n + "T" + c, "T") == [y + "-" + n, c]
  {
    assert y + "-" + n + "T" + c == y + "-" + (n + "T" + c);
    assert '-' !in n + "T" + c by {
      assert forall k | 0 <= k < |n + "T" + c| :: (n + "T" + c)[k] in n || (n + "T" + c)[k] == 'T' || (n + "T" + c)[k] in c;
    }
    SplitOnOneDash(y, n + "T" + c);
    assert 'T' !in y + "-" + n by {
      assert forall k | 0 <= k < |y + "-" + n| :: (y + "-" + n)[k] in y || (y + "-" + n)[k] == '-' || (y + "-" + n)[k] in n;
    }
    SplitOnOneT(y + "-" + n, c);
  }

  /** Day 65 of 2020 is 5 March and day 64 is 4 March, 2020 being a leap year. */
  lemma OrdinalDateExamples()
    ensures OrdinalDate(2020, 65) == Some((3, 5)) && OrdinalDate(2020, 64) == Some((3, 4))
  {
    assert IsLeap(2020);
  }

  /** The year and days of the ordinal examples. */
  lemma AtoiExamples()
    ensures Atoi("2020") == Some(2020) && Atoi("065") == Some(65) && Atoi("064") == Some(64)
  {
    DigitsValue4("2020");
    AtoiDigits("2020");
    DigitsValue3("065");
    AtoiDigits("065");
    DigitsValue3("064");
    AtoiDigits("064");
  }

  /** Reads `hh:mm:ss` followed by a fraction, field by field. */
  lemma ParseClockPieces(t: string, frac: string, nanos: nat)
    requires |t| == 8 + |frac| && t[8..] == frac && AllDigits(t[..2]) && t[2] == ':' && t[5] == ':'
    requires AllDigits(t[3..5]) && AllDigits(t[6..8]) && ParseFraction(frac) == Some(nanos)
    requires DigitsValue(t[..2]) < 24 && DigitsValue(t[3..5]) < 60 && DigitsValue(t[6..8]) < 60
    ensures ParseClock(t) == Some(Clock(DigitsValue(t[..2]), DigitsValue(t[3..5]), DigitsValue(t[6..8]), nanos))
  {
    assert IsDigit(t[..2][1]);
    assert t[2..][1..3] == t[3..5] && t[2..][4..6] == t[6..8] && t[2..][6..] == frac;
    assert IsDigit(t[3..5][0]) && IsDigit(t[3..5][1]) && IsDigit(t[6..8][0]) && IsDigit(t[6..8][1]);
  }

  /** Where the fields of `hh:mm:ss` followed by a fraction sit. */
  lemma ClockLayout(t: string, h: string, m: string, sec: string, frac: string)
    requires t == h + ":" + m + ":" + sec + frac && |h| == 2 && |m| == 2 && |sec| == 2
    ensures |t| == 8 + |frac| && t[..2] == h && t[2] == ':' && t[3..5] == m && t[5] == ':' && t[6..8] == sec && t[8..] == frac
  {
  }

  /** A clock `hh:mm:ss` followed by a fraction, read field by field. */
  lemma ParseClockText(t: string, h: string, m: string, sec: string, frac: string, nanos: nat)
    requires t == h + ":" + m + ":" + sec + frac && |h| == 2 && |m| == 2 && |sec| == 2
    requires AllDigits(h) && AllDigits(m) && AllDigits(sec) && ParseFraction(frac) == Some(nanos)
    requires DigitsValue(h) < 24 && DigitsValue(m) < 60 && DigitsValue(sec) < 60
    ensures ParseClock(t) == Some(Clock(DigitsValue(h), DigitsValue(m), DigitsValue(sec), nanos))
  {
    ClockLayout(t, h, m, sec, frac);
    ParseClockPieces(t, frac, nanos);
  }

  /** The clock of the first ordinal example. */
  lemma ParseClockExamples()
    ensures ParseClock("16:00:00") == Some(Clock(16, 0, 0, 0))
  {
    assert "16:00:00" == "16" + ":" + "00" + ":" + "00" + "";
    DigitsValue2("16");
    DigitsValue2("00");
    ParseClockText("16:00:00", "16", "00", "00", "", 0);
  }

  /** A four-digit fraction is scaled to nanoseconds. */
  lemma ParseFractionExample()
    ensures ParseFraction(".4264") == Some(426_400_000)
  {
    DigitsValue4("4264");
    assert ".4264"[1..] == "4264" && "4264"[..4] == "4264";
    assert Pow10(5) == 100000;
  }

  /** The clock of the second ordinal example, with a four-digit fraction. */
  lemma ParseClockFractionExample()
    ensures ParseClock("10:34:41.4264") == Some(Clock(10, 34, 41, 426_400_000))
  {
    assert "10:34:41.4264" == "10" + ":" + "34" + ":" + "41" + ".4264";
    ParseFractionExample();
    DigitsValue2("10");
    DigitsValue2("34");
    DigitsValue2("41");
    ParseClockText("10:34:41.4264", "10", "34", "41", ".4264", 426_400_000);
  }

  /** An ordinal epoch: day 65 of 2020 is 5 March (utils_test.go, "with days only"). */
  lemma ParseTimeOrdinalExample()
    ensures ParseTime("2020-065T16:00:00") == Ok(Instant(2020, 3, 5, 16, 0, 0, 0))
  {
    var y, n, c := "2020", "065", "16:00:00";
    assert "2020-065T16:00:00" == y + "-" + n + "T" + c;
    assert Split(y + "-" + n + "T" + c, "-") == [y, n + "T" + c] && Split(y + "-" + n + "T" + c, "T") == [y + "-" + n, c] by {
      OrdinalTextSplits(y, n, c);
    }
    assert Atoi(n) == Some(65) && Atoi(y) == Some(2020) by { AtoiExamples(); }
    assert OrdinalDate(2020, 65) == Some((3, 5)) by { OrdinalDateExamples(); }
    assert ParseClock(c) == Some(Clock(16, 0, 0, 0)) by { ParseClockExamples(); }
    ParseTimeOrdinalPieces(y + "-" + n + "T" + c, y, n, c, 2020, 65, (3, 5), Clock(16, 0, 0, 0));
  }

  /**
    A fraction with fewer than nine digits is scaled to nanoseconds: day 64 of
    2020 at 10:34:41.4264 (utils_test.go, "too long of decimal").
   */
  lemma ParseTimeFractionExample()
    ensures ParseTime("2020-064T10:34:41.4264") == Ok(Instant(2020, 3, 4, 10, 34, 41, 426_400_000))
  {
    var y, n, c := "2020", "064", "10:34:41.4264";
    assert "2020-064T10:34:41.4264" == y + "-" + n + "T" + c;
    assert Split(y + "-" + n + "T" + c, "-") == [y, n + "T" + c] && Split(y + "-" + n + "T" + c, "T") == [y + "-" + n, c] by {
      OrdinalTextSplits(y, n, c);
    }
    assert Atoi(n) == Some(64) && Atoi(y) == Some(2020) by { AtoiExamples(); }
    assert OrdinalDate(2020, 64) == Some((3, 4)) by { OrdinalDateExamples(); }
    assert ParseClock(c) == Some(Clock(10, 34, 41, 426_400_000)) by { ParseClockFractionExample(); }
    ParseTimeOrdinalPieces(y + "-" + n + "T" + c, y, n, c, 2020, 64, (3, 4), Clock(10, 34, 41, 426_400_000));
  }

  /** A text with exactly two dashes splits on '-' into three pieces. */
  lemma TwoDashes(a: string, b: string, c: string)
    requires '-' !in a && '-' !in b && '-' !in c
    ensures |Split(a + "-" + b + "-" + c, "-")| == 3
  {
    CountAppend(a + "-" + b + "-", c, '-');
    CountAppend(a + "-" + b, "-", '-');
    CountAppend(a + "-", b, '-');
    CountAppend(a, "-", '-');
    CountAbsent(a, '-');
    CountAbsent(b, '-');
    CountAbsent(c, '-');
    assert Count("-", '-') == 1;
    SplitCharCount(a + "-" + b + "-" + c, '-');
  }

  /** A digit string holds no '-', 'T' or 'Z'. */
  lemma DigitsOnly(s: string)
    requires AllDigits(s)
    ensures '-' !in s && 'T' !in s && 'Z' !in s
  {
    assert forall k | 0 <= k < |s| :: IsDigit(s[k]);
  }

  /** A text `YYYY-MM-DDTclock` whose clock holds no '-' or 'Z' has two dashes and no 'Z'. */
  lemma CalendarTextShape(s: string, y: string, mo: string, d: string, c: string)
    requires s == y + "-" + mo + "-" + (d + "T" + c)
    requires AllDigits(y) && AllDigits(mo) && AllDigits(d) && '-' !in c && 'Z' !in c
    ensures |Split(s, "-")| == 3 && 'Z' !in s
  {
    DigitsOnly(y);
    DigitsOnly(mo);
    DigitsOnly(d);
    TwoDashes(y, mo, d + "T" + c);
  }

  /** Appending the 'Z' to a text `YYYY-MM-DDTclock` gives an RFC 3339 text with those fields. */
  lemma CalendarTextRFC3339(s: string, y: string, mo: string, d: string, c: string, clock: Clock)
    requires s == y + "-" + mo + "-" + (d + "T" + c)
    requires |y| == 4 && |mo| == 2 && |d| == 2 && AllDigits(y) && AllDigits(mo) && AllDigits(d)
    requires 1 <= DigitsValue(mo) <= 12 && 1 <= DigitsValue(d) <= DaysIn(DigitsValue(mo), DigitsValue(y))
    requires ParseClock(c) == Some(clock)
    ensures ParseRFC3339(s + "Z")
         == Some(Instant(DigitsValue(y), DigitsValue(mo), DigitsValue(d), clock.hour, clock.minute, clock.second, clock.nanos))
  {
    CalendarLayout(s, y, mo, d, c);
    RFC3339Of(s + "Z", clock);
  }

  /** The calendar branch once its pieces are known: a text `YYYY-MM-DDTclock` without 'Z' is read as UTC. */
  lemma ParseTimeCalendarPieces(s: string, y: string, mo: string, d: string, c: string, clock: Clock)
    requires s == y + "-" + mo + "-" + (d + "T" + c)
    requires |y| == 4 && |mo| == 2 && |d| == 2 && AllDigits(y) && AllDigits(mo) && AllDigits(d)
    requires '-' !in c && 'Z' !in c
    requires 1 <= DigitsValue(mo) <= 12 && 1 <= DigitsValue(d) <= DaysIn(DigitsValue(mo), DigitsValue(y))
    requires ParseClock(c) == Some(clock)
    ensures ParseTime(s) == Ok(Instant(DigitsValue(y), DigitsValue(mo), DigitsValue(d), clock.hour, clock.minute, clock.second, clock.nanos))
  {
    CalendarTextShape(s, y, mo, d, c);
    CalendarTextRFC3339(s, y, mo, d, c, clock);
    ParseTimeCalendar(s, Instant(DigitsValue(y), DigitsValue(mo), DigitsValue(d), clock.hour, clock.minute, clock.second, clock.nanos));
  }

  /** A three-digit zero fraction is zero nanoseconds. */
  lemma ZeroFractionExample()
    ensures ParseFraction(".000") == Some(0)
  {
    DigitsValue3("000");
    assert ".000"[1..] == "000" && "000"[..3] == "000";
  }

  /** The clock of the calendar example, with a three-digit zero fraction. */
  lemma CalendarExampleClock()
    ensures ParseClock("05:33:00.000") == Some(Clock(5, 33, 0, 0))
  {
    assert "05:33:00.000" == "05" + ":" + "33" + ":" + "00" + ".000";
    ZeroFractionExample();
    DigitsValue2("05");
    DigitsValue2("33");
    DigitsValue2("00");
    ParseClockText("05:33:00.000", "05", "33", "00", ".000", 0);
  }

  /** The date fields of the calendar example. */
  lemma CalendarExampleFields()
    ensures AllDigits("2021") && AllDigits("06") && AllDigits("03")
    ensures DigitsValue("2021") == 2021 && DigitsValue("06") == 6 && DigitsValue("03") == 3
    ensures '-' !in "05:33:00.000" && 'Z' !in "05:33:00.000"
  {
    DigitsValue4("2021");
    DigitsValue2("06");
    DigitsValue2("03");
  }

  /** A calendar epoch without its 'Z' and with a zero fraction (utils_test.go, "without Z"). */
  lemma ParseTimeCalendarExample()
    ensures ParseTime("2021-06-03T05:33:00.000") == Ok(Instant(2021, 6, 3, 5, 33, 0, 0))
  {
    var y, mo, d, t := "2021", "06", "03", "05:33:00.000";
    assert "2021-06-03T05:33:00.000" == y + "-" + mo + "-" + (d + "T" + t);
    CalendarExampleFields();
    CalendarExampleClock();
    ParseTimeCalendarPieces(y + "-" + mo + "-" + (d + "T" + t), y, mo, d, t, Clock(5, 33, 0, 0));
  }

}
