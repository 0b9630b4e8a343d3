/**
 * Calendar dates as the booking code handles them: "YYYY-MM-DD" strings that
 * are split on '-', read with `Number`, turned into a local `Date` with
 * `new Date(year, month - 1, day)`, and printed back with zero padding.
 */
module DateUtils {
  import opened Wrappers
  import opened Text

  /** A local calendar day: getFullYear(), getMonth() + 1 and getDate() of a `Date`. */
  datatype CivilDate = CivilDate(year: int, month: int, day: int)

  predicate IsLeapYear(y: int)
  {
    (y % 4 == 0 && y % 100 != 0) || y % 400 == 0
  }

  function DaysInMonth(y: int, m: int): (n: int)
    requires 1 <= m <= 12
    ensures 28 <= n <= 31
  {
    if m == 2 then (if IsLeapYear(y) then 29 else 28)
    else if m == 4 || m == 6 || m == 9 || m == 11 then 30
    else 31
  }

  /** What a `Date` object always holds: a month 1..12 and a day inside that month. */
  predicate ValidDate(d: CivilDate)
  {
    1 <= d.month <= 12 && 1 <= d.day <= DaysInMonth(d.year, d.month)
  }

  /** Leap years in [0, y) of the proleptic Gregorian calendar (negative for y < 0). */
  function LeapsBefore(y: int): int
  {
    (y + 3) / 4 - (y + 99) / 100 + (y + 399) / 400
  }

  /** Days in the months of year `y` before month `m`. */
  function DaysBeforeMonth(y: int, m: int): (n: int)
    requires 1 <= m <= 12
    ensures m > 1 ==> n == DaysBeforeMonth(y, m - 1) + DaysInMonth(y, m - 1)
  {
    [0, 31, 59, 90, 120, 151, 181, 212, 243, 273, 304, 334][m - 1]
    + (if m > 2 && IsLeapYear(y) then 1 else 0)
  }

  /** Days from 0000-01-01 to (y, m, d); linear in `d`, so an overflowing day counts on into later months. */
  function DayNumber(y: int, m: int, d: int): int
    requires 1 <= m <= 12
  {
    365 * y + LeapsBefore(y) + DaysBeforeMonth(y, m) + d - 1
  }

  /** The weekday of a day number, Sunday = 0 (0000-01-01 was a Saturday). */
  function WeekDayOfNumber(n: int): (w: int)
    ensures 0 <= w < 7
  {
    (n + 6) % 7
  }

  /** `date.getDay()` for a calendar day. */
  function WeekDay(d: CivilDate): (w: int)
    requires 1 <= d.month <= 12
    ensures 0 <= w < 7
  {
    WeekDayOfNumber(DayNumber(d.year, d.month, d.day))
  }

  /**
   * The day number of `new Date(year, monthIndex, day)`: a year 0..99 means
   * 1900..1999, and an out-of-range month index rolls over into other years.
   */
  function JsDayNumber(year: int, monthIndex: int, day: int): int
  {
    var yr := if 0 <= year <= 99 then 1900 + year else year;
    DayNumber(yr + monthIndex / 12, monthIndex % 12 + 1, day)
  }

  /** The next calendar day. */
  function NextDay(d: CivilDate): (n: CivilDate)
    requires ValidDate(d)
    ensures ValidDate(n)
  {
    if d.day < DaysInMonth(d.year, d.month) then d.(day := d.day + 1)
    else if d.month < 12 then CivilDate(d.year, d.month + 1, 1)
    else CivilDate(d.year + 1, 1, 1)
  }

  lemma LeapsStep(y: int)
    ensures LeapsBefore(y + 1) == LeapsBefore(y) + (if IsLeapYear(y) then 1 else 0)
  {
    assert (y + 4) / 4 - (y + 3) / 4 == (if y % 4 == 0 then 1 else 0);
    assert (y + 100) / 100 - (y + 99) / 100 == (if y % 100 == 0 then 1 else 0);
    assert (y + 400) / 400 - (y + 399) / 400 == (if y % 400 == 0 then 1 else 0);
  }

  /** The next calendar day is one day number later. */
  lemma NextDayNumber(d: CivilDate)
    requires ValidDate(d)
    ensures DayNumber(NextDay(d).year, NextDay(d).month, NextDay(d).day)
         == DayNumber(d.year, d.month, d.day) + 1
  {
    if d.day == DaysInMonth(d.year, d.month) && d.month == 12 {
      LeapsStep(d.year);
    }
  }

  lemma ModSucc(k: int)
    ensures (k + 1) % 7 == (k % 7 + 1) % 7
  {
    var q, r := k / 7, k % 7;
    if r < 6 {
      assert k + 1 == 7 * q + (r + 1);
    } else {
      assert k + 1 == 7 * (q + 1);
    }
  }

  /** The weekday of the next calendar day is one more, modulo 7. */
  lemma NextDayWeekDay(d: CivilDate)
    requires ValidDate(d)
    ensures WeekDay(NextDay(d)) == (WeekDay(d) + 1) % 7
  {
    NextDayNumber(d);
    ModSucc(DayNumber(d.year, d.month, d.day) + 6);
  }

  /**
   * The first three '-'-separated fields read with `Number`, when each is a
   * (possibly empty) digit string; an empty field reads as 0.
   */
  function DateFields(s: string): Option<(nat, nat, nat)>
  {
    var parts := Split(s, '-');
    if |parts| >= 3 && AllDigits(parts[0]) && AllDigits(parts[1]) && AllDigits(parts[2])
    then Some((DigitsValue(parts[0]), DigitsValue(parts[1]), DigitsValue(parts[2])))
    else None
  }

  /** `getDayOfWeekFromDateString`: `None` stands for the NaN of an Invalid Date. */
  function GetDayOfWeekFromDateString(s: string): (r: Option<int>)
    ensures r.Some? ==> 0 <= r.value < 7
  {
    match DateFields(s)
    case None => None
    case Some((y, m, d)) => Some(WeekDayOfNumber(JsDayNumber(y, m - 1, d)))
  }

  /** `formatDateToBrazil`: `${year}-${pad(month)}-${pad(day)}`. */
  function FormatDateToBrazil(d: CivilDate): string
    requires ValidDate(d)
  {
    IntString(d.year) + "-" + Pad2(d.month) + "-" + Pad2(d.day)
  }

  /**
   * `parseDateString`, for fields that name a real calendar day (a year 0..99
   * is read as 1900..1999, as `new Date` does).
   */
  function ParseDateString(s: string): (r: Option<CivilDate>)
    ensures r.Some? ==> ValidDate(r.value)
  {
    match DateFields(s)
    case None => None
    case Some((y, m, d)) =>
      var date := CivilDate(if y <= 99 then 1900 + y else y, m, d);
      if ValidDate(date) then Some(date) else None
  }

  /** `isDateBeforeToday`, with today's "YYYY-MM-DD" passed in. */
  predicate IsDateBeforeToday(s: string, today: string)
  {
    LexLess(s, today)
  }

  /** The shape /^\d{4}-\d{2}-\d{2}$/. */
  predicate IsDateShape(s: string)
  {
    |s| == 10 && s[4] == '-' && s[7] == '-'
    && AllDigits(s[..4]) && AllDigits(s[5..7]) && AllDigits(s[8..])
  }

  /** Chronological order of calendar days. */
  predicate Before(a: CivilDate, b: CivilDate)
  {
    a.year < b.year || (a.year == b.year && (a.month < b.month || (a.month == b.month && a.day < b.day)))
  }

  // ---- proofs about the digit strings --------------------------------------

  lemma {:induction false} DigitsValueBound(s: string)
    requires AllDigits(s) && s != []
    ensures DigitsValue(s) >= DigitValue(s[0])
    decreases |s|
  {
    if |s| > 1 {
      DigitsValueBound(s[..|s| - 1]);
    } else {
      assert s[..0] == [];
    }
  }

  /** A digit string without a leading zero is what `String` prints for its value. */
  lemma {:induction false} DecimalOfDigits(s: string)
    requires AllDigits(s) && s != [] && (|s| == 1 || s[0] != '0')
    ensures Decimal(DigitsValue(s)) == s
    decreases |s|
  {
    var p := s[..|s| - 1];
    if |s| == 1 {
      assert p == [];
    } else {
      DecimalOfDigits(p);
      DigitsValueBound(p);
      assert DigitValue(p[0]) >= 1;
      var v := DigitsValue(s);
      assert v / 10 == DigitsValue(p) && v % 10 == DigitValue(s[|s| - 1]);
      assert s == p + [s[|s| - 1]];
    }
  }

  lemma {:induction false} DigitsOrder(a: string, b: string)
    requires |a| == |b| && AllDigits(a) && AllDigits(b)
    ensures LexLess(a, b) <==> DigitsValue(a) < DigitsValue(b)
    ensures a == b <==> DigitsValue(a) == DigitsValue(b)
    decreases |a|
  {
    if a != [] {
      var n := |a|;
      var a', b' := a[..n - 1], b[..n - 1];
      DigitsOrder(a', b');
      assert a == a' + [a[n - 1]] && b == b' + [b[n - 1]];
      LexLessConcat(a', [a[n - 1]], b', [b[n - 1]]);
      assert LexLess([a[n - 1]], [b[n - 1]]) <==> a[n - 1] < b[n - 1] by {
        assert [a[n - 1]][1..] == [] && [b[n - 1]][1..] == [];
      }
      assert DigitChar(DigitValue(a[n - 1])) == a[n - 1];
      assert DigitChar(DigitValue(b[n - 1])) == b[n - 1];
    } else {
      assert b == [];
    }
  }

  /** The four digits of a year 1000..9999. */
  lemma FourDigitYear(y: int)
    requires 1000 <= y <= 9999
    ensures |IntString(y)| == 4 && AllDigits(IntString(y)) && DigitsValue(IntString(y)) == y
  {
    DecimalRoundTrip(y);
    var s := Decimal(y);
    assert s == Decimal(y / 10) + [DigitChar(y % 10)];
    assert Decimal(y / 10) == Decimal(y / 100) + [DigitChar((y / 10) % 10)];
    assert Decimal(y / 100) == Decimal(y / 1000) + [DigitChar((y / 100) % 10)];
  }

  lemma FormatFields(d: CivilDate)
    requires ValidDate(d) && 1000 <= d.year <= 9999
    ensures var s := FormatDateToBrazil(d);
      IsDateShape(s) && s[..4] == IntString(d.year) && s[5..7] == Pad2(d.month) && s[8..] == Pad2(d.day)
  {
    FourDigitYear(d.year);
  }

  // ---- the promised properties ---------------------------------------------

  /** `formatDateToBrazil` prints a zero-padded "YYYY-MM-DD" for four-digit years. */
  lemma FormatIsZeroPadded(d: CivilDate)
    requires ValidDate(d) && 1000 <= d.year <= 9999
    ensures IsDateShape(FormatDateToBrazil(d))
    ensures DateFields(FormatDateToBrazil(d)) == Some((d.year, d.month, d.day))
  {
    FormatFields(d);
    var s := FormatDateToBrazil(d);
    FourDigitYear(d.year);
    Pad2RoundTrip(d.month);
    Pad2RoundTrip(d.day);
    assert s == s[..4] + ['-'] + (s[5..7] + ['-'] + s[8..]);
    SplitCons(s[..4], '-', s[5..7] + ['-'] + s[8..]);
    SplitCons(s[5..7], '-', s[8..]);
    SplitNone(s[8..], '-');
  }

  /** The three fields of a "YYYY-MM-DD" string. */
  lemma DateShapeFields(s: string)
    requires IsDateShape(s)
    ensures DateFields(s) == Some((DigitsValue(s[..4]), DigitsValue(s[5..7]), DigitsValue(s[8..])))
  {
    assert s == s[..4] + ['-'] + (s[5..7] + ['-'] + s[8..]);
    SplitCons(s[..4], '-', s[5..7] + ['-'] + s[8..]);
    SplitCons(s[5..7], '-', s[8..]);
    SplitNone(s[8..], '-');
  }

  lemma YearPart(s: string)
    requires IsDateShape(s) && s[0] != '0'
    ensures DigitsValue(s[..4]) >= 1000 && IntString(DigitsValue(s[..4])) == s[..4]
  {
    DecimalOfDigits(s[..4]);
    DigitsValueBound(s[..4]);
    assert DigitsValue(s[..4]) >= 1000 by {
      assert s[..4][..3][..2][..1][..0] == [];
    }
  }

  /** Parsing a zero-padded date string and printing it again gives the same string. */
  lemma DateParseThenFormat(s: string)
    requires IsDateShape(s) && s[0] != '0'
    requires ParseDateString(s).Some?
    ensures FormatDateToBrazil(ParseDateString(s).value) == s
  {
    DateShapeFields(s);
    var y, m, dd := DigitsValue(s[..4]), DigitsValue(s[5..7]), DigitsValue(s[8..]);
    YearPart(s);
    assert ParseDateString(s) == Some(CivilDate(y, m, dd));
    var d := ParseDateString(s).value;
    TwoDigitValue(s[5..7]);
    TwoDigitValue(s[8..]);
    assert IntString(d.year) == s[..4] && Pad2(d.month) == s[5..7] && Pad2(d.day) == s[8..];
    assert FormatDateToBrazil(d) == s[..4] + "-" + s[5..7] + "-" + s[8..];
    DateSplice(s);
  }

  lemma DateSplice(s: string)
    requires |s| == 10 && s[4] == '-' && s[7] == '-'
    ensures s == s[..4] + "-" + s[5..7] + "-" + s[8..]
  {
  }

  /** Printing a date and parsing it back gives the same date (four-digit years). */
  lemma DateFormatThenParse(d: CivilDate)
    requires ValidDate(d) && 1000 <= d.year <= 9999
    ensures ParseDateString(FormatDateToBrazil(d)) == Some(d)
  {
    FormatIsZeroPadded(d);
  }

  /** On four-digit years, `isDateBeforeToday`'s string order is chronological order. */
  lemma StringOrderIsChronological(a: CivilDate, b: CivilDate)
    requires ValidDate(a) && ValidDate(b)
    requires 1000 <= a.year <= 9999 && 1000 <= b.year <= 9999
    ensures IsDateBeforeToday(FormatDateToBrazil(a), FormatDateToBrazil(b)) <==> Before(a, b)
  {
    var sa, sb := FormatDateToBrazil(a), FormatDateToBrazil(b);
    FormatFields(a);
    FormatFields(b);
    FourDigitYear(a.year);
    FourDigitYear(b.year);
    Pad2RoundTrip(a.month);
    Pad2RoundTrip(b.month);
    Pad2RoundTrip(a.day);
    Pad2RoundTrip(b.day);
    assert sa == sa[..4] + (['-'] + (sa[5..7] + (['-'] + sa[8..])));
    assert sb == sb[..4] + (['-'] + (sb[5..7] + (['-'] + sb[8..])));
    LexLessConcat(sa[..4], ['-'] + (sa[5..7] + (['-'] + sa[8..])), sb[..4], ['-'] + (sb[5..7] + (['-'] + sb[8..])));
    LexLessConcat(['-'], sa[5..7] + (['-'] + sa[8..]), ['-'], sb[5..7] + (['-'] + sb[8..]));
    LexLessConcat(sa[5..7], ['-'] + sa[8..], sb[5..7], ['-'] + sb[8..]);
    LexLessConcat(['-'], sa[8..], ['-'], sb[8..]);
    LexLessIrreflexive(['-']);
    DigitsOrder(sa[..4], sb[..4]);
    DigitsOrder(sa[5..7], sb[5..7]);
    DigitsOrder(sa[8..], sb[8..]);
  }

  lemma Year2024()
    ensures AllDigits("2024") && DigitsValue("2024") == 2024
  {
    assert "2024"[..3] == "202" && "202"[..2] == "20" && "20"[..1] == "2" && "2"[..0] == "";
  }

  lemma December2024Fields(s: string, day: string)
    requires |day| == 2 && AllDigits(day) && s == "2024-12-" + day
    ensures DateFields(s) == Some((2024, 12, DigitsValue(day)))
  {
    assert s[..4] == "2024" && s[5..7] == "12" && s[8..] == day;
    DateShapeFields(s);
    Year2024();
    TwoDigitValue("12");
  }

  lemma December2024DayNumber(d: int)
    ensures JsDayNumber(2024, 11, d) == 739585 + d
  {
    assert LeapsBefore(2024) == 491;
    assert DaysBeforeMonth(2024, 12) == 335;
  }

  /**
   * `getDayOfWeekFromDateString` reads back the weekday of the day
   * `formatDateToBrazil` printed.
   */
  lemma DayOfWeekOfFormatted(d: CivilDate)
    requires ValidDate(d) && 1000 <= d.year <= 9999
    ensures GetDayOfWeekFromDateString(FormatDateToBrazil(d)) == Some(WeekDay(d))
  {
    FormatIsZeroPadded(d);
    assert (d.month - 1) / 12 == 0 && (d.month - 1) % 12 + 1 == d.month;
    assert JsDayNumber(d.year, d.month - 1, d.day) == DayNumber(d.year, d.month, d.day);
  }

  lemma EmptyDaySplit()
    ensures Split("2024-12-", '-') == ["2024", "12", ""]
  {
    assert "2024-12-" == "2024" + ['-'] + ("12" + ['-'] + "");
    SplitCons("2024", '-', "12" + ['-'] + "");
    SplitCons("12", '-', "");
    SplitNone("", '-');
  }

  lemma EmptyDayFields()
    ensures DateFields("2024-12-") == Some((2024, 12, 0))
  {
    EmptyDaySplit();
    Year2024();
    TwoDigitValue("12");
    assert AllDigits("");
  }

  /**
   * An empty day field reads as day 0, the last day of the month before:
   * "2024-12-" falls on the weekday of 30 November 2024.
   */
  lemma EmptyDayIsDayZero()
    ensures GetDayOfWeekFromDateString("2024-12-") == Some(WeekDay(CivilDate(2024, 11, 30)))
  {
    EmptyDayFields();
    WeekDayOfFields("2024-12-", 2024, 12, 0);
    assert JsDayNumber(2024, 11, 0) == DayNumber(2024, 11, 30);
  }

  /** The weekday of a string whose fields are known. */
  lemma WeekDayOfFields(s: string, y: nat, m: nat, d: nat)
    requires DateFields(s) == Some((y, m, d))
    ensures GetDayOfWeekFromDateString(s) == Some(WeekDayOfNumber(JsDayNumber(y, m - 1, d)))
  {
    var f := DateFields(s).value;
    assert f.0 == y && f.1 == m && f.2 == d;
  }

  lemma TuesdayFields()
    ensures GetDayOfWeekFromDateString("2024-12-03") == Some(WeekDayOfNumber(JsDayNumber(2024, 11, 3)))
  {
    TwoDigitValue("03");
    assert "2024-12-03" == "2024-12-" + "03";
    December2024Fields("2024-12-03", "03");
    WeekDayOfFields("2024-12-03", 2024, 12, 3);
  }

  lemma MondayFields()
    ensures GetDayOfWeekFromDateString("2024-12-02") == Some(WeekDayOfNumber(JsDayNumber(2024, 11, 2)))
  {
    TwoDigitValue("02");
    assert "2024-12-02" == "2024-12-" + "02";
    December2024Fields("2024-12-02", "02");
    WeekDayOfFields("2024-12-02", 2024, 12, 2);
  }

  lemma December2024WeekDays()
    ensures WeekDayOfNumber(JsDayNumber(2024, 11, 2)) == 1
    ensures WeekDayOfNumber(JsDayNumber(2024, 11, 3)) == 2
  {
    December2024DayNumber(2);
    December2024DayNumber(3);
    assert WeekDayOfNumber(739587) == 1;
    assert WeekDayOfNumber(739588) == 2;
  }

  /** The example the code's comment gives: 3 December 2024 was a Tuesday. */
  lemma TuesdayExample()
    ensures GetDayOfWeekFromDateString("2024-12-03") == Some(2)
  {
    TuesdayFields();
    December2024WeekDays();
  }

  /** 2 December 2024 was a Monday. */
  lemma MondayExample()
    ensures GetDayOfWeekFromDateString("2024-12-02") == Some(1)
  {
    MondayFields();
    December2024WeekDays();
  }
}
