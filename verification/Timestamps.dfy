/**
  Times as texts: the database writes a blank between day and clock, the service the letter of ISO 8601. As both
  texts are compared character by character, the later day is the greater text, and on the same day the blank loses.
 */
module Timestamps {
  import opened Prelude

  const DAY_SECONDS := 86400

  /** Days since 1970; no clock here shows an earlier one. */
  function Day(seconds: int): nat { if seconds < 0 then 0 else seconds / DAY_SECONDS }

  // ----- the calendar -------------------------------------------------------------------

  datatype Date = Date(year: nat, month: nat, day: nat)

  predicate IsLeap(year: nat) { year % 4 == 0 && (year % 100 != 0 || year % 400 == 0) }

  function MonthLength(year: nat, month: nat): nat
  {
    if month == 2 then (if IsLeap(year) then 29 else 28) else if month in {4, 6, 9, 11} then 30 else 31
  }

  function NextDate(d: Date): Date
  {
    if d.day < MonthLength(d.year, d.month) then d.(day := d.day + 1)
    else if d.month < 12 then Date(d.year, d.month + 1, 1)
    else Date(d.year + 1, 1, 1)
  }

  function DateOf(day: nat): (d: Date)
    ensures 1 <= d.month <= 12 && 1 <= d.day <= 31
  {
    if day == 0 then Date(1970, 1, 1) else NextDate(DateOf(day - 1))
  }

  predicate Earlier(a: Date, b: Date)
  {
    a.year < b.year || (a.year == b.year && (a.month < b.month || (a.month == b.month && a.day < b.day)))
  }

  lemma {:induction false} LaterDaysHaveLaterDates(day: nat, later: nat)
    requires day < later
    ensures Earlier(DateOf(day), DateOf(later))
  {
    if day < later - 1 { LaterDaysHaveLaterDates(day, later - 1); }
  }

  lemma DatesNotLater(day: nat, later: nat)
    requires day <= later
    ensures DateOf(day).year <= DateOf(later).year
  {
    if day < later { LaterDaysHaveLaterDates(day, later); }
  }

  /** Leap days before a year, from year 1 on. */
  function LeapDays(year: nat): int
    requires 1 <= year
  {
    (year - 1) / 4 - (year - 1) / 100 + (year - 1) / 400
  }

  /** Days of the year before a month. */
  function MonthStart(year: nat, month: nat): int
    requires 1 <= month <= 12
  {
    var before := [0, 31, 59, 90, 120, 151, 181, 212, 243, 273, 304, 334];
    before[month - 1] + if month > 2 && ((year % 4 == 0 && year % 100 != 0) || year % 400 == 0) then 1 else 0
  }

  /** Days from the first of 1970, by the rule of the Gregorian calendar. */
  function DaysSince1970(d: Date): int
    requires 1 <= d.year && 1 <= d.month <= 12
  {
    365 * (d.year - 1970) + LeapDays(d.year) - LeapDays(1970) + MonthStart(d.year, d.month) + d.day - 1
  }

  lemma Fourths(year: nat)
    requires 1 <= year
    ensures year / 4 - (year - 1) / 4 == if year % 4 == 0 then 1 else 0
  {
  }

  lemma Hundredths(year: nat)
    requires 1 <= year
    ensures year / 100 - (year - 1) / 100 == if year % 100 == 0 then 1 else 0
  {
  }

  lemma FourHundredths(year: nat)
    requires 1 <= year
    ensures year / 400 - (year - 1) / 400 == if year % 400 == 0 then 1 else 0
  {
  }

  lemma LeapIs(year: nat)
    ensures year % 100 == 0 ==> year % 4 == 0
    ensures year % 400 == 0 ==> year % 100 == 0
    ensures IsLeap(year) <==> (year % 4 == 0 && year % 100 != 0) || year % 400 == 0
  {
    if year % 100 == 0 { assert year == 4 * (25 * (year / 100)); }
    if year % 400 == 0 { assert year == 100 * (4 * (year / 400)); }
  }

  lemma LeapDaysGrow(year: nat)
    requires 1 <= year
    ensures LeapDays(year + 1) == LeapDays(year) + if IsLeap(year) then 1 else 0
  {
    Fourths(year);
    Hundredths(year);
    FourHundredths(year);
    LeapIs(year);
  }

  lemma MonthsFollow(year: nat, month: nat)
    requires 1 <= month <= 12
    ensures MonthStart(year, month) + MonthLength(year, month) ==
      if month < 12 then MonthStart(year, month + 1) else 365 + if IsLeap(year) then 1 else 0
  {
    LeapIs(year);
  }

  lemma NextDateIsOneLater(d: Date)
    requires 1970 <= d.year && 1 <= d.month <= 12 && 1 <= d.day <= MonthLength(d.year, d.month)
    ensures var e := NextDate(d);
      && 1970 <= e.year && 1 <= e.month <= 12 && 1 <= e.day <= MonthLength(e.year, e.month)
      && DaysSince1970(e) == DaysSince1970(d) + 1
  {
    MonthsFollow(d.year, d.month);
    if d.day == MonthLength(d.year, d.month) && d.month == 12 {
      LeapDaysGrow(d.year);
      assert MonthStart(d.year + 1, 1) == 0;
    }
  }

  /** The date of a day is the one that many days after the first of 1970. */
  lemma {:induction false} DateOfIsItsDay(day: nat)
    ensures var d := DateOf(day);
      1970 <= d.year && 1 <= d.day <= MonthLength(d.year, d.month) && DaysSince1970(d) == day
  {
    if day > 0 {
      DateOfIsItsDay(day - 1);
      NextDateIsOneLater(DateOf(day - 1));
    }
  }

  // ----- the texts -------------------------------------------------------------------------

  function Figure(n: nat): char { '0' + (n % 10) as char }

  function TwoFigures(n: nat): string { [Figure(n / 10), Figure(n)] }

  function DayText(d: Date, tail: string): string { TwoFigures(d.day) + tail }

  function MonthText(d: Date, tail: string): string { TwoFigures(d.month) + ("-" + DayText(d, tail)) }

  function YearText(d: Date, tail: string): string { TwoFigures(d.year % 100) + ("-" + MonthText(d, tail)) }

  function DateText(d: Date, tail: string): string { TwoFigures(d.year / 100) + YearText(d, tail) }

  /** Hours, minutes and seconds. */
  function ClockText(seconds: int): string
  {
    var s := seconds % DAY_SECONDS;
    TwoFigures(s / 3600) + ":" + TwoFigures(s / 60 % 60) + ":" + TwoFigures(s % 60)
  }

  lemma ClockParts(t: nat, h: nat, m: nat, s: nat)
    requires h < 24 && m < 60 && s < 60 && t == 3600 * h + 60 * m + s
    ensures t / 3600 == h && t / 60 % 60 == m && t % 60 == s
  {
    assert t / 60 == 60 * h + m;
    assert (60 * h + m) % 60 == m;
  }

  /** The clock shows the hour, the minute and the second of the day. */
  lemma ClockShows(seconds: int, h: nat, m: nat, s: nat)
    requires h < 24 && m < 60 && s < 60 && seconds % DAY_SECONDS == 3600 * h + 60 * m + s
    ensures ClockText(seconds) == TwoFigures(h) + ":" + TwoFigures(m) + ":" + TwoFigures(s)
  {
    ClockParts(seconds % DAY_SECONDS, h, m, s);
  }

  function DatabaseText(seconds: int): string { DateText(DateOf(Day(seconds)), " " + ClockText(seconds)) }

  function ServiceText(seconds: int): string { DateText(DateOf(Day(seconds)), "T" + ClockText(seconds)) }

  predicate TextLess(a: string, b: string) { TextLe(a, b) && a != b }

  // ----- the order of the texts ---------------------------------------------------------------

  lemma {:induction false} CommonPrefix(prefix: string, a: string, b: string)
    ensures TextLess(prefix + a, prefix + b) <==> TextLess(a, b)
  {
    if prefix == [] {
      assert prefix + a == a && prefix + b == b;
    } else {
      CommonPrefix(prefix[1..], a, b);
      assert (prefix + a)[1..] == prefix[1..] + a && (prefix + b)[1..] == prefix[1..] + b;
      assert prefix + a == [prefix[0]] + (prefix[1..] + a) && prefix + b == [prefix[0]] + (prefix[1..] + b);
    }
  }

  lemma FiguresThenDash(n: nat, a: string, b: string)
    ensures TextLess(TwoFigures(n) + ("-" + a), TwoFigures(n) + ("-" + b)) <==> TextLess(a, b)
  {
    CommonPrefix(TwoFigures(n), "-" + a, "-" + b);
    CommonPrefix("-", a, b);
  }

  lemma LesserFigures(m: nat, n: nat, x: string, y: string)
    requires m < n < 100
    ensures TextLess(TwoFigures(m) + x, TwoFigures(n) + y)
  {
    var a, b := TwoFigures(m) + x, TwoFigures(n) + y;
    assert a[0] == Figure(m / 10) && b[0] == Figure(n / 10);
    assert a[1..][0] == Figure(m) && b[1..][0] == Figure(n);
  }

  lemma LesserDayText(a: Date, b: Date, x: string, y: string)
    requires a.day < b.day < 100
    ensures TextLess(DayText(a, x), DayText(b, y))
  {
    LesserFigures(a.day, b.day, x, y);
  }

  lemma LesserMonthText(a: Date, b: Date, x: string, y: string)
    requires a.month < b.month < 100 || (a.month == b.month && a.day < b.day < 100)
    ensures TextLess(MonthText(a, x), MonthText(b, y))
  {
    if a.month < b.month {
      LesserFigures(a.month, b.month, "-" + DayText(a, x), "-" + DayText(b, y));
    } else {
      LesserDayText(a, b, x, y);
      FiguresThenDash(a.month, DayText(a, x), DayText(b, y));
    }
  }

  lemma LesserDateText(a: Date, b: Date, x: string, y: string)
    requires Earlier(a, b) && b.year < 10000 && b.month < 100 && b.day < 100
    ensures TextLess(DateText(a, x), DateText(b, y))
  {
    if a.year / 100 < b.year / 100 {
      LesserFigures(a.year / 100, b.year / 100, YearText(a, x), YearText(b, y));
    } else {
      CommonPrefix(TwoFigures(a.year / 100), YearText(a, x), YearText(b, y));
      if a.year < b.year {
        LesserFigures(a.year % 100, b.year % 100, "-" + MonthText(a, x), "-" + MonthText(b, y));
      } else {
        LesserMonthText(a, b, x, y);
        FiguresThenDash(a.year % 100, MonthText(a, x), MonthText(b, y));
      }
    }
  }

  lemma SameDateText(d: Date, x: string, y: string)
    ensures TextLess(DateText(d, x), DateText(d, y)) <==> TextLess(x, y)
  {
    CommonPrefix(TwoFigures(d.year / 100), YearText(d, x), YearText(d, y));
    FiguresThenDash(d.year % 100, MonthText(d, x), MonthText(d, y));
    FiguresThenDash(d.month, DayText(d, x), DayText(d, y));
    CommonPrefix(TwoFigures(d.day), x, y);
  }

  /** The text of the database is less than that of the service exactly if it shows no later day, whatever the clocks show. */
  lemma TextsCompareDays(a: int, b: int)
    requires DateOf(Day(a)).year < 10000 && DateOf(Day(b)).year < 10000
    ensures TextLess(DatabaseText(a), ServiceText(b)) <==> Day(a) <= Day(b)
  {
    var x, y := " " + ClockText(a), "T" + ClockText(b);
    if Day(a) == Day(b) {
      SameDateText(DateOf(Day(a)), x, y);
      assert x[0] == ' ' && y[0] == 'T';
    } else if Day(a) < Day(b) {
      LaterDaysHaveLaterDates(Day(a), Day(b));
      LesserDateText(DateOf(Day(a)), DateOf(Day(b)), x, y);
    } else {
      LaterDaysHaveLaterDates(Day(b), Day(a));
      LesserDateText(DateOf(Day(b)), DateOf(Day(a)), y, x);
      if TextLess(DatabaseText(a), ServiceText(b)) { TextLeAntisymmetric(DatabaseText(a), ServiceText(b)); }
    }
  }
}
