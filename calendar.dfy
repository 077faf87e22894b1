/** Local calendar days and wall-clock instants at one-second resolution, as
    the scheduler reads them from JavaScript `Date` objects. Months are
    numbered 1..12 here (JavaScript numbers them 0..11). */
module Calendar {

  /** A day of the proleptic Gregorian calendar. */
  datatype Date = Date(year: int, month: int, day: int)

  /** A local wall-clock instant: a day and the second of that day. */
  datatype Moment = Moment(date: Date, second: int)

  const SecondsPerDay: int := 86400
  /** 23:59:59, the last second of a day. */
  const LastSecond: int := 86399

  predicate IsLeapYear(y: int)
  {
    (y % 4 == 0 && y % 100 != 0) || y % 400 == 0
  }

  /** The last day of a month: `new Date(year, month, 0).getDate()` with a
      0-based month + 1, i.e. the day before the first of the next month. */
  function DaysInMonth(y: int, m: int): (n: int)
    requires 1 <= m <= 12
    ensures 28 <= n <= 31
    ensures m == 2 ==> (n == 29 <==> IsLeapYear(y))
    ensures m != 2 ==> (n == 30 <==> m in {4, 6, 9, 11})
    ensures m == 2 && !IsLeapYear(y) ==> n == 28
    ensures m !in {2, 4, 6, 9, 11} ==> n == 31
  {
    if m == 2 then (if IsLeapYear(y) then 29 else 28)
    else if m in {4, 6, 9, 11} then 30
    else 31
  }

  predicate ValidDate(d: Date)
  {
    1 <= d.month <= 12 && 1 <= d.day <= DaysInMonth(d.year, d.month)
  }

  predicate ValidMoment(t: Moment)
  {
    ValidDate(t.date) && 0 <= t.second < SecondsPerDay
  }

  /** Chronological order of days. */
  predicate DateLt(a: Date, b: Date)
  {
    a.year < b.year
    || (a.year == b.year && a.month < b.month)
    || (a.year == b.year && a.month == b.month && a.day < b.day)
  }

  predicate DateLe(a: Date, b: Date)
  {
    a == b || DateLt(a, b)
  }

  /** Chronological order of instants, as JavaScript compares two `Date`s. */
  predicate MomentLt(a: Moment, b: Moment)
  {
    DateLt(a.date, b.date) || (a.date == b.date && a.second < b.second)
  }

  predicate MomentLe(a: Moment, b: Moment)
  {
    a == b || MomentLt(a, b)
  }

  /** `new Date(y, m, d, 0, 0, 0)` */
  function StartOfDay(d: Date): Moment
  {
    Moment(d, 0)
  }

  /** `new Date(y, m, d, 23, 59, 59)` */
  function EndOfDay(d: Date): Moment
  {
    Moment(d, LastSecond)
  }

  /** Months elapsed since January of year 0. */
  function MonthIndex(d: Date): int
  {
    d.year * 12 + (d.month - 1)
  }

  /** `cand.setMonth(cand.getMonth() + k)` on a first-of-month date: the month
      overflows into the year, and the day stays 1. */
  function AddMonths(d: Date, k: int): (r: Date)
    ensures 1 <= r.month <= 12 && r.day == 1
    ensures MonthIndex(r) == MonthIndex(d) + k
  {
    var total := MonthIndex(d) + k;
    Date(total / 12, total % 12 + 1, 1)
  }

  /** The year counted from March, so that a leap day ends its year. */
  function MarchYear(d: Date): int
  {
    if d.month <= 2 then d.year - 1 else d.year
  }

  /** Months elapsed since March: March is 0 and February is 11. */
  function MonthFromMarch(m: int): int
  {
    if m > 2 then m - 3 else m + 9
  }

  /** Days from 0000-03-01 to March 1 of the March year `y`: whole eras of
      146097 days, then 365 days a year plus the leap days of the era. */
  function DaysBeforeMarchYear(y: int): int
  {
    var era := y / 400;
    var yoe := y - era * 400;
    era * 146097 + yoe * 365 + yoe / 4 - yoe / 100
  }

  /** Days from March 1 to the first of the `mp`-th month after March. */
  function DaysBeforeMonth(mp: int): int
  {
    (153 * mp + 2) / 5
  }

  /** Days since 1970-01-01 of a (valid) date, by the usual era/day-of-era
      decomposition of the Gregorian calendar; 719468 is the day number of
      1970-01-01 counted from 0000-03-01. */
  function DaysFromCivil(d: Date): int
  {
    DaysBeforeMarchYear(MarchYear(d)) + DaysBeforeMonth(MonthFromMarch(d.month)) + d.day - 1 - 719468
  }

  /** `Date.prototype.getDay()`: 0 = Sunday .. 6 = Saturday. 1970-01-01 was a
      Thursday. */
  function JsDay(d: Date): (w: int)
    ensures 0 <= w < 7
  {
    (DaysFromCivil(d) + 4) % 7
  }

  /** The weekday of day number `n` (days since 1970-01-01), 1 = Monday .. 7 = Sunday. */
  function IsoWeekdayOf(n: int): int
  {
    var js := (n + 4) % 7;
    if js == 0 then 7 else js
  }

  /** The 1 = Monday .. 7 = Sunday numbering the database uses. */
  function IsoWeekday(d: Date): (w: int)
    ensures 1 <= w <= 7
    ensures JsDay(d) == 0 ==> w == 7
    ensures JsDay(d) != 0 ==> w == JsDay(d)
  {
    IsoWeekdayOf(DaysFromCivil(d))
  }

  /** The time-of-day bounds the scheduler compares against collapse to day
      comparisons for any instant inside its day. */
  lemma {:induction false} DayBounds(t: Moment, d: Date)
    requires 0 <= t.second < SecondsPerDay
    ensures MomentLt(t, StartOfDay(d)) <==> DateLt(t.date, d)
    ensures MomentLt(EndOfDay(d), t) <==> DateLt(d, t.date)
    ensures MomentLe(StartOfDay(d), t) && MomentLe(t, EndOfDay(d)) <==> t.date == d
  {
  }

  /** `cand <= hoy` for midnight of a first-of-month compares months only. */
  lemma FirstOfMonthLe(cand: Date, t: Moment)
    requires cand.day == 1 && 1 <= cand.month <= 12
    requires ValidMoment(t)
    ensures MomentLe(StartOfDay(cand), t) <==> MonthIndex(cand) <= MonthIndex(t.date)
  {
  }

  /** Day numbers of a few dates, as `Date.UTC` gives them. */
  lemma DaysFromCivilOct2025()
    ensures DaysFromCivil(Date(2025, 10, 1)) == 20362
  {
  }

  lemma DaysFromCivilLeapDay2024()
    ensures DaysFromCivil(Date(2024, 2, 29)) == 19782
  {
  }

  /** Within a month the day number grows with the day of the month. */
  lemma {:induction false} DaysFromCivilLaterDay(d: Date, n: int)
    ensures DaysFromCivil(Date(d.year, d.month, d.day + n)) == DaysFromCivil(d) + n
  {
  }

  /** A March year has 366 days when the February it ends with has a leap
      day, and 365 otherwise. */
  lemma {:induction false} MarchYearLength(y: int)
    ensures DaysBeforeMarchYear(y + 1) - DaysBeforeMarchYear(y) == if IsLeapYear(y + 1) then 366 else 365
  {
    var era := y / 400;
    var yoe := y - era * 400;
    assert 0 <= yoe < 400;
    if yoe == 399 {
      assert (y + 1) / 400 == era + 1;
      assert (y + 1) % 400 == 0;
    } else {
      assert (y + 1) / 400 == era;
      YoeLeap(y + 1, era, yoe + 1);
    }
  }

  /** Within an era the leap-day count `yoe / 4 - yoe / 100` steps up exactly
      at leap years. */
  lemma {:induction false} YoeLeap(y: int, era: int, yoe: int)
    requires y == era * 400 + yoe && 1 <= yoe < 400
    ensures (yoe / 4 - (yoe - 1) / 4) - (yoe / 100 - (yoe - 1) / 100) == if IsLeapYear(y) then 1 else 0
  {
    StepQuotient(yoe, 4);
    StepQuotient(yoe, 100);
    EraCongruence(era, yoe);
  }

  /** Whole eras of 400 years do not change a year's leap status. */
  lemma EraCongruence(era: int, yoe: int)
    requires 0 <= yoe < 400
    ensures IsLeapYear(era * 400 + yoe) == ((yoe % 4 == 0 && yoe % 100 != 0) || yoe == 0)
  {
    ShiftMod4(era * 100, yoe);
    ShiftMod100(era * 4, yoe);
    ShiftMod400(era, yoe);
  }

  // Adding whole multiples of a modulus leaves the remainder unchanged.
  lemma ShiftMod4(q: int, r: int)
    ensures (q * 4 + r) % 4 == r % 4
  {
    assert q * 4 + r == (q + r / 4) * 4 + r % 4;
  }

  lemma ShiftMod100(q: int, r: int)
    ensures (q * 100 + r) % 100 == r % 100
  {
    assert q * 100 + r == (q + r / 100) * 100 + r % 100;
  }

  lemma ShiftMod400(q: int, r: int)
    ensures (q * 400 + r) % 400 == r % 400
  {
    assert q * 400 + r == (q + r / 400) * 400 + r % 400;
  }

  /** Going from n - 1 to n the quotient by k grows by one exactly at
      multiples of k. */
  lemma StepQuotient(n: int, k: int)
    requires k in {4, 100}
    ensures n / k - (n - 1) / k == if n % k == 0 then 1 else 0
  {
    if k == 4 {
      assert n / 4 - (n - 1) / 4 == if n % 4 == 0 then 1 else 0;
    } else {
      assert n / 100 - (n - 1) / 100 == if n % 100 == 0 then 1 else 0;
    }
  }

  /** The month offsets from March follow the month lengths March .. January. */
  lemma MonthOffsetStep(mp: int)
    requires 0 <= mp < 11
    ensures DaysBeforeMonth(mp + 1) - DaysBeforeMonth(mp) == if mp in {1, 3, 6, 8} then 30 else 31
  {
  }

  /** The first of the next month is `DaysInMonth` days after the first of
      this one: the table of month lengths agrees with the day count. */
  lemma {:induction false} DaysInMonthIsGap(y: int, m: int)
    requires 1 <= m <= 12
    ensures DaysFromCivil(Date(y, m, 1)) + DaysInMonth(y, m) == DaysFromCivil(AddMonths(Date(y, m, 1), 1))
  {
    if m == 12 {
      assert AddMonths(Date(y, m, 1), 1) == Date(y + 1, 1, 1);
      DecemberGap(y);
    } else {
      assert AddMonths(Date(y, m, 1), 1) == Date(y, m + 1, 1);
      if m == 2 {
        FebruaryGap(y);
      } else {
        MonthGap(y, m);
      }
    }
  }

  lemma DecemberGap(y: int)
    ensures DaysFromCivil(Date(y, 12, 1)) + 31 == DaysFromCivil(Date(y + 1, 1, 1))
  {
    MonthOffsetStep(9);
  }

  lemma FebruaryGap(y: int)
    ensures DaysFromCivil(Date(y, 2, 1)) + DaysInMonth(y, 2) == DaysFromCivil(Date(y, 3, 1))
  {
    MarchYearLength(y - 1);
    assert DaysBeforeMonth(11) == 337;
  }

  lemma MonthGap(y: int, m: int)
    requires 1 <= m < 12 && m != 2
    ensures DaysFromCivil(Date(y, m, 1)) + DaysInMonth(y, m) == DaysFromCivil(Date(y, m + 1, 1))
  {
    MonthOffsetStep(MonthFromMarch(m));
  }

  /** The calendar day after `d`. */
  function NextDay(d: Date): Date
    requires 1 <= d.month <= 12
  {
    if d.day < DaysInMonth(d.year, d.month) then Date(d.year, d.month, d.day + 1)
    else AddMonths(Date(d.year, d.month, 1), 1)
  }

  /** The next day is a valid later date whose day number is one more. */
  lemma {:induction false} NextDayIsOneLater(d: Date)
    requires ValidDate(d)
    ensures ValidDate(NextDay(d)) && DateLt(d, NextDay(d))
    ensures DaysFromCivil(NextDay(d)) == DaysFromCivil(d) + 1
  {
    if d.day < DaysInMonth(d.year, d.month) {
      DaysFromCivilLaterDay(d, 1);
    } else {
      var first := Date(d.year, d.month, 1);
      DaysInMonthIsGap(d.year, d.month);
      DaysFromCivilLaterDay(first, d.day - 1);
    }
  }

  /** Weekdays cycle Monday 1 .. Sunday 7 and back to Monday, day after day. */
  lemma {:induction false} IsoWeekdayNextDay(d: Date)
    requires ValidDate(d)
    ensures IsoWeekday(NextDay(d)) == IsoWeekday(d) % 7 + 1
  {
    NextDayIsOneLater(d);
    WeekdayStep(DaysFromCivil(d));
  }

  /** `getDay()` counts 0 .. 6 and wraps from Saturday to Sunday, day after day. */
  lemma {:induction false} JsDayNextDay(d: Date)
    requires ValidDate(d)
    ensures JsDay(NextDay(d)) == (JsDay(d) + 1) % 7
  {
    NextDayIsOneLater(d);
    JsDayStep(DaysFromCivil(d));
  }

  lemma JsDayStep(n: int)
    ensures (n + 1 + 4) % 7 == ((n + 4) % 7 + 1) % 7
  {
  }

  lemma WeekdayStep(n: int)
    ensures IsoWeekdayOf(n + 1) == IsoWeekdayOf(n) % 7 + 1
  {
    assert (n + 5) % 7 == ((n + 4) % 7 + 1) % 7;
  }

  /** 2025-10-01 was a Wednesday, 2025-10-05 a Sunday, 2025-10-06 a Monday and
      2024-02-29 a Thursday. */
  lemma WeekdayExample()
    ensures IsoWeekday(Date(2025, 10, 1)) == 3
    ensures IsoWeekday(Date(2025, 10, 5)) == 7
    ensures IsoWeekday(Date(2025, 10, 6)) == 1
    ensures IsoWeekday(Date(2024, 2, 29)) == 4
  {
    DaysFromCivilOct2025();
    DaysFromCivilLeapDay2024();
    DaysFromCivilLaterDay(Date(2025, 10, 1), 4);
    DaysFromCivilLaterDay(Date(2025, 10, 1), 5);
  }
}
