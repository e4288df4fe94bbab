/**
  Civil time in a zone of fixed offset, to the minute: the part of Go's time
  package that the cron search (internal/cron/cron.go) relies on. Years, months
  and days follow the proleptic Gregorian calendar.
 */
module Calendar {

  /** A calendar minute. Months and days count from 1. */
  datatype Time = Time(y: int, mo: int, d: int, h: int, mi: int) {

    predicate Valid() {
      && 1 <= mo <= 12 && 1 <= d <= DaysIn(y, mo)
      && 0 <= h < 24 && 0 <= mi < 60
    }

    /** Earlier in calendar order. */
    predicate Before(u: Time) {
      if y != u.y then y < u.y
      else if mo != u.mo then mo < u.mo
      else if d != u.d then d < u.d
      else if h != u.h then h < u.h
      else mi < u.mi
    }

    predicate NotAfter(u: Time) {
      this == u || Before(u)
    }

    /** 0 is Sunday. */
    function Weekday(): (w: int)
      ensures 0 <= w < 7
    {
      DayNum(y, mo, d) % 7
    }
  }

  predicate IsLeap(y: int) {
    y % 4 == 0 && (y % 100 != 0 || y % 400 == 0)
  }

  function DaysIn(y: int, mo: int): int {
    if mo == 2 then (if IsLeap(y) then 29 else 28)
    else if mo == 4 || mo == 6 || mo == 9 || mo == 11 then 30
    else 31
  }

  /** The days from 1 January of year 1 to the end of year `y`. */
  function DaysThrough(y: int): int {
    365 * y + y / 4 - y / 100 + y / 400
  }

  /** The days of year `y` before month `mo`. */
  function DaysBefore(y: int, mo: int): int
    requires 1 <= mo <= 13
    decreases mo
  {
    if mo == 1 then 0 else DaysBefore(y, mo - 1) + DaysIn(y, mo - 1)
  }

  /** Days since the one before 1 January of year 1, which was a Sunday. */
  function DayNum(y: int, mo: int, d: int): int {
    if 1 <= mo <= 12 then DaysThrough(y - 1) + DaysBefore(y, mo) + d else 0
  }

  /** Minutes since an epoch. */
  function Minutes(t: Time): int {
    DayNum(t.y, t.mo, t.d) * 1440 + t.h * 60 + t.mi
  }

  // -------------------------------------------------------------- normalised sums

  /** The first minute of the following month. */
  function NextMonth(t: Time): Time {
    if t.mo == 12 then Time(t.y + 1, 1, 1, 0, 0) else Time(t.y, t.mo + 1, 1, 0, 0)
  }

  function NextDay(t: Time): Time {
    if t.d == DaysIn(t.y, t.mo) then NextMonth(t) else Time(t.y, t.mo, t.d + 1, 0, 0)
  }

  function NextHour(t: Time): Time {
    if t.h == 23 then NextDay(t) else t.(h := t.h + 1, mi := 0)
  }

  function NextMinute(t: Time): Time {
    if t.mi == 59 then NextHour(t) else t.(mi := t.mi + 1)
  }

  /** `AddDate(n, 0, 0)`: 29 February becomes 1 March in a common year. */
  function AddYears(t: Time, n: int): Time {
    if t.d > DaysIn(t.y + n, t.mo) then Time(t.y + n, t.mo + 1, 1, t.h, t.mi) else t.(y := t.y + n)
  }

  lemma AddYearsValid(t: Time, n: int)
    requires t.Valid()
    ensures AddYears(t, n).Valid() && AddYears(t, n).y == t.y + n
    ensures AddYears(t, n).mo == t.mo || AddYears(t, n).mo == t.mo + 1 == 3
  {
  }

  lemma StepsValid(t: Time)
    requires t.Valid()
    ensures NextMonth(t).Valid() && NextDay(t).Valid() && NextHour(t).Valid() && NextMinute(t).Valid()
    ensures t.Before(NextMonth(t)) && t.Before(NextDay(t)) && t.Before(NextHour(t)) && t.Before(NextMinute(t))
  {
  }

  // ------------------------------------------------- minutes count calendar minutes

  lemma Multiples(y: int)
    ensures y % 400 == 0 ==> y % 100 == 0
    ensures y % 100 == 0 ==> y % 4 == 0
  {
  }

  lemma Quarters(y: int)
    ensures y / 4 == (y - 1) / 4 + (if y % 4 == 0 then 1 else 0)
  {
  }

  lemma Centuries(y: int)
    ensures y / 100 == (y - 1) / 100 + (if y % 100 == 0 then 1 else 0)
    ensures y / 400 == (y - 1) / 400 + (if y % 400 == 0 then 1 else 0)
  {
  }

  lemma YearLength(y: int)
    ensures DaysThrough(y) == DaysThrough(y - 1) + (if IsLeap(y) then 366 else 365)
  {
    Multiples(y);
    Quarters(y);
    Centuries(y);
  }

  lemma {:induction false} DaysThroughGrows(a: int, b: int)
    requires a <= b
    ensures DaysThrough(a) <= DaysThrough(b)
    decreases b - a
  {
    hide DaysThrough;
    if a < b {
      DaysThroughGrows(a, b - 1);
      YearLength(b);
    }
  }

  lemma MonthStarts(y: int)
    ensures DaysBefore(y, 1) == 0 && DaysBefore(y, 2) == 31 && DaysBefore(y, 3) == 31 + DaysIn(y, 2)
    ensures DaysBefore(y, 4) == 62 + DaysIn(y, 2) && DaysBefore(y, 5) == 92 + DaysIn(y, 2)
    ensures DaysBefore(y, 6) == 123 + DaysIn(y, 2) && DaysBefore(y, 7) == 153 + DaysIn(y, 2)
    ensures DaysBefore(y, 8) == 184 + DaysIn(y, 2) && DaysBefore(y, 9) == 215 + DaysIn(y, 2)
    ensures DaysBefore(y, 10) == 245 + DaysIn(y, 2) && DaysBefore(y, 11) == 276 + DaysIn(y, 2)
    ensures DaysBefore(y, 12) == 306 + DaysIn(y, 2) && DaysBefore(y, 13) == 337 + DaysIn(y, 2)
  {
    assert DaysBefore(y, 4) == 62 + DaysIn(y, 2);
    assert DaysBefore(y, 7) == 153 + DaysIn(y, 2);
    assert DaysBefore(y, 10) == 245 + DaysIn(y, 2);
  }

  lemma {:induction false} DaysBeforeGrows(y: int, a: int, b: int)
    requires 1 <= a <= b <= 13
    ensures DaysBefore(y, a) <= DaysBefore(y, b)
    ensures a < b ==> DaysBefore(y, a) + DaysIn(y, a) <= DaysBefore(y, b)
    decreases b
  {
    if a < b {
      DaysBeforeGrows(y, a, b - 1);
    }
  }

  lemma DayNumStep(t: Time)
    requires t.Valid()
    ensures DayNum(NextDay(t).y, NextDay(t).mo, NextDay(t).d) == DayNum(t.y, t.mo, t.d) + 1
  {
    hide DaysThrough;
    if t.d == DaysIn(t.y, t.mo) && t.mo == 12 {
      MonthStarts(t.y);
      YearLength(t.y);
      assert DaysBefore(t.y + 1, 1) == 0;
    }
  }

  /** Consecutive calendar minutes are one minute apart. */
  lemma MinutesStep(t: Time)
    requires t.Valid()
    ensures Minutes(NextMinute(t)) == Minutes(t) + 1
  {
    hide DayNum;
    DayNumStep(t);
  }

  lemma DayNumOrder(t: Time, u: Time)
    requires t.Valid() && u.Valid()
    requires t.y < u.y || (t.y == u.y && (t.mo < u.mo || (t.mo == u.mo && t.d < u.d)))
    ensures DayNum(t.y, t.mo, t.d) < DayNum(u.y, u.mo, u.d)
  {
    hide DaysThrough;
    if t.y == u.y {
      if t.mo < u.mo {
        DaysBeforeGrows(t.y, t.mo, u.mo);
      }
    } else {
      DaysBeforeGrows(t.y, t.mo, 13);
      DaysBeforeGrows(u.y, 1, u.mo);
      MonthStarts(t.y);
      YearLength(t.y);
      DaysThroughGrows(t.y, u.y - 1);
      assert DaysBefore(t.y, t.mo) + DaysIn(t.y, t.mo) <= DaysBefore(t.y, 13);
    }
  }

  lemma MinutesGrow(t: Time, u: Time)
    requires t.Valid() && u.Valid() && t.Before(u)
    ensures Minutes(t) < Minutes(u)
  {
    hide DayNum;
    if !(t.y == u.y && t.mo == u.mo && t.d == u.d) {
      DayNumOrder(t, u);
    }
  }

  /** Calendar order is the order of the minute count. */
  lemma MinutesOrder(t: Time, u: Time)
    requires t.Valid() && u.Valid()
    ensures t.Before(u) <==> Minutes(t) < Minutes(u)
    ensures t == u <==> Minutes(t) == Minutes(u)
  {
    hide Minutes;
    if t.Before(u) {
      MinutesGrow(t, u);
    } else if t != u {
      MinutesGrow(u, t);
    }
  }

  /** No calendar minute lies between one and its successor. */
  lemma NothingBetween(t: Time, u: Time)
    requires t.Valid() && u.Valid() && t.Before(u)
    ensures NextMinute(t).NotAfter(u)
  {
    hide Minutes;
    StepsValid(t);
    MinutesStep(t);
    MinutesOrder(t, u);
    MinutesOrder(NextMinute(t), u);
    MinutesOrder(u, NextMinute(t));
  }

  // ---------------------------------------------------------------------- weekdays

  /** The first of January 2000 was a Saturday, of 1970 a Thursday, and 29 February 2024 a Thursday too. */
  lemma KnownWeekdays(h: int, mi: int)
    ensures Time(2000, 1, 1, h, mi).Weekday() == 6
    ensures Time(1970, 1, 1, h, mi).Weekday() == 4
    ensures Time(2024, 2, 29, h, mi).Weekday() == 4
  {
    MonthStarts(2024);
  }

  /** From one day to the next the weekday goes on by one; with one known day this fixes it. */
  lemma WeekdayStep(t: Time)
    requires t.Valid()
    ensures NextDay(t).Weekday() == (t.Weekday() + 1) % 7
  {
    hide DayNum;
    DayNumStep(t);
  }

  // ---------------------------------------------------------- what years contain

  /** Eight years in a row contain a leap year, a skipped century included. */
  lemma LeapWithinEight(y: int) returns (l: int)
    ensures y < l <= y + 8 && IsLeap(l)
  {
    l := y + 4 - y % 4;
    if l % 100 == 0 {
      l := l + 4;
    }
  }

  /** The first seven days of a month fall on all seven weekdays. */
  lemma WeekdayInFirstWeek(y: int, mo: int, w: int) returns (d: int)
    requires 1 <= mo <= 12 && 0 <= w < 7
    ensures 1 <= d <= 7 && Time(y, mo, d, 0, 0).Weekday() == w
  {
    hide DaysThrough, DaysBefore;
    var first := DayNum(y, mo, 1);
    d := 1 + (w - first) % 7;
    ModShift(w, (w - first) / 7);
    assert DayNum(y, mo, d) == w - 7 * ((w - first) / 7);
  }

  lemma ModShift(w: int, q: int)
    requires 0 <= w < 7
    ensures (w - 7 * q) % 7 == w
  {
  }
}
