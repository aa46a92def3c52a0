/** Seconds since the epoch to a calendar date: src/time/util.cpp against the formula of section 4.16 of the
    IEEE Std 1003.1-2017 Base Definitions. */
module Calendar {
  import Int32

  const SecondsPerDay: nat := 86400

  /** `struct tm`: `mon` counts from 0, `year` from 1900. */
  datatype Tm = Tm(sec: int, min: int, hour: int, mday: int, mon: int, year: int, wday: int, yday: int)

  // ---------------------------------------------------------------- the calendar

  /** Every fourth year, but of the centuries only every fourth. */
  predicate Leap(year: int) {
    year % 4 == 0 && (year % 100 == 0 ==> year % 400 == 0)
  }

  function YearLength(year: int): nat {
    if Leap(year) then 366 else 365
  }

  /** `MONTH_TABLE`, with the month counting from 0. */
  function MonthLength(year: int, month: nat): (days: nat)
    requires month < 12
    ensures 28 <= days <= 31
  {
    if month == 1 then (if Leap(year) then 29 else 28)
    else if month == 3 || month == 5 || month == 8 || month == 10 then 30 else 31
  }

  /** The rows of `MONTH_TABLE`, and the days before each month that they add up to. */
  const CommonYear: seq<nat> := [31, 28, 31, 30, 31, 30, 31, 31, 30, 31, 30, 31]
  const LeapYear: seq<nat> := [31, 29, 31, 30, 31, 30, 31, 31, 30, 31, 30, 31]
  const CommonBefore: seq<nat> := [0, 31, 59, 90, 120, 151, 181, 212, 243, 273, 304, 334, 365]
  const LeapBefore: seq<nat> := [0, 31, 60, 91, 121, 152, 182, 213, 244, 274, 305, 335, 366]

  function TableEntry(year: int, month: nat): nat
    requires month < 12
  {
    if Leap(year) then LeapYear[month] else CommonYear[month]
  }

  function TableBefore(year: int, month: nat): nat
    requires month <= 12
  {
    if Leap(year) then LeapBefore[month] else CommonBefore[month]
  }

  /** Month lengths are the entries of the table. */
  lemma MonthLengthTable(year: int, month: nat)
    requires month < 12
    ensures MonthLength(year, month) == TableEntry(year, month)
  {
  }

  /** And the days before a month are their sums. */
  lemma {:induction false} MonthsBeforeTable(year: int, month: nat)
    requires month <= 12
    ensures MonthsBefore(year, 0, month) == TableBefore(year, month)
    decreases month
  {
    if month > 0 {
      MonthsBeforeTable(year, month - 1);
    }
  }

  lemma {:induction false} MonthsSplit(year: int, first: nat, month: nat)
    requires first <= month <= 12
    ensures MonthsBefore(year, 0, first) + MonthsBefore(year, first, month) == MonthsBefore(year, 0, month)
    decreases month
  {
    if month > first {
      MonthsSplit(year, first, month - 1);
    }
  }

  lemma MonthsRange(year: int, first: nat, month: nat)
    requires first <= month <= 12
    ensures MonthsBefore(year, first, month) == TableBefore(year, month) - TableBefore(year, first)
  {
    MonthsSplit(year, first, month);
    MonthsBeforeTable(year, first);
    MonthsBeforeTable(year, month);
  }

  /** Days of the years from `first` up to, not including, `year`. */
  function YearsBefore(first: int, year: int): nat
    decreases year - first
  {
    if year <= first then 0 else YearsBefore(first, year - 1) + YearLength(year - 1)
  }

  /** Days of the months from `first` up to, not including, `month`. */
  function MonthsBefore(year: int, first: nat, month: nat): nat
    requires month <= 12
    decreases month
  {
    if month <= first then 0 else MonthsBefore(year, first, month - 1) + MonthLength(year, month - 1)
  }

  /** The months make up the year. */
  lemma MonthsMakeYear(year: int)
    ensures MonthsBefore(year, 0, 12) == YearLength(year)
  {
    assert MonthsBefore(year, 0, 2) == MonthsBefore(year, 0, 1) + MonthLength(year, 1);
    assert MonthsBefore(year, 0, 4) == MonthsBefore(year, 0, 3) + MonthLength(year, 3);
    assert MonthsBefore(year, 0, 6) == MonthsBefore(year, 0, 5) + MonthLength(year, 5);
    assert MonthsBefore(year, 0, 8) == MonthsBefore(year, 0, 7) + MonthLength(year, 7);
    assert MonthsBefore(year, 0, 10) == MonthsBefore(year, 0, 9) + MonthLength(year, 9);
  }

  lemma DivStep(a: nat, d: nat)
    requires d > 0
    ensures (a + 1) / d == a / d + (if (a + 1) % d == 0 then 1 else 0)
  {
    var q, r := a / d, a % d;
    if r + 1 == d {
      DivIs(a + 1, d, q + 1, 0);
    } else {
      DivIs(a + 1, d, q, r + 1);
    }
  }

  lemma MulMono(a: nat, b: nat, d: nat)
    requires a <= b
    ensures a * d <= b * d
  {
  }

  lemma DivIs(n: nat, d: nat, q: nat, r: nat)
    requires 0 < d && n == q * d + r && r < d
    ensures n / d == q && n % d == r
  {
    var e := n / d;
    assert e * d <= n < e * d + d;
    if e < q {
      MulMono(e + 1, q, d);
      assert false;
    } else if e > q {
      MulMono(q + 1, e, d);
      assert false;
    }
  }

  lemma SameRemainder(a: nat, k: nat, d: nat)
    requires d > 0
    ensures (a + k * d) % d == 0 <==> a % d == 0
  {
    DivIs(a + k * d, d, a / d + k, a % d);
  }

  /** The leap days counted before the next year: one more after a leap year. */
  lemma LeapDays(year: int)
    requires year >= 1970
    ensures (year - 1968) / 4 - (year - 1900) / 100 + (year - 1600) / 400
            == (year - 1969) / 4 - (year - 1901) / 100 + (year - 1601) / 400 + (if Leap(year) then 1 else 0)
  {
    DivStep(year - 1969, 4);
    DivStep(year - 1901, 100);
    DivStep(year - 1601, 400);
    SameRemainder(year - 1968, 492, 4);
    SameRemainder(year - 1900, 19, 100);
    SameRemainder(year - 1600, 4, 400);
    Centuries(year);
  }

  /** A year of the 400-year cycle is a century, and a century is a fourth year. */
  lemma Centuries(year: nat)
    ensures (year % 400 == 0 ==> year % 100 == 0) && (year % 100 == 0 ==> year % 4 == 0)
  {
    if year % 400 == 0 {
      DivIs(year, 100, year / 400 * 4, 0);
    }
    if year % 100 == 0 {
      DivIs(year, 4, year / 100 * 25, 0);
    }
  }

  /** Days before a year since 1970 in closed form, as the standard counts leap days. */
  lemma {:induction false} YearsClosed(year: int)
    requires year >= 1970
    ensures YearsBefore(1970, year) == (year - 1970) * 365 + (year - 1969) / 4 - (year - 1901) / 100 + (year - 1601) / 400
    decreases year
  {
    if year > 1970 {
      YearsClosed(year - 1);
      LeapDays(year - 1);
    }
  }

  // ---------------------------------------------------------------- day counts

  /** `is_leap_year`. */
  method IsLeapYear(year: int) returns (leap: bool)
    ensures leap == Leap(year)
  {
    if year % 4 == 0 {
      if year % 100 == 0 {
        if year % 400 == 0 {
          return true;
        }
        return false;
      }
      return true;
    }
    return false;
  }

  /** `number_of_days_between(year_start, year_end)`, both years included. */
  method DaysBetweenYears(first: int, last: int) returns (total: nat)
    ensures total == YearsBefore(first, last + 1)
  {
    if last < first {
      return 0;
    }
    var year := first;
    total := 0;
    while year <= last
      invariant first <= year <= last + 1 && total == YearsBefore(first, year)
    {
      var leap := IsLeapYear(year);
      total := total + if leap then 366 else 365;
      year := year + 1;
    }
  }

  /** `number_of_days_between(year, mon_start, mon_end)`, months from 1 and both included. */
  method DaysBetweenMonths(year: int, first: int, last: int) returns (total: nat)
    requires first <= last ==> 1 <= first && last <= 12
    ensures last < first ==> total == 0
    ensures first <= last ==> total == TableBefore(year, last) - TableBefore(year, first - 1)
  {
    if last < first {
      return 0;
    }
    var month := first;
    total := 0;
    while month <= last
      invariant first <= month <= last + 1 && total == MonthsBefore(year, first - 1, month - 1)
    {
      total := total + MonthLength(year, month - 1);
      month := month + 1;
    }
    MonthsRange(year, first - 1, last);
  }

  // ---------------------------------------------------------------- dates

  /** The date of a day: its place in its year and month. */
  ghost predicate OnDay(tm: Tm, day: int) {
    && tm.year >= 70 && 0 <= tm.mon < 12 && 1 <= tm.mday <= MonthLength(tm.year + 1900, tm.mon)
    && 0 <= tm.yday < YearLength(tm.year + 1900)
    && YearsBefore(1970, tm.year + 1900) + tm.yday == day
    && MonthsBefore(tm.year + 1900, 0, tm.mon) + tm.mday - 1 == tm.yday
  }

  /** The day of the month is within the table's entry, and the day of the year follows from the table. */
  ghost predicate ByTable(tm: Tm) {
    && 0 <= tm.mon < 12 && 1 <= tm.mday <= TableEntry(tm.year + 1900, tm.mon)
    && tm.yday == TableBefore(tm.year + 1900, tm.mon) + tm.mday - 1
  }

  lemma OnDayByTable(tm: Tm, day: int)
    requires OnDay(tm, day)
    ensures ByTable(tm)
  {
    MonthLengthTable(tm.year + 1900, tm.mon);
    MonthsBeforeTable(tm.year + 1900, tm.mon);
  }

  ghost predicate AtTime(tm: Tm, t: nat) {
    && 0 <= tm.sec < 60 && 0 <= tm.min < 60 && 0 <= tm.hour < 24
    && tm.hour * 3600 + tm.min * 60 + tm.sec == t % SecondsPerDay
  }

  /** `tm` is the date and time of `t`. */
  ghost predicate DateOf(tm: Tm, t: nat) {
    OnDay(tm, t / SecondsPerDay) && AtTime(tm, t) && tm.wday == (t / SecondsPerDay + 4) % 7
  }

  /** The standard's expression for seconds since the epoch. */
  function PosixSeconds(tm: Tm): int {
    tm.sec + tm.min * 60 + tm.hour * 3600 + tm.yday * 86400 + (tm.year - 70) * 31536000
    + (tm.year - 69) / 4 * 86400 - (tm.year - 1) / 100 * 86400 + (tm.year + 299) / 400 * 86400
  }

  lemma PosixOfDay(tm: Tm, day: int, t: nat)
    requires AtTime(tm, t) && tm.year >= 70 && YearsBefore(1970, tm.year + 1900) + tm.yday == day
    ensures PosixSeconds(tm) == day * 86400 + t % SecondsPerDay
  {
    YearsClosed(tm.year + 1900);
  }

  lemma TimeOfDay(t: nat)
    ensures t % 86400 / 3600 * 3600 + t % 3600 / 60 * 60 + t % 60 == t % 86400 && t % 86400 / 3600 < 24 && t % 3600 / 60 < 60
  {
    var d := t % 86400;
    var h := d % 3600;
    DivIs(t, 3600, t / 86400 * 24 + d / 3600, h);
    DivIs(t, 60, t / 3600 * 60 + h / 60, h % 60);
  }

  /** `convert_to(time_t, tm)`. The day count is cut to 32 bits: the result is the date of `t`, and satisfies the
      standard's formula, exactly when the count fits. */
  method ConvertTo(t: nat) returns (tm: Tm)
    ensures t / SecondsPerDay < Int32.Limit ==> DateOf(tm, t)
    ensures PosixSeconds(tm) == t <==> t / SecondsPerDay < Int32.Limit
    ensures 0 <= tm.mon <= 11
    ensures t / SecondsPerDay < Int32.Limit ==> ByTable(tm)
    ensures Int32.Cast(t / SecondsPerDay) < 0 ==> tm.year == 70 && tm.yday == Int32.Cast(t / SecondsPerDay) && tm.mon == 0 && tm.mday == tm.yday + 1
  {
    TimeOfDay(t);
    var day := Int32.Cast(t / 86400);
    var year, yday := SplitYears(day);
    var mon, mday := SplitMonths(year, yday);
    tm := Tm(t % 60, t % 3600 / 60, t % 86400 / 3600, mday, mon, year - 1900, (t / 86400 + 4) % 7, yday);
    PosixOfDay(tm, day, t);
    if t / SecondsPerDay < Int32.Limit {
      OnDayByTable(tm, day);
    }
  }

  /** The first loop: whole years come off while they last. */
  method SplitYears(day: int) returns (year: int, yday: int)
    ensures year >= 1970 && YearsBefore(1970, year) + yday == day && yday < YearLength(year)
    ensures if day >= 0 then yday >= 0 else year == 1970
  {
    year, yday := 1970, day;
    while true
      invariant year >= 1970 && YearsBefore(1970, year) + yday == day
      invariant if day >= 0 then yday >= 0 else year == 1970
      decreases yday
    {
      var leap := IsLeapYear(year);
      var length := if leap then 366 else 365;
      if yday < length {
        break;
      }
      year := year + 1;
      yday := yday - length;
    }
  }

  /** The second loop: whole months come off; it ends within the table. */
  method SplitMonths(year: int, yday: int) returns (mon: nat, mday: int)
    requires yday < YearLength(year)
    ensures mon < 12 && MonthsBefore(year, 0, mon) + mday - 1 == yday && mday <= MonthLength(year, mon)
    ensures if yday >= 0 then mday >= 1 else mon == 0
  {
    MonthsMakeYear(year);
    mon := 0;
    var rest := yday;
    while true
      invariant mon < 12 && MonthsBefore(year, 0, mon) + rest == yday
      invariant if yday >= 0 then rest >= 0 else mon == 0
      decreases 12 - mon
    {
      if rest < MonthLength(year, mon) {
        break;
      }
      rest := rest - MonthLength(year, mon);
      mon := mon + 1;
    }
    mday := rest + 1;
  }

  // ---------------------------------------------------------------- injective and order-preserving

  /** Earlier by year, month, day, hour, minute and second. */
  predicate Earlier(a: Tm, b: Tm) {
    || a.year < b.year
    || (a.year == b.year && (
        || a.mon < b.mon
        || (a.mon == b.mon && (
            || a.mday < b.mday
            || (a.mday == b.mday && a.hour * 3600 + a.min * 60 + a.sec < b.hour * 3600 + b.min * 60 + b.sec)))))
  }

  lemma {:induction false} YearsMonotone(a: int, b: int)
    requires 1970 <= a < b
    ensures YearsBefore(1970, a) + YearLength(a) <= YearsBefore(1970, b)
    decreases b - a
  {
    if a + 1 < b {
      YearsMonotone(a, b - 1);
    }
  }

  lemma {:induction false} MonthsMonotone(year: int, a: nat, b: nat)
    requires a < b < 12
    ensures MonthsBefore(year, 0, a) + MonthLength(year, a) <= MonthsBefore(year, 0, b)
    decreases b - a
  {
    if a + 1 < b {
      MonthsMonotone(year, a, b - 1);
    }
  }

  lemma OrderedDays(a: Tm, x: int, b: Tm, y: int)
    requires OnDay(a, x) && OnDay(b, y) && x < y
    ensures a.year < b.year || (a.year == b.year && (a.mon < b.mon || (a.mon == b.mon && a.mday < b.mday)))
  {
    if b.year < a.year {
      YearsMonotone(b.year + 1900, a.year + 1900);
    } else if a.year == b.year && b.mon < a.mon {
      MonthsMonotone(a.year + 1900, b.mon, a.mon);
    }
  }

  /** The conversion preserves order. */
  lemma OrderPreserved(a: Tm, t: nat, b: Tm, u: nat)
    ensures DateOf(a, t) && DateOf(b, u) && t < u ==> Earlier(a, b)
  {
    var x, y := t / SecondsPerDay, u / SecondsPerDay;
    if DateOf(a, t) && DateOf(b, u) && t < u {
      if x < y {
        OrderedDays(a, x, b, y);
      } else {
        assert x == y;
        SameDay(a, b, x);
      }
    }
  }

  lemma SameDay(a: Tm, b: Tm, day: int)
    requires OnDay(a, day) && OnDay(b, day)
    ensures a.year == b.year && a.mon == b.mon && a.mday == b.mday && a.yday == b.yday
  {
    if a.year < b.year {
      YearsMonotone(a.year + 1900, b.year + 1900);
    } else if b.year < a.year {
      YearsMonotone(b.year + 1900, a.year + 1900);
    } else if a.mon < b.mon {
      MonthsMonotone(a.year + 1900, a.mon, b.mon);
    } else if b.mon < a.mon {
      MonthsMonotone(a.year + 1900, b.mon, a.mon);
    }
  }

  /** A time has one date, and a date one time. */
  lemma OneDate(a: Tm, t: nat, b: Tm, u: nat)
    requires DateOf(a, t) && DateOf(b, u)
    ensures a == b <==> t == u
  {
    if t == u {
      SameDay(a, b, t / SecondsPerDay);
      SameClock(a, b);
    } else if t < u {
      OrderPreserved(a, t, b, u);
    } else {
      OrderPreserved(b, u, a, t);
    }
  }

  lemma SameClock(a: Tm, b: Tm)
    requires a.hour * 3600 + a.min * 60 + a.sec == b.hour * 3600 + b.min * 60 + b.sec
    requires 0 <= a.sec < 60 && 0 <= a.min < 60 && 0 <= b.sec < 60 && 0 <= b.min < 60
    ensures a.hour == b.hour && a.min == b.min && a.sec == b.sec
  {
  }

  /** The two `number_of_days_between` forms add up to the day of a converted time. */
  method DaysAddUp(t: nat) returns (days: nat)
    requires t / SecondsPerDay < Int32.Limit
    ensures days == t / SecondsPerDay
  {
    var tm := ConvertTo(t);
    assert OnDay(tm, t / SecondsPerDay);
    assert tm.mon == 0 ==> MonthsBefore(tm.year + 1900, 0, tm.mon) == 0;
    MonthsBeforeTable(tm.year + 1900, tm.mon);
    var years := DaysBetweenYears(1970, tm.year + 1900 - 1);
    var months := DaysBetweenMonths(tm.year + 1900, 1, tm.mon);
    days := years + months + tm.mday - 1;
  }

  /** The first second whose day count does not fit is shown as a date before the epoch. */
  method FirstWrong() returns (tm: Tm)
    ensures tm.year == 70 && tm.yday == -0x8000_0000 && PosixSeconds(tm) != 0x8000_0000 * 86400
  {
    assert 0x8000_0000 * 86400 / SecondsPerDay == 0x8000_0000;
    assert Int32.Cast(0x8000_0000) == -0x8000_0000;
    tm := ConvertTo(0x8000_0000 * 86400);
  }
}
