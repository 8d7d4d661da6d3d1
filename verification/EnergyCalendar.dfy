/** The calendar behind the energy totals. */
module EnergyCalendar {
  // The periods of cloud/devices/2RES2VE300UA2.ts are those of the Gregorian calendar in Seoul, nine hours ahead of UTC.

  import opened Common
  import opened EnergyMeter

  // ---------------------------------------------------------------- dates by counting days

  /** Leap years before the year, counted from the year 1 on. */
  function LeapsBefore(year: nat): int
    requires year >= 1
  {
    (year - 1) / 4 - (year - 1) / 100 + (year - 1) / 400
  }

  /** Days of a common year before the month. */
  function DaysBefore(month: nat): nat
    requires 1 <= month <= 12
  {
    [0, 31, 59, 90, 120, 151, 181, 212, 243, 273, 304, 334][month - 1]
  }

  predicate LongYear(year: nat) { year % 400 == 0 || (year % 4 == 0 && year % 100 != 0) }

  /** Days since the first of January 1970. */
  function DayCount(d: Date): int
    requires d.year >= 1 && 1 <= d.month <= 12
  {
    365 * (d.year - 1970) + LeapsBefore(d.year) - LeapsBefore(1970)
    + DaysBefore(d.month) + (if d.month > 2 && LongYear(d.year) then 1 else 0) + d.day - 1
  }

  /** A date that there is. */
  predicate Exists(d: Date) {
    && 1 <= d.month <= 12 && 1 <= d.day
    && d.day <= if d.month == 2 then (if LongYear(d.year) then 29 else 28) else if d.month in {4, 6, 9, 11} then 30 else 31
  }

  lemma OneMoreLeap(year: nat)
    requires year >= 1
    ensures LeapsBefore(year + 1) == LeapsBefore(year) + if LongYear(year) then 1 else 0
  {
    Quotient(year, 4);
    Quotient(year, 100);
    Quotient(year, 400);
    Divides(year, 4, 25);
    Divides(year, 100, 4);
  }

  lemma Divides(x: nat, n: nat, k: nat)
    requires n > 0 && k > 0
    ensures x % (n * k) == 0 ==> x % n == 0
  {
    var q := x / (n * k);
    assert x == n * k * q + x % (n * k);
    assert n * k * q == n * (k * q);
    UniqueQuotient(n * (k * q), n, k * q, 0);
  }

  lemma Quotient(year: nat, n: nat)
    requires year >= 1 && n > 0
    ensures year / n == (year - 1) / n + if year % n == 0 then 1 else 0
  {
    var q, r := year / n, year % n;
    assert year == n * q + r;
    if r == 0 {
      assert year - 1 == n * (q - 1) + (n - 1);
      UniqueQuotient(year - 1, n, q - 1, n - 1);
    } else {
      UniqueQuotient(year - 1, n, q, r - 1);
    }
  }

  lemma UniqueQuotient(x: int, n: nat, q: int, r: int)
    requires n > 0 && x == n * q + r && 0 <= r < n
    ensures x / n == q
  {
    var k := x / n - q;
    assert x == n * (x / n) + x % n;
    assert n * k == n * (x / n) - n * q;
    assert k >= 1 ==> n * k >= n;
    assert k <= -1 ==> n * k + n <= 0;
  }

  lemma NextMonth(year: nat, month: nat)
    requires year >= 1 && 1 <= month <= 12
    ensures var first, next := Date(year, month, 1), if month == 12 then Date(year + 1, 1, 1) else Date(year, month + 1, 1);
            DayCount(next) == DayCount(first) + DaysIn(year, month)
  {
    if month == 12 {
      OneMoreLeap(year);
    }
    SameLeap(year);
  }

  lemma SameLeap(year: nat)
    ensures Leap(year) <==> LongYear(year)
  {
    Divides(year, 4, 100);
  }

  /** Counting on by whole months finds the date that is so many days later. */
  lemma {:induction false} CalendarCounts(days: nat, year: nat, month: nat)
    requires year >= 1 && 1 <= month <= 12
    ensures var d := Calendar(days, year, month);
            d.year >= 1 && Exists(d) && DayCount(d) == DayCount(Date(year, month, 1)) + days
    decreases days
  {
    if days >= DaysIn(year, month) {
      NextMonth(year, month);
      if month == 12 {
        CalendarCounts(days - DaysIn(year, month), year + 1, 1);
      } else {
        CalendarCounts(days - DaysIn(year, month), year, month + 1);
      }
    }
  }

  // ---------------------------------------------------------------- the periods of a time

  /** The date of a time in milliseconds is the one as many days after the first of January 1970 as have passed in Seoul. */
  lemma DateIs(t: nat)
    ensures var d := LocalDate(t);
            d.year >= 1 && Exists(d) && DayCount(d) == (t + 32_400_000) / 86_400_000
  {
    CalendarCounts(Hours(t) / 24, 1970, 1);
    DaysPassed(t);
  }

  lemma DaysPassed(t: nat)
    ensures (t / 3_600_000 + 9) / 24 == (t + 32_400_000) / 86_400_000
  {
    var h, r := t / 3_600_000, t % 3_600_000;
    var d, k := (h + 9) / 24, (h + 9) % 24;
    assert t == 3_600_000 * h + r && h + 9 == 24 * d + k;
    UniqueQuotient(t + 32_400_000, 86_400_000, d, 3_600_000 * k + r);
  }

  lemma HourIs(t: nat)
    ensures var h := LocalHour(t); h.date == LocalDate(t) && h.hour == ((t + 32_400_000) / 3_600_000) % 24
    ensures var m := LocalMonth(t); m.year == LocalDate(t).year && m.month == LocalDate(t).month
  {
    UniqueQuotient(t + 32_400_000, 3_600_000, t / 3_600_000 + 9, t % 3_600_000);
  }

  /** No other date is that many days after it: two times have one date exactly when they have the day in common. */
  lemma SameDateIff(a: nat, b: nat)
    ensures LocalDate(a) == LocalDate(b) <==> (a + 32_400_000) / 86_400_000 == (b + 32_400_000) / 86_400_000
  {
    DaysPassed(a);
    DaysPassed(b);
    if a <= b {
      DatesGrow(a, b);
    } else {
      DatesGrow(b, a);
    }
  }

  /** Reports count once a quarter of an hour. */
  lemma SlotsAreQuarters(a: nat, b: nat)
    ensures SlotOf(a) == SlotOf(b) <==> a / 3_600_000 == b / 3_600_000 && (a % 3_600_000) / 900_000 == (b % 3_600_000) / 900_000
  {
    Quarter(a);
    Quarter(b);
  }

  lemma Quarter(t: nat)
    ensures t / 900_000 == 4 * (t / 3_600_000) + (t % 3_600_000) / 900_000 && (t % 3_600_000) / 900_000 < 4
  {
    var h, r := t / 3_600_000, t % 3_600_000;
    var q, s := r / 900_000, r % 900_000;
    assert t == 3_600_000 * h + r && r == 900_000 * q + s;
    UniqueQuotient(t, 900_000, 4 * h + q, s);
  }
}
