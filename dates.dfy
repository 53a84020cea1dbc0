/**
 * Calendar dates as Python's `datetime.date` has them (always a real day of the
 * proleptic Gregorian calendar), their order, and month arithmetic as
 * `dateutil.relativedelta(months=n)` performs it.
 */
module Dates {

  datatype YMD = YMD(year: int, month: int, day: int)

  predicate IsLeapYear(y: int) {
    (y % 4 == 0 && y % 100 != 0) || y % 400 == 0
  }

  function DaysInMonth(y: int, m: int): (n: int)
    requires 1 <= m <= 12
    ensures 28 <= n <= 31
  {
    if m == 2 then (if IsLeapYear(y) then 29 else 28)
    else if m == 4 || m == 6 || m == 9 || m == 11 then 30
    else 31
  }

  predicate IsValid(d: YMD) {
    1 <= d.month <= 12 && 1 <= d.day <= DaysInMonth(d.year, d.month)
  }

  /** A day that exists in the calendar, as every Python date object is. */
  type Date = d: YMD | IsValid(d) witness YMD(1970, 1, 1)

  /** The day JavaScript's `new Date(null)` stands for. */
  const Epoch: Date := YMD(1970, 1, 1)

  /** Chronological order: year, then month, then day. */
  predicate Before(a: Date, b: Date) {
    a.year < b.year
    || (a.year == b.year && a.month < b.month)
    || (a.year == b.year && a.month == b.month && a.day < b.day)
  }

  predicate NotAfter(a: Date, b: Date) {
    Before(a, b) || a == b
  }

  lemma NotAfterTotal(a: Date, b: Date)
    ensures NotAfter(a, b) || NotAfter(b, a)
    ensures NotAfter(a, b) && NotAfter(b, a) ==> a == b
    ensures NotAfter(a, b) <==> !Before(b, a)
  {
  }

  lemma NotAfterTransitive(a: Date, b: Date, c: Date)
    ensures NotAfter(a, b) && NotAfter(b, c) ==> NotAfter(a, c)
    ensures Before(a, b) && NotAfter(b, c) ==> Before(a, c)
  {
  }

  /**
   * A number for each date that grows with it (31 slots per month, 12 months per
   * year), so that dates compare as numbers do, as JavaScript's time values do.
   */
  function Ordinal(d: Date): int {
    d.year * 372 + (d.month - 1) * 31 + (d.day - 1)
  }

  lemma {:induction false} OrdinalOrder(a: Date, b: Date)
    ensures Before(a, b) <==> Ordinal(a) < Ordinal(b)
    ensures a == b <==> Ordinal(a) == Ordinal(b)
  {
    if a.year < b.year {
      assert Ordinal(a) < (a.year + 1) * 372 <= Ordinal(b);
    } else if b.year < a.year {
      assert Ordinal(b) < (b.year + 1) * 372 <= Ordinal(a);
    }
  }

  /** Months elapsed since January of year 0; the month part of a date as one number. */
  function MonthIndex(d: Date): int {
    d.year * 12 + d.month - 1
  }

  /** A date in a later month is a later date, whatever the days are. */
  lemma LaterMonthIsLater(a: Date, b: Date)
    requires MonthIndex(a) < MonthIndex(b)
    ensures Before(a, b)
  {
  }

  function Min(a: int, b: int): int {
    if a <= b then a else b
  }

  /**
   * `d + relativedelta(months=n)`: move n calendar months (carrying into the year
   * in either direction, as Python's floor division does) and clamp the day to the
   * length of the month reached. Dafny's `/` and `%` by the positive 12 agree with
   * Python's `divmod`.
   */
  function AddMonths(d: Date, n: int): (r: Date)
    ensures MonthIndex(r) == MonthIndex(d) + n
    ensures r.day == Min(d.day, DaysInMonth(r.year, r.month))
  {
    var index := MonthIndex(d) + n;
    var y := index / 12;
    var m := index % 12 + 1;
    YMD(y, m, Min(d.day, DaysInMonth(y, m)))
  }

  /** Zero months is the identity. */
  lemma AddMonthsZero(d: Date)
    ensures AddMonths(d, 0) == d
  {
    var r := AddMonths(d, 0);
    assert r.year == d.year && r.month == d.month;
  }

  /** The day of the month survives whenever the month reached is long enough. */
  lemma AddMonthsKeepsDay(d: Date, n: int)
    requires d.day <= 28
    ensures AddMonths(d, n).day == d.day
  {
  }

  /** A positive number of months gives a strictly later date, zero the same date. */
  lemma AddMonthsNotBefore(d: Date, n: int)
    requires n >= 0
    ensures NotAfter(d, AddMonths(d, n))
    ensures n > 0 ==> Before(d, AddMonths(d, n))
  {
    if n == 0 {
      AddMonthsZero(d);
    } else {
      LaterMonthIsLater(d, AddMonths(d, n));
    }
  }

  /** A negative number of months gives a strictly earlier date. */
  lemma AddMonthsNegativeIsEarlier(d: Date, n: int)
    requires n < 0
    ensures Before(AddMonths(d, n), d)
  {
    LaterMonthIsLater(AddMonths(d, n), d);
  }

  /** One month after 31 January of a leap year is 29 February: the day is clamped. */
  lemma ClampsToMonthEnd()
    ensures AddMonths(YMD(2024, 1, 31), 1) == YMD(2024, 2, 29)
    ensures AddMonths(YMD(2023, 1, 31), 1) == YMD(2023, 2, 28)
    ensures AddMonths(YMD(2024, 11, 30), 3) == YMD(2025, 2, 28)
  {
  }
}
