/** Calendar days as (year, month, day) triples, and the few date-fns
    operations the event screens use: `isSameDay`, `startOfMonth`,
    `endOfMonth`, `addMonths` and `subMonths`. Times of day and time zones
    are not modelled. */
module Dates {

  datatype Date = Date(year: int, month: int, day: int)

  /** The Gregorian leap-year rule. */
  predicate IsLeapYear(y: int)
  {
    (y % 4 == 0 && y % 100 != 0) || y % 400 == 0
  }

  function DaysInMonth(y: int, m: int): (r: int)
    requires 1 <= m <= 12
    ensures 28 <= r <= 31
    ensures m == 2 ==> (r == 29 <==> IsLeapYear(y))
    ensures m != 2 ==> (r == 30 <==> m in {4, 6, 9, 11})
  {
    if m == 2 then (if IsLeapYear(y) then 29 else 28)
    else if m == 4 || m == 6 || m == 9 || m == 11 then 30
    else 31
  }

  /** A day that exists in the calendar (every JavaScript `Date` is one). */
  predicate Valid(d: Date)
  {
    1 <= d.month <= 12 && 1 <= d.day <= DaysInMonth(d.year, d.month)
  }

  /** `isSameDay(a, b)`. */
  predicate SameDay(a: Date, b: Date)
  {
    a.year == b.year && a.month == b.month && a.day == b.day
  }

  /** Chronological order of days, `a <= b`. */
  predicate NotAfter(a: Date, b: Date)
  {
    a.year < b.year ||
    (a.year == b.year && (a.month < b.month || (a.month == b.month && a.day <= b.day)))
  }

  function StartOfMonth(d: Date): (r: Date)
    requires Valid(d)
    ensures Valid(r) && r.year == d.year && r.month == d.month && NotAfter(r, d)
  {
    Date(d.year, d.month, 1)
  }

  function EndOfMonth(d: Date): (r: Date)
    requires Valid(d)
    ensures Valid(r) && r.year == d.year && r.month == d.month && NotAfter(d, r)
  {
    Date(d.year, d.month, DaysInMonth(d.year, d.month))
  }

  /** The month a day falls in, counted from January of year 0. */
  function MonthNumber(d: Date): int
  {
    d.year * 12 + (d.month - 1)
  }

  /** `addMonths(d, n)` (and `subMonths(d, n)` as `addMonths(d, -n)`): the
      same day `n` months later, moved back to the last day of the target
      month when that month is shorter. */
  function AddMonths(d: Date, n: int): (r: Date)
    requires Valid(d)
    ensures Valid(r)
    ensures MonthNumber(r) == MonthNumber(d) + n
    ensures r.day == if d.day <= DaysInMonth(r.year, r.month) then d.day else DaysInMonth(r.year, r.month)
  {
    var target := MonthNumber(d) + n;
    var y := target / 12;
    var m := target % 12 + 1;
    var last := DaysInMonth(y, m);
    Date(y, m, if d.day <= last then d.day else last)
  }

  /** A day lies between the start and the end of a month exactly when it
      has that month's year and month. */
  lemma InMonthRange(d: Date, month: Date)
    requires Valid(d) && Valid(month)
    ensures (NotAfter(StartOfMonth(month), d) && NotAfter(d, EndOfMonth(month)))
            <==> (d.year == month.year && d.month == month.month)
  {
  }

  /** Going forward one month and back one month returns to the month one
      started from. */
  lemma NextThenPrevious(d: Date)
    requires Valid(d)
    ensures MonthNumber(AddMonths(AddMonths(d, 1), -1)) == MonthNumber(d)
  {
  }
}
