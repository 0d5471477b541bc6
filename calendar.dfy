/**
 * Calendar dates, the month arithmetic of the timesheet and payroll views
 * (`_get_year_month`) and the list of days of a month that lie after today
 * (`get_future_days`).
 */
module Calendar {

  /** A Gregorian date as Python's `datetime.date` holds it. */
  datatype Date = Date(year: int, month: int, day: int)

  predicate IsLeapYear(year: int) {
    year % 4 == 0 && (year % 100 != 0 || year % 400 == 0)
  }

  /** Number of days of a month, as `calendar.monthrange` reports it. */
  function DaysInMonth(year: int, month: int): (n: int)
    requires 1 <= month <= 12
    ensures 28 <= n <= 31
    ensures n == 29 <==> month == 2 && IsLeapYear(year)
  {
    if month == 2 then (if IsLeapYear(year) then 29 else 28)
    else if month == 4 || month == 6 || month == 9 || month == 11 then 30
    else 31
  }

  /** The dates `datetime.date(year, month, day)` accepts (it raises ValueError otherwise). */
  predicate ValidDate(d: Date) {
    1 <= d.year <= 9999 && 1 <= d.month <= 12 && 1 <= d.day <= DaysInMonth(d.year, d.month)
  }

  /** Strict chronological order of dates. */
  predicate Before(a: Date, b: Date) {
    a.year < b.year
    || (a.year == b.year && (a.month < b.month || (a.month == b.month && a.day < b.day)))
  }

  predicate AtOrBefore(a: Date, b: Date) {
    Before(a, b) || a == b
  }

  /** Python's `max(a, b)` on dates. */
  function MaxDate(a: Date, b: Date): (r: Date)
    ensures r == a || r == b
    ensures AtOrBefore(a, r) && AtOrBefore(b, r)
  {
    if Before(a, b) then b else a
  }

  predicate InMonth(d: Date, year: int, month: int) {
    d.year == year && d.month == month
  }

  /** Position of a month on a single line of months, January of year 0 being 0. */
  function MonthIndex(year: int, month: int): int {
    year * 12 + (month - 1)
  }

  /**
   * One query parameter that `int(...)` is applied to: absent (the default is
   * used), given as an integer, or given as text that `int` rejects.
   */
  datatype QueryInt = Absent | Given(n: int) | Malformed

  /**
   * `_get_year_month`: the year and month a grid or payroll page shows. A
   * missing parameter defaults to the current one, a month below 1 becomes
   * December of the previous year, a month above 12 January of the next year,
   * and unparsable input falls back to the current year and month.
   */
  function YearMonthFromQuery(year: QueryInt, month: QueryInt, now: Date): (r: (int, int))
    requires 1 <= now.month <= 12
    ensures 1 <= r.1 <= 12
  {
    if year.Malformed? || month.Malformed? then (now.year, now.month)
    else
      var y := if year.Given? then year.n else now.year;
      var m := if month.Given? then month.n else now.month;
      if m < 1 then (y - 1, 12)
      else if m > 12 then (y + 1, 1)
      else (y, m)
  }

  /**
   * The month chosen is the one asked for when it exists, otherwise the month
   * just before January or just after December of the year asked for; bad
   * input gives the current month.
   */
  lemma YearMonthMeaning(year: QueryInt, month: QueryInt, now: Date)
    requires 1 <= now.month <= 12
    ensures var r := YearMonthFromQuery(year, month, now);
      && (year.Malformed? || month.Malformed? ==> r == (now.year, now.month))
      && (!year.Malformed? && month.Given? ==>
            var y := if year.Given? then year.n else now.year;
            && (1 <= month.n <= 12 ==> r == (y, month.n))
            && (month.n < 1 ==> MonthIndex(r.0, r.1) == MonthIndex(y, 1) - 1)
            && (month.n > 12 ==> MonthIndex(r.0, r.1) == MonthIndex(y, 12) + 1))
  {
  }

  /** The days `from`, `from`+1, ..., last day of the month that fall strictly after `today`. */
  function FutureDaysFrom(year: int, month: int, today: Date, from: int): (days: seq<int>)
    requires 1 <= month <= 12 && 1 <= from
    ensures forall d :: d in days <==>
      from <= d <= DaysInMonth(year, month) && Before(today, Date(year, month, d))
    ensures forall i, j :: 0 <= i < j < |days| ==> days[i] < days[j]
    decreases DaysInMonth(year, month) + 1 - from
  {
    if from > DaysInMonth(year, month) then []
    else
      var rest := FutureDaysFrom(year, month, today, from + 1);
      if Before(today, Date(year, month, from)) then [from] + rest else rest
  }

  /**
   * `get_future_days`: exactly the days of the month that lie after today,
   * in increasing order; once a day is in the future so are all later ones.
   */
  function FutureDays(year: int, month: int, today: Date): (days: seq<int>)
    requires 1 <= month <= 12
    ensures forall d :: d in days <==>
      1 <= d <= DaysInMonth(year, month) && Before(today, Date(year, month, d))
    ensures forall i, j :: 0 <= i < j < |days| ==> days[i] < days[j]
    ensures forall d, e :: d in days && d <= e <= DaysInMonth(year, month) ==> e in days
  {
    FutureDaysFrom(year, month, today, 1)
  }
}
