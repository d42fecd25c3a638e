/**
 * Proleptic Gregorian calendar dates as Python's `datetime.date` holds them
 * (years 1 to 9999), with the one-day step used by the export schedule and the
 * comparisons used by supplier validity windows.
 */
module Calendar {
  import opened Wrappers

  datatype Date = Date(year: nat, month: nat, day: nat)

  const MIN_DATE := Date(1, 1, 1)
  const MAX_DATE := Date(9999, 12, 31)

  predicate IsLeapYear(y: nat)
  {
    y % 4 == 0 && (y % 100 != 0 || y % 400 == 0)
  }

  function DaysInMonth(y: nat, m: nat): nat
  {
    if m == 2 then (if IsLeapYear(y) then 29 else 28)
    else if m == 4 || m == 6 || m == 9 || m == 11 then 30
    else 31
  }

  /** A date `datetime.date` can represent. */
  predicate Valid(d: Date)
  {
    1 <= d.year <= 9999 && 1 <= d.month <= 12 && 1 <= d.day <= DaysInMonth(d.year, d.month)
  }

  /** `a <= b` on dates: chronological order. */
  predicate OnOrBefore(a: Date, b: Date)
  {
    a.year < b.year
    || (a.year == b.year && a.month < b.month)
    || (a.year == b.year && a.month == b.month && a.day <= b.day)
  }

  /** The following day; defined for every valid date except the last one. */
  function NextDay(d: Date): Date
  {
    if d.day < DaysInMonth(d.year, d.month) then Date(d.year, d.month, d.day + 1)
    else if d.month < 12 then Date(d.year, d.month + 1, 1)
    else Date(d.year + 1, 1, 1)
  }

  /**
   * `d - timedelta(days=1)`; `None` is the `OverflowError` raised for the
   * first representable date.
   */
  function PrevDay(d: Date): (r: Option<Date>)
    requires Valid(d)
    ensures r.None? <==> d == MIN_DATE
    ensures r.Some? ==> Valid(r.value) && OnOrBefore(r.value, d) && r.value != d
    ensures r.Some? ==> NextDay(r.value) == d
  {
    if d.day > 1 then Some(Date(d.year, d.month, d.day - 1))
    else if d.month > 1 then Some(Date(d.year, d.month - 1, DaysInMonth(d.year, d.month - 1)))
    else if d.year > 1 then Some(Date(d.year - 1, 12, 31))
    else None
  }
}
