/**
 * Local calendar dates in the proleptic Gregorian calendar that JavaScript's
 * `Date` uses, and the day before a date, as `setDate(getDate() - 1)` computes it.
 */
module Calendar {

  /** A date as `getFullYear()`, `getMonth()` (counted from 0) and `getDate()` report it. */
  datatype Date = Date(year: int, month: int, day: int)

  predicate IsLeapYear(y: int) {
    y % 4 == 0 && (y % 100 != 0 || y % 400 == 0)
  }

  function DaysInMonth(year: int, month: int): nat
    requires 0 <= month < 12
  {
    if month == 1 then (if IsLeapYear(year) then 29 else 28)
    else if month == 3 || month == 5 || month == 8 || month == 10 then 30
    else 31
  }

  predicate ValidDate(d: Date) {
    0 <= d.month < 12 && 1 <= d.day <= DaysInMonth(d.year, d.month)
  }

  /** Calendar order. */
  predicate Before(a: Date, b: Date) {
    a.year < b.year
    || (a.year == b.year && a.month < b.month)
    || (a.year == b.year && a.month == b.month && a.day < b.day)
  }

  /** The calendar day before d, as `setDate(getDate() - 1)` normalises it. */
  function PreviousDay(d: Date): Date
    requires ValidDate(d)
  {
    if d.day > 1 then Date(d.year, d.month, d.day - 1)
    else if d.month > 0 then Date(d.year, d.month - 1, DaysInMonth(d.year, d.month - 1))
    else Date(d.year - 1, 11, 31)
  }

  /** The calendar day after d. */
  function NextDay(d: Date): Date
    requires ValidDate(d)
  {
    if d.day < DaysInMonth(d.year, d.month) then Date(d.year, d.month, d.day + 1)
    else if d.month < 11 then Date(d.year, d.month + 1, 1)
    else Date(d.year + 1, 0, 1)
  }

  /**
   * PreviousDay gives a valid date earlier than d with no valid date in between:
   * it is d's immediate predecessor in the calendar.
   */
  lemma PreviousDayIsPredecessor(d: Date)
    requires ValidDate(d)
    ensures ValidDate(PreviousDay(d)) && Before(PreviousDay(d), d)
    ensures forall e :: ValidDate(e) && Before(e, d) ==> !Before(PreviousDay(d), e)
  {
  }

  /** Stepping back a day and forward again returns to the same date, and conversely. */
  lemma PreviousNextRoundTrip(d: Date)
    requires ValidDate(d)
    ensures ValidDate(NextDay(d)) && PreviousDay(NextDay(d)) == d
    ensures ValidDate(PreviousDay(d)) && NextDay(PreviousDay(d)) == d
  {
  }
}
