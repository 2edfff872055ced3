/** Calendar instants as the renderer compares them.

    A JavaScript `Date` is compared with `>` by its time value. Here an instant
    is a local calendar date (month counted from 1) plus the milliseconds since
    local midnight, ordered lexicographically, which is the chronological order
    of well-formed values. */
module Dates {

  datatype DateTime = DateTime(year: int, month: int, day: int, millis: int)

  const MillisPerDay: int := 86_400_000

  predicate IsLeapYear(year: int) {
    year % 4 == 0 && (year % 100 != 0 || year % 400 == 0)
  }

  function DaysInMonth(year: int, month: int): int {
    if month == 2 then (if IsLeapYear(year) then 29 else 28)
    else if month == 4 || month == 6 || month == 9 || month == 11 then 30
    else 31
  }

  /** A value that names a real local instant: the month, the day and the time
      of day are in range. Only such values stand for a JavaScript `Date`. */
  predicate WellFormed(d: DateTime) {
    && 1 <= d.month <= 12
    && 1 <= d.day <= DaysInMonth(d.year, d.month)
    && 0 <= d.millis < MillisPerDay
  }

  /** `a` is strictly later than `b`: JavaScript's `a > b` on two dates. The
      fields are compared from the most significant (the year) down. */
  predicate Later(a: DateTime, b: DateTime): (r: bool)
    ensures r ==> a != b
    ensures a.year > b.year ==> r
    ensures a.year < b.year ==> !r
    ensures a.year == b.year && a.month > b.month ==> r
    ensures a.year == b.year && a.month < b.month ==> !r
  {
    || a.year > b.year
    || (a.year == b.year && a.month > b.month)
    || (a.year == b.year && a.month == b.month && a.day > b.day)
    || (a.year == b.year && a.month == b.month && a.day == b.day && a.millis > b.millis)
  }

  /** Exactly one of "later", "same instant", "earlier" holds. */
  lemma LaterTrichotomy(a: DateTime, b: DateTime)
    ensures Later(a, b) || a == b || Later(b, a)
    ensures !(Later(a, b) && a == b)
    ensures !(Later(a, b) && Later(b, a))
  {
  }

  lemma LaterTransitive(a: DateTime, b: DateTime, c: DateTime)
    requires Later(a, b) && Later(b, c)
    ensures Later(a, c)
  {
  }
}
