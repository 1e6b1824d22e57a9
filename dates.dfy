/** ISO calendar dates as `java.time.LocalDate` handles them: a
    (year, month, day) triple, ordered lexicographically, with Gregorian
    month lengths. Parsing of the `YYYY-MM-DD` text is not modelled; every
    date here is already parsed. */
module Dates {

  datatype Date = Date(year: int, month: int, day: int)

  /** `IsoChronology.isLeapYear`: divisible by 4, except centuries not
      divisible by 400. */
  predicate IsLeapYear(y: int) {
    y % 4 == 0 && (y % 100 != 0 || y % 400 == 0)
  }

  /** `LocalDate.lengthOfMonth()`. */
  function LengthOfMonth(y: int, m: int): (n: int)
    requires 1 <= m <= 12
    ensures 28 <= n <= 31
    ensures n == 29 <==> m == 2 && IsLeapYear(y)
    ensures n == 28 <==> m == 2 && !IsLeapYear(y)
    ensures n == 30 <==> m in {4, 6, 9, 11}
  {
    if m == 2 then (if IsLeapYear(y) then 29 else 28)
    else if m == 4 || m == 6 || m == 9 || m == 11 then 30
    else 31
  }

  /** A date `LocalDate.of` accepts. */
  predicate ValidDate(d: Date) {
    1 <= d.month <= 12 && 1 <= d.day <= LengthOfMonth(d.year, d.month)
  }

  /** `a.isBefore(b)`. */
  predicate IsBefore(a: Date, b: Date) {
    a.year < b.year
    || (a.year == b.year && a.month < b.month)
    || (a.year == b.year && a.month == b.month && a.day < b.day)
  }

  /** `a.isAfter(b)`. */
  predicate IsAfter(a: Date, b: Date) {
    IsBefore(b, a)
  }

  /** `isBefore` is a strict total order: irreflexive, transitive and, for
      distinct dates, one of the two comes first. */
  lemma BeforeIsStrictTotalOrder(a: Date, b: Date, c: Date)
    ensures !IsBefore(a, a)
    ensures IsBefore(a, b) && IsBefore(b, c) ==> IsBefore(a, c)
    ensures a == b || IsBefore(a, b) || IsBefore(b, a)
    ensures !(IsBefore(a, b) && IsBefore(b, a))
  {
  }

  /** `LocalDate.of(d.getYear(), d.getMonth(), d.lengthOfMonth())`. */
  function LastDayOfMonth(d: Date): (r: Date)
    requires 1 <= d.month <= 12
    ensures ValidDate(r)
    ensures r.year == d.year && r.month == d.month
    ensures ValidDate(d) ==> !IsBefore(r, d)
  {
    Date(d.year, d.month, LengthOfMonth(d.year, d.month))
  }

  /** `LocalDate.of(year, 12, 31)`. */
  function LastDayOfYear(year: int): (r: Date)
    ensures ValidDate(r) && r.year == year
    ensures forall d: Date :: ValidDate(d) && d.year == year ==> !IsBefore(r, d)
  {
    Date(year, 12, 31)
  }
}
