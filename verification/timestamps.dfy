/** Naive Python `datetime` values and the order Python compares them by.
    Time zones are not part of this model: every timestamp lives in one
    ordered domain. */
module Timestamps {

  /** The seven fields of a `datetime`, most significant first. */
  datatype DateTime = DateTime(year: int, month: int, day: int,
                               hour: int, minute: int, second: int, micro: int)

  predicate IsLeapYear(y: int) {
    y % 4 == 0 && (y % 100 != 0 || y % 400 == 0)
  }

  function DaysInMonth(y: int, m: int): (d: int)
    requires 1 <= m <= 12
    ensures 28 <= d <= 31
    ensures d == 29 <==> m == 2 && IsLeapYear(y)
  {
    if m == 2 then (if IsLeapYear(y) then 29 else 28)
    else if m == 4 || m == 6 || m == 9 || m == 11 then 30
    else 31
  }

  /** The ranges `datetime` accepts: MINYEAR 1, MAXYEAR 9999, real calendar days. */
  predicate Valid(d: DateTime) {
    && 1 <= d.year <= 9999
    && 1 <= d.month <= 12
    && 1 <= d.day <= DaysInMonth(d.year, d.month)
    && 0 <= d.hour < 24
    && 0 <= d.minute < 60
    && 0 <= d.second < 60
    && 0 <= d.micro < 1000000
  }

  /** A value Python can hold in a `datetime` object. */
  type Timestamp = d: DateTime | Valid(d) witness DateTime(1, 1, 1, 0, 0, 0, 0)

  /** `a < b` on datetimes: comparison of the field tuples, left to right. */
  predicate Before(a: DateTime, b: DateTime) {
    if a.year != b.year then a.year < b.year
    else if a.month != b.month then a.month < b.month
    else if a.day != b.day then a.day < b.day
    else if a.hour != b.hour then a.hour < b.hour
    else if a.minute != b.minute then a.minute < b.minute
    else if a.second != b.second then a.second < b.second
    else a.micro < b.micro
  }

  /** `a <= b` on datetimes. */
  predicate NotAfter(a: DateTime, b: DateTime) {
    !Before(b, a)
  }

  /** `b` is an upper bound of `a1` and `a2` and is one of them. */
  predicate IsLatestOf(b: DateTime, a1: DateTime, a2: DateTime) {
    NotAfter(a1, b) && NotAfter(a2, b) && (b == a1 || b == a2)
  }

  /** Python's `max(a, b)`: keeps `a` unless `b > a`. */
  function Later(a: Timestamp, b: Timestamp): (r: Timestamp)
    ensures IsLatestOf(r, a, b)
    ensures r == b <==> Before(a, b) || a == b
  {
    if Before(a, b) then b else a
  }

  lemma BeforeTransitive(a: DateTime, b: DateTime, c: DateTime)
    requires Before(a, b) && Before(b, c)
    ensures Before(a, c)
  {
  }

  /** Any two datetimes are equal or ordered one way: the order is total. */
  lemma BeforeTotal(a: DateTime, b: DateTime)
    ensures a == b || Before(a, b) || Before(b, a)
  {
  }

  /** Whatever is before one argument of `max` is before the result. */
  lemma BeforeLater(x: Timestamp, a: Timestamp, b: Timestamp)
    requires Before(x, a)
    ensures Before(x, Later(a, b))
  {
  }

  lemma NotAfterTransitive(a: DateTime, b: DateTime, c: DateTime)
    requires NotAfter(a, b) && NotAfter(b, c)
    ensures NotAfter(a, c)
  {
  }
}
