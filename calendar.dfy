/**
 * Proleptic Gregorian dates and naive timestamps, as Python's `datetime` has them.
 * A timestamp is a whole number of microseconds since 0001-01-01 00:00:00
 * (the resolution of `datetime`), so timestamp arithmetic is exact.
 */
module Calendar {
  import opened Wrappers

  const MicrosPerSecond: int := 1_000_000
  const MicrosPerHour: int := 3_600_000_000
  const MicrosPerDay: int := 86_400_000_000

  datatype Date = Date(year: int, month: int, day: int)

  predicate IsLeap(y: int) {
    y % 4 == 0 && (y % 100 != 0 || y % 400 == 0)
  }

  function DaysInMonth(y: int, m: int): int
    requires 1 <= m <= 12
  {
    if m == 2 then (if IsLeap(y) then 29 else 28)
    else if m == 4 || m == 6 || m == 9 || m == 11 then 30
    else 31
  }

  /** What `datetime(year, month, day)` accepts (MINYEAR = 1, MAXYEAR = 9999). */
  predicate ValidDate(d: Date) {
    1 <= d.year <= 9999 && 1 <= d.month <= 12 && 1 <= d.day <= DaysInMonth(d.year, d.month)
  }

  /** Days in the months before `m` of a common year. */
  function DaysBeforeMonthCommon(m: int): int
    requires 1 <= m <= 12
  {
    [0, 31, 59, 90, 120, 151, 181, 212, 243, 273, 304, 334][m - 1]
  }

  /** `date.toordinal()`: 0001-01-01 is day 1. */
  function Ordinal(d: Date): int
    requires ValidDate(d)
  {
    var y := d.year - 1;
    var dby := y * 365 + y / 4 - y / 100 + y / 400;
    var dbm := DaysBeforeMonthCommon(d.month) + (if d.month > 2 && IsLeap(d.year) then 1 else 0);
    dby + dbm + d.day
  }

  /** The timestamp of midnight starting the given day. */
  function Midnight(d: Date): int
    requires ValidDate(d)
  {
    (Ordinal(d) - 1) * MicrosPerDay
  }

  /** The `.days` field of a timedelta: floor division by one day. */
  function WholeDays(us: int): int {
    us / MicrosPerDay
  }

  /** Truncation to the hour (`dt.replace(minute=0, second=0, microsecond=0)`). */
  function HourOf(ts: int): int {
    ts - ts % MicrosPerHour
  }

  /** The next day of the same month has the next ordinal. */
  lemma OrdinalNextDay(d: Date)
    requires ValidDate(d) && d.day < DaysInMonth(d.year, d.month)
    ensures Ordinal(Date(d.year, d.month, d.day + 1)) == Ordinal(d) + 1
  {
  }

  /** The first of the next month follows the last day of this one. */
  lemma OrdinalNextMonth(y: int, m: int)
    requires 1 <= y <= 9999 && 1 <= m < 12
    ensures Ordinal(Date(y, m + 1, 1)) == Ordinal(Date(y, m, DaysInMonth(y, m))) + 1
  {
  }

  /** New Year's Day follows 31 December: a year has 365 days, 366 in a leap year. */
  lemma OrdinalNextYear(y: int)
    requires 1 <= y < 9999
    ensures Ordinal(Date(y + 1, 1, 1)) == Ordinal(Date(y, 12, 31)) + 1
  {
    assert y / 4 - (y - 1) / 4 == if y % 4 == 0 then 1 else 0;
    assert y / 100 - (y - 1) / 100 == if y % 100 == 0 then 1 else 0;
    assert y / 400 - (y - 1) / 400 == if y % 400 == 0 then 1 else 0;
  }

  /** Midnight falls on a whole day, and no day before 0001-01-01 is reachable. */
  lemma MidnightAligned(d: Date)
    requires ValidDate(d)
    ensures Midnight(d) >= 0 && Midnight(d) % MicrosPerDay == 0
  {
  }

  /** `.days` is the floor of the quotient, also for negative spans. */
  lemma WholeDaysFloor(us: int)
    ensures WholeDays(us) * MicrosPerDay <= us < WholeDays(us) * MicrosPerDay + MicrosPerDay
  {
  }

  /** `"%b"` month abbreviations in the C locale, upper-cased: "JAN" is 1, ..., "DEC" is 12. */
  function MonthFromAbbrev(s: string): (m: Option<int>)
    ensures m.Some? ==> 1 <= m.value <= 12
  {
    if s == "JAN" then Some(1) else if s == "FEB" then Some(2)
    else if s == "MAR" then Some(3) else if s == "APR" then Some(4)
    else if s == "MAY" then Some(5) else if s == "JUN" then Some(6)
    else if s == "JUL" then Some(7) else if s == "AUG" then Some(8)
    else if s == "SEP" then Some(9) else if s == "OCT" then Some(10)
    else if s == "NOV" then Some(11) else if s == "DEC" then Some(12)
    else None
  }
}
