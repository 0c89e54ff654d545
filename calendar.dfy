/** Proleptic Gregorian calendar dates as Python's `datetime` handles them:
    years 1 to 9999, `replace` that raises ValueError on a day that does not
    exist, and stepping one day back or forward with a `timedelta`. */
module Calendar {
  import opened Common

  datatype Date = Date(year: int, month: int, day: int)

  const MinYear := 1
  const MaxYear := 9999

  predicate IsLeapYear(y: int) {
    y % 4 == 0 && (y % 100 != 0 || y % 400 == 0)
  }

  function DaysInMonth(y: int, m: int): (n: int)
    requires 1 <= m <= 12
    ensures 28 <= n <= 31
    ensures n == 29 <==> m == 2 && IsLeapYear(y)
  {
    if m == 2 then (if IsLeapYear(y) then 29 else 28)
    else if m == 4 || m == 6 || m == 9 || m == 11 then 30
    else 31
  }

  predicate ValidDate(d: Date) {
    MinYear <= d.year <= MaxYear && 1 <= d.month <= 12 && 1 <= d.day <= DaysInMonth(d.year, d.month)
  }

  /** Calendar order. */
  predicate Before(a: Date, b: Date) {
    a.year < b.year || (a.year == b.year && (a.month < b.month || (a.month == b.month && a.day < b.day)))
  }

  /** `dt.replace(year=y, month=m, day=d)` on the date part: the new date, or
      None where Python raises ValueError. */
  function Replace(y: int, m: int, d: int): (r: Option<Date>)
    ensures r.Some? <==> ValidDate(Date(y, m, d))
    ensures r.Some? ==> r.value == Date(y, m, d)
  {
    if MinYear <= y <= MaxYear && 1 <= m <= 12 && 1 <= d <= DaysInMonth(y, m) then Some(Date(y, m, d)) else None
  }

  /** `d - timedelta(days=1)`. */
  function PrevDay(d: Date): (r: Date)
    requires ValidDate(d) && d != Date(MinYear, 1, 1)
    ensures ValidDate(r) && Before(r, d)
  {
    if d.day > 1 then Date(d.year, d.month, d.day - 1)
    else if d.month > 1 then Date(d.year, d.month - 1, DaysInMonth(d.year, d.month - 1))
    else Date(d.year - 1, 12, 31)
  }

  /** `d + timedelta(days=1)`. */
  function NextDay(d: Date): (r: Date)
    requires ValidDate(d) && d != Date(MaxYear, 12, 31)
    ensures ValidDate(r) && Before(d, r)
  {
    if d.day < DaysInMonth(d.year, d.month) then Date(d.year, d.month, d.day + 1)
    else if d.month < 12 then Date(d.year, d.month + 1, 1)
    else Date(d.year + 1, 1, 1)
  }

  /** The two steps undo each other. */
  lemma NextDayUndoesPrevDay(d: Date)
    requires ValidDate(d) && d != Date(MinYear, 1, 1)
    ensures PrevDay(d) != Date(MaxYear, 12, 31) && NextDay(PrevDay(d)) == d
  {
  }

  lemma PrevDayUndoesNextDay(d: Date)
    requires ValidDate(d) && d != Date(MaxYear, 12, 31)
    ensures NextDay(d) != Date(MinYear, 1, 1) && PrevDay(NextDay(d)) == d
  {
  }

  /** The day before the first of a month is the last day of the month before. */
  lemma DayBeforeFirst(y: int, m: int)
    requires ValidDate(Date(y, m, 1)) && Date(y, m, 1) != Date(MinYear, 1, 1)
    ensures m > 1 ==> PrevDay(Date(y, m, 1)) == Date(y, m - 1, DaysInMonth(y, m - 1))
    ensures m == 1 ==> PrevDay(Date(y, m, 1)) == Date(y - 1, 12, 31)
  {
  }
}
