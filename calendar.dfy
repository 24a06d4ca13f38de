/** Calendar dates as the DCA schedule uses them: a JavaScript `Date` read as a
    (year, month, day) in one fixed time zone, with `setDate(getDate() + 7)` and
    `setMonth(getMonth() + 1)` and their overflow into the following month. */
module Calendar {

  datatype Date = Date(year: int, month: int, day: int)

  predicate IsLeapYear(y: int) {
    (y % 4 == 0 && y % 100 != 0) || y % 400 == 0
  }

  function DaysInMonth(y: int, m: int): (n: int)
    requires 1 <= m <= 12
    ensures 28 <= n <= 31
  {
    if m == 2 then (if IsLeapYear(y) then 29 else 28)
    else if m == 4 || m == 6 || m == 9 || m == 11 then 30
    else 31
  }

  predicate IsValid(d: Date) {
    1 <= d.month <= 12 && 1 <= d.day <= DaysInMonth(d.year, d.month)
  }

  /** A real day of the proleptic Gregorian calendar, which JavaScript uses. */
  type CalendarDate = d: Date | IsValid(d) witness Date(1970, 1, 1)

  /** What a date field of a form holds: nothing, text `new Date` cannot read, or a day. */
  datatype DateText = Blank | Unparseable | Iso(date: CalendarDate)

  /** Chronological order of two days (`a < b` on `Date` objects). */
  predicate Before(a: Date, b: Date) {
    a.year < b.year
    || (a.year == b.year && a.month < b.month)
    || (a.year == b.year && a.month == b.month && a.day < b.day)
  }

  lemma BeforeTransitive(a: Date, b: Date, c: Date)
    requires Before(a, b) && Before(b, c)
    ensures Before(a, c)
  {
  }

  /** The first of the month after (y, m). */
  function MonthAfter(y: int, m: int): (r: (int, int))
    requires 1 <= m <= 12
    ensures 1 <= r.1 <= 12
  {
    if m == 12 then (y + 1, 1) else (y, m + 1)
  }

  /** Day `day` of month (y, m), where a day past the end of the month rolls into the next
      month, as JavaScript's `Date` setters do. One roll is enough for every use below. */
  function Roll(y: int, m: int, day: int): (r: Date)
    requires 1 <= m <= 12 && 1 <= day <= DaysInMonth(y, m) + 28
    ensures IsValid(r)
  {
    if day <= DaysInMonth(y, m) then Date(y, m, day)
    else
      var (y', m') := MonthAfter(y, m);
      Date(y', m', day - DaysInMonth(y, m))
  }

  /** `d.setDate(d.getDate() + 7)`: the same weekday one week later. */
  function AddWeek(d: CalendarDate): (r: CalendarDate)
    ensures Before(d, r)
  {
    Roll(d.year, d.month, d.day + 7)
  }

  /** `d.setMonth(d.getMonth() + 1)`: the same day of the next month; a day that month does
      not have (31 January) rolls over into the month after it (2 or 3 March). */
  function AddMonth(d: CalendarDate): (r: CalendarDate)
    ensures Before(d, r)
  {
    var (y', m') := MonthAfter(d.year, d.month);
    Roll(y', m', d.day)
  }
}
