/** The weekly and monthly budget windows of local time at a fixed UTC offset.
    Instants are microseconds on the proleptic Gregorian time line; the day
    count and the weekday are those of `datetime.toordinal`. */
module Calendar {
  import opened Text

  const DAY_US := 86_400_000_000

  datatype Date = Date(year: int, month: int, day: int) {
    predicate Valid() {
      1 <= year && 1 <= month <= 12 && 1 <= day <= DaysInMonth(year, month)
    }
  }

  /** A local wall-clock reading: a date and the microseconds since its midnight. */
  datatype Moment = Moment(date: Date, micros: int) {
    predicate Valid() {
      date.Valid() && 0 <= micros < DAY_US
    }

    function Instant(): int
      requires Valid()
    {
      Ordinal(date) * DAY_US + micros
    }
  }

  /** The first and the last microsecond of a budget period. */
  datatype Window = Window(start: int, end: int) {
    predicate Contains(t: int) {
      start <= t <= end
    }
  }

  predicate Leap(year: int) {
    year % 4 == 0 && (year % 100 != 0 || year % 400 == 0)
  }

  function DaysInMonth(year: int, month: int): int
    requires 1 <= month <= 12
  {
    if month == 2 then (if Leap(year) then 29 else 28)
    else if month == 4 || month == 6 || month == 9 || month == 11 then 30
    else 31
  }

  function DaysBeforeYear(year: int): int {
    var y := year - 1;
    y * 365 + y / 4 - y / 100 + y / 400
  }

  function DaysBeforeMonth(year: int, month: int): int
    requires 1 <= month <= 12
    decreases month
  {
    if month == 1 then 0 else DaysBeforeMonth(year, month - 1) + DaysInMonth(year, month - 1)
  }

  /** Days since the day before 1 January of year 1. */
  function Ordinal(d: Date): int
    requires 1 <= d.month <= 12
  {
    DaysBeforeYear(d.year) + DaysBeforeMonth(d.year, d.month) + d.day
  }

  /** Monday is 0: 1 January of year 1 was a Monday. */
  function Weekday(ordinal: int): int {
    (ordinal + 6) % 7
  }

  /** The Monday on or before a day. */
  function MondayOf(ordinal: int): int {
    ordinal - Weekday(ordinal)
  }

  /** The first day of the month after that of `d`. */
  function NextMonthFirst(d: Date): (r: Date)
    requires 1 <= d.month <= 12
  {
    if d.month == 12 then Date(d.year + 1, 1, 1) else Date(d.year, d.month + 1, 1)
  }

  /** `_normalize_string(period).lower() or "monthly"`. */
  function NormalPeriod(period: string): string {
    var p := Lower(Strip(period));
    if p == "" then "monthly" else p
  }

  predicate Weekly(period: string) {
    NormalPeriod(period) == "weekly"
  }

  function FirstDay(period: string, d: Date): int
    requires d.Valid()
  {
    if Weekly(period) then MondayOf(Ordinal(d)) else Ordinal(Date(d.year, d.month, 1))
  }

  function LastDay(period: string, d: Date): int
    requires d.Valid()
  {
    if Weekly(period) then MondayOf(Ordinal(d)) + 6 else Ordinal(NextMonthFirst(d)) - 1
  }

  /** The window in force at `now`: Monday to Sunday, or the calendar month. */
  function WindowAt(period: string, now: Moment): Window
    requires now.Valid()
  {
    Window(FirstDay(period, now.date) * DAY_US, LastDay(period, now.date) * DAY_US + DAY_US - 1)
  }

  /** A year has 365 or 366 days, by the leap rule. */
  lemma YearLength(year: int)
    ensures DaysBeforeYear(year + 1) == DaysBeforeYear(year) + DaysBeforeMonth(year, 12) + 31
  {
    var y := year - 1;
    assert DaysBeforeMonth(year, 12) == (if Leap(year) then 335 else 334) by {
      MonthTable(year);
    }
    assert (y + 1) / 4 == y / 4 + (if year % 4 == 0 then 1 else 0);
    assert (y + 1) / 100 == y / 100 + (if year % 100 == 0 then 1 else 0);
    assert (y + 1) / 400 == y / 400 + (if year % 400 == 0 then 1 else 0);
    assert year % 400 == 0 ==> year % 100 == 0;
    assert year % 100 == 0 ==> year % 4 == 0;
  }

  lemma MonthTable(year: int)
    ensures DaysBeforeMonth(year, 12) == if Leap(year) then 335 else 334
  {
    assert DaysBeforeMonth(year, 3) == if Leap(year) then 60 else 59;
    assert DaysBeforeMonth(year, 6) == if Leap(year) then 152 else 151;
    assert DaysBeforeMonth(year, 9) == if Leap(year) then 244 else 243;
  }

  /** The next month starts the day after the last day of this one, in December too. */
  lemma MonthsAbut(d: Date)
    requires 1 <= d.month <= 12
    ensures Ordinal(NextMonthFirst(d)) == Ordinal(Date(d.year, d.month, 1)) + DaysInMonth(d.year, d.month)
  {
    if d.month == 12 { YearLength(d.year); }
  }

  /** Months are numbered along the time line, and so are their first days. */
  function MonthIndex(d: Date): int {
    d.year * 12 + d.month
  }

  lemma {:induction false} LaterMonthsStartLater(a: Date, b: Date)
    requires 1 <= a.month <= 12 && 1 <= b.month <= 12
    requires MonthIndex(a) < MonthIndex(b)
    ensures Ordinal(NextMonthFirst(a)) <= Ordinal(Date(b.year, b.month, 1))
    decreases MonthIndex(b) - MonthIndex(a)
  {
    var next := NextMonthFirst(a);
    if MonthIndex(next) < MonthIndex(b) {
      LaterMonthsStartLater(next, b);
      MonthsAbut(next);
    } else {
      assert next == Date(b.year, b.month, 1);
    }
  }

  /** The day after `d`, and the day `n` days after `d`. */
  function NextDay(d: Date): Date
    requires d.Valid()
  {
    if d.day < DaysInMonth(d.year, d.month) then d.(day := d.day + 1) else NextMonthFirst(d)
  }

  function DaysLater(d: Date, n: nat): (r: Date)
    requires d.Valid()
    ensures r.Valid() && Ordinal(r) == Ordinal(d) + n
  {
    if n == 0 then d
    else
      var p := DaysLater(d, n - 1);
      MonthsAbut(p);
      NextDay(p)
  }

  /** Days and instants: a window holds exactly the instants of its days. */
  lemma WindowHoldsItsDays(period: string, a: Moment, b: Moment)
    requires a.Valid() && b.Valid()
    ensures WindowAt(period, a).Contains(b.Instant())
            <==> FirstDay(period, a.date) <= Ordinal(b.date) <= LastDay(period, a.date)
  {
  }

  lemma OwnDays(period: string, d: Date)
    requires d.Valid()
    ensures FirstDay(period, d) <= Ordinal(d) <= LastDay(period, d)
  {
    MonthsAbut(d);
  }

  lemma DaysPartition(period: string, a: Date, b: Date)
    requires a.Valid() && b.Valid()
    ensures FirstDay(period, a) <= Ordinal(b) <= LastDay(period, a) ==>
              FirstDay(period, a) == FirstDay(period, b) && LastDay(period, a) == LastDay(period, b)
  {
    hide Ordinal, Weekly, MondayOf, DaysInMonth;
    if FirstDay(period, a) <= Ordinal(b) <= LastDay(period, a) {
      if Weekly(period) {
        WeeksPartitionDays(Ordinal(a), Ordinal(b));
      } else {
        MonthsPartitionDays(a, b);
      }
    }
  }

  /** Every instant lies in its own window, and two instants share a window
      exactly when one lies in the window of the other: the windows of a
      period partition time. */
  lemma WindowsPartitionTime(period: string, a: Moment, b: Moment)
    requires a.Valid() && b.Valid()
    ensures WindowAt(period, a).Contains(a.Instant())
    ensures WindowAt(period, a) == WindowAt(period, b) <==> WindowAt(period, a).Contains(b.Instant())
  {
    OwnDays(period, a.date);
    OwnDays(period, b.date);
    WindowHoldsItsDays(period, a, a);
    WindowHoldsItsDays(period, b, b);
    WindowHoldsItsDays(period, a, b);
    DaysPartition(period, a.date, b.date);
  }

  lemma WeeksPartitionDays(x: int, y: int)
    requires MondayOf(x) <= y <= MondayOf(x) + 6
    ensures MondayOf(y) == MondayOf(x)
  {
    var week := (x + 6) / 7;
    assert MondayOf(x) == 7 * week - 6;
    assert (y + 6) / 7 == week;
  }

  lemma MondaysAreWeekly(x: int)
    ensures MondayOf(MondayOf(x) + 7) == MondayOf(x) + 7
  {
    assert MondayOf(x) == 7 * ((x + 6) / 7) - 6;
  }

  lemma DayOfMonth(d: Date)
    requires d.Valid()
    ensures Ordinal(d) == Ordinal(Date(d.year, d.month, 1)) + d.day - 1
    ensures 1 <= d.month <= 12 && 1 <= d.day <= DaysInMonth(d.year, d.month)
  {
  }

  lemma MonthsPartitionDays(a: Date, b: Date)
    requires a.Valid() && b.Valid()
    ensures Ordinal(Date(a.year, a.month, 1)) <= Ordinal(b) < Ordinal(NextMonthFirst(a)) ==>
              a.year == b.year && a.month == b.month
  {
    hide Ordinal, DaysInMonth;
    MonthsAbut(b);
    DayOfMonth(b);
    if MonthIndex(a) < MonthIndex(b) {
      LaterMonthsStartLater(a, b);
    } else if MonthIndex(b) < MonthIndex(a) {
      LaterMonthsStartLater(b, a);
    }
  }

  /** The instant one microsecond after the end of a window exists and opens
      the next window: no gap, no overlap. */
  lemma NextWindowStartsAfterEnd(period: string, now: Moment) returns (next: Moment)
    requires now.Valid()
    ensures next.Valid()
    ensures next.Instant() == WindowAt(period, now).end + 1
    ensures WindowAt(period, next).start == WindowAt(period, now).end + 1
  {
    var today := Ordinal(now.date);
    if Weekly(period) {
      next := Moment(DaysLater(now.date, 7 - Weekday(today)), 0);
      MondaysAreWeekly(today);
    } else {
      next := Moment(NextMonthFirst(now.date), 0);
    }
  }
}
