/** The month calendar: the number of days in the shown month, the weekday it
    starts on, the grid of cells (leading blanks, then the day numbers) and the
    events listed in each numbered cell. Dates follow the proleptic Gregorian
    calendar, as JavaScript's `Date` does. */
module CalendarView {
  import opened Js
  import opened Query

  predicate IsLeap(y: int) {
    y % 4 == 0 && (y % 100 != 0 || y % 400 == 0)
  }

  /** The year `new Date(y, m, d)` means: two-digit years 0..99 are taken as
      1900..1999. */
  function JsYear(y: int): int {
    if 0 <= y <= 99 then 1900 + y else y
  }

  /** The length of the 0-based month `m` of year `y`. */
  function MonthLength(y: int, m: int): (d: nat)
    requires 0 <= m < 12
    ensures 28 <= d <= 31
    ensures m == 1 ==> (d == 29 <==> IsLeap(y)) && (d == 28 <==> !IsLeap(y))
    ensures m != 1 ==> (d == 30 <==> m in {3, 5, 8, 10}) && (d == 31 <==> m !in {3, 5, 8, 10})
  {
    if m == 1 then (if IsLeap(y) then 29 else 28)
    else if m == 3 || m == 5 || m == 8 || m == 10 then 30
    else 31
  }

  /** The days of year `y` before its 0-based month `m`. */
  function DaysBeforeMonth(y: int, m: int): nat
    requires 0 <= m <= 12
  {
    if m == 0 then 0 else DaysBeforeMonth(y, m - 1) + MonthLength(y, m - 1)
  }

  /** The days from 1 January of year 1 to 1 January of year `y`. */
  function DaysBeforeYear(y: int): int {
    365 * (y - 1) + (y - 1) / 4 - (y - 1) / 100 + (y - 1) / 400
  }

  /** The number of day `d` of 0-based month `m` of year `y`, counting
      1 January of year 1 as day 0. */
  function DayNumber(y: int, m: int, d: int): int
    requires 0 <= m < 12
  {
    DaysBeforeYear(y) + DaysBeforeMonth(y, m) + d - 1
  }

  /** `getDay()` of a day number: 0 is Sunday; day 0 was a Monday. */
  function Weekday(n: int): (w: nat)
    ensures w < 7
  {
    (n + 1) % 7
  }

  /** `daysInMonth(month, year)`: the date of day 0 of the following month, which
      is the last day of this one. */
  function DaysInMonth(month: int, year: int): (d: nat)
    requires 0 <= month < 12
    ensures 28 <= d <= 31
    ensures month == 1 ==> (d == 29 <==> IsLeap(JsYear(year)))
    ensures 0 <= year <= 99 ==> d == MonthLength(1900 + year, month)
    ensures (year < 0 || year > 99) ==> d == MonthLength(year, month)
  {
    MonthLength(JsYear(year), month)
  }

  /** `firstDayOfMonth`: the weekday of the 1st of the shown month. */
  function FirstDayOfMonth(year: int, month: int): (w: nat)
    requires 0 <= month < 12
    ensures w < 7
  {
    Weekday(DayNumber(JsYear(year), month, 1))
  }

  /** The twelve months add up to 365 days, 366 in a leap year. */
  lemma YearLength(y: int)
    ensures DaysBeforeMonth(y, 12) == if IsLeap(y) then 366 else 365
  {
    var feb := MonthLength(y, 1);
    assert DaysBeforeMonth(y, 1) == 31;
    assert DaysBeforeMonth(y, 2) == 31 + feb;
    assert DaysBeforeMonth(y, 3) == 62 + feb;
    assert DaysBeforeMonth(y, 4) == 92 + feb;
    assert DaysBeforeMonth(y, 5) == 123 + feb;
    assert DaysBeforeMonth(y, 6) == 153 + feb;
    assert DaysBeforeMonth(y, 7) == 184 + feb;
    assert DaysBeforeMonth(y, 8) == 215 + feb;
    assert DaysBeforeMonth(y, 9) == 245 + feb;
    assert DaysBeforeMonth(y, 10) == 276 + feb;
    assert DaysBeforeMonth(y, 11) == 306 + feb;
  }

  /** Stepping a year on adds one to `y / k` exactly when `k` divides `y`. */
  lemma DivStep(y: int, k: int)
    requires k == 4 || k == 100 || k == 400
    ensures y / k - (y - 1) / k == if y % k == 0 then 1 else 0
  {
    var q, r := (y - 1) / k, (y - 1) % k;
    assert y - 1 == k * q + r && 0 <= r < k;
    if r == k - 1 {
      assert y == k * (q + 1);
    } else {
      assert y == k * q + (r + 1);
    }
  }

  /** Divisibility by 400 implies it by 100, which implies it by 4. */
  lemma DivisorChain(y: int)
    ensures y % 400 == 0 ==> y % 100 == 0
    ensures y % 100 == 0 ==> y % 4 == 0
  {
    if y % 400 == 0 {
      var m := 4 * (y / 400);
      assert y == 100 * m;
      MultipleMod(m, 100);
    }
    if y % 100 == 0 {
      var m := 25 * (y / 100);
      assert y == 4 * m;
      MultipleMod(m, 4);
    }
  }

  lemma MultipleMod(m: int, k: int)
    requires k == 4 || k == 100
    ensures (k * m) % k == 0
  {
    if k == 4 {
      assert (4 * m) % 4 == 0;
    } else {
      assert (100 * m) % 100 == 0;
    }
  }

  /** Consecutive years start one year's length apart. */
  lemma NextYear(y: int)
    ensures DaysBeforeYear(y + 1) == DaysBeforeYear(y) + DaysBeforeMonth(y, 12)
  {
    DivStep(y, 4);
    DivStep(y, 100);
    DivStep(y, 400);
    DivisorChain(y);
    YearLength(y);
  }

  /** The next month starts the weekday after this month's last day. */
  lemma NextMonthFirstDay(year: int, month: int)
    requires 0 <= month < 11
    ensures FirstDayOfMonth(year, month + 1) == (FirstDayOfMonth(year, month) + DaysInMonth(month, year)) % 7
  {
    var n := DayNumber(JsYear(year), month, 1);
    assert DayNumber(JsYear(year), month + 1, 1) == n + DaysInMonth(month, year);
    WeekdayShift(n, DaysInMonth(month, year));
  }

  /** Moving `k` days on moves the weekday `k` places on, modulo the week. */
  lemma WeekdayShift(n: int, k: int)
    ensures Weekday(n + k) == (Weekday(n) + k) % 7
  {
    var q := (n + 1) / 7;
    assert n + 1 == 7 * q + Weekday(n);
    assert n + k + 1 == 7 * q + (Weekday(n) + k);
  }

  /** So does January after December, when the two years are consecutive in the
      `Date` reading of years. */
  lemma NextYearFirstDay(year: int)
    requires JsYear(year + 1) == JsYear(year) + 1
    ensures FirstDayOfMonth(year + 1, 0) == (FirstDayOfMonth(year, 11) + DaysInMonth(11, year)) % 7
  {
    var y := JsYear(year);
    NextYear(y);
    var n := DayNumber(y, 11, 1);
    assert DayNumber(y + 1, 0, 1) == n + DaysInMonth(11, year);
    WeekdayShift(n, DaysInMonth(11, year));
  }

  /** The month first shown, May 2024, has 31 days and starts on a Wednesday. */
  lemma InitialMonth()
    ensures DaysInMonth(4, 2024) == 31
    ensures FirstDayOfMonth(2024, 4) == 3
  {
    assert DaysBeforeMonth(2024, 4) == 121;
    assert DaysBeforeYear(2024) == 738885;
  }

  /** The grid: `firstDayOfMonth` blank cells, then the day numbers in order. */
  method BuildDays(year: int, month: int) returns (days: seq<Option<nat>>)
    requires 0 <= month < 12
    ensures |days| == FirstDayOfMonth(year, month) + DaysInMonth(month, year)
    ensures forall k :: 0 <= k < FirstDayOfMonth(year, month) ==> days[k] == None
    ensures forall d :: 1 <= d <= DaysInMonth(month, year) ==> days[FirstDayOfMonth(year, month) + d - 1] == Some(d)
  {
    var first := FirstDayOfMonth(year, month);
    days := [];
    var i := 0;
    while i < first
      invariant 0 <= i <= first && |days| == i
      invariant forall k :: 0 <= k < i ==> days[k] == None
    {
      days := days + [None];
      i := i + 1;
    }
    var count := DaysInMonth(month, year);
    i := 1;
    while i <= count
      invariant 1 <= i <= count + 1
      invariant |days| == first + i - 1
      invariant forall k :: 0 <= k < first ==> days[k] == None
      invariant forall d :: 1 <= d < i ==> days[first + d - 1] == Some(d)
    {
      days := days + [Some(i)];
      i := i + 1;
    }
  }

  datatype Event = Event(day: nat, title: string, kind: string, time: string)

  /** The calendar's fixed events. */
  const Events: seq<Event> := [
    Event(15, "Product Sync", "internal", "10:00 AM"),
    Event(18, "Design Review", "internal", "11:00 AM")]

  function OnDay(d: nat): Event -> bool {
    (e: Event) => e.day == d
  }

  /** The events listed in a cell: none in a blank cell, otherwise
      `events.filter(e => e.day === day)`. */
  function CellEvents(events: seq<Event>, cell: Option<nat>): seq<Event> {
    if cell.None? || cell.value == 0 then [] else Where(events, OnDay(cell.value))
  }

  /** A numbered cell lists exactly the events of its day, in order; a blank
      cell lists none. */
  lemma CellEventsExact(events: seq<Event>, cell: Option<nat>)
    ensures cell.None? ==> CellEvents(events, cell) == []
    ensures cell.Some? && cell.value > 0 ==>
      forall e :: e in CellEvents(events, cell) <==> e in events && e.day == cell.value
  {
    if cell.Some? && cell.value > 0 {
      WhereMembers(events, OnDay(cell.value));
    }
  }

  /** Of the fixed events, the 15th holds only the product sync and the 18th only
      the design review; any other day holds none. */
  lemma FixedEventDays(d: nat)
    ensures CellEvents(Events, Some(15)) == [Event(15, "Product Sync", "internal", "10:00 AM")]
    ensures CellEvents(Events, Some(18)) == [Event(18, "Design Review", "internal", "11:00 AM")]
    ensures d != 15 && d != 18 ==> CellEvents(Events, Some(d)) == []
  {
    assert Events[1..] == [Events[1]];
    assert Events[1..][1..] == [];
  }

  const MonthNames: seq<string> := ["January", "February", "March", "April", "May", "June", "July",
                                    "August", "September", "October", "November", "December"]

  /** The heading's month name for the 0-based month. */
  function MonthName(month: int): string
    requires 0 <= month < 12
  {
    MonthNames[month]
  }

  /** The table has one name per month, and no two months share a name. */
  lemma MonthNamesDistinct()
    ensures |MonthNames| == 12
    ensures forall i, j :: 0 <= i < j < 12 ==> MonthName(i) != MonthName(j)
  {
  }
}
