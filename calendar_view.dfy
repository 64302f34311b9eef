/**
 * The calendar page: a six-week grid for the shown month (the tail of the previous
 * month, the month's days with their tasks, the head of the next month), a cell
 * showing at most three tasks and a "+n more" note, and a cursor moved a month at a
 * time. The weekday of the first, the length of the month and of the previous month,
 * and today's date come from the platform's calendar and are inputs.
 */
module CalendarView {
  import opened Wrappers
  import opened Strings
  import opened Seqs
  import opened TaskModel

  /** A calendar date as the platform reports it; the month counts from 0 (January) to 11. */
  datatype Day = Day(year: int, month: nat, day: nat)

  /** A grid cell. Cells outside the shown month are never today and carry no task list. */
  datatype Cell = Cell(day: int, isCurrentMonth: bool, isToday: bool, tasks: Option<seq<Task>>)

  // ---------------------------------------------------------------------------
  // Tasks of a day

  /** The due-date key of a day: the year, then the month (1 to 12) and day, each padded to two digits. */
  function DateKey(year: int, month: nat, day: nat): string {
    IntToString(year) + "-" + Pad2(month) + "-" + Pad2(day)
  }

  /** The key lays out as the year, a dash, the two-digit month, a dash, the two-digit day. */
  lemma DateKeyLayout(year: int, month: nat, day: nat)
    requires month < 100 && day < 100
    ensures var k := DateKey(year, month, day); var n := |IntToString(year)|;
      && |k| == n + 6
      && k[..n] == IntToString(year) && k[n] == '-' && k[n + 3] == '-'
      && k[n + 1..n + 3] == Pad2(month) && k[n + 4..] == Pad2(day)
  {
    Pad2RoundTrip(month);
    Pad2RoundTrip(day);
    JoinLayout(IntToString(year), Pad2(month), Pad2(day));
  }

  /** Where the parts of `y-m-d` sit when `m` and `d` have two characters each. */
  lemma JoinLayout(y: string, m: string, d: string)
    requires |m| == 2 && |d| == 2
    ensures var k := y + "-" + m + "-" + d; var n := |y|;
      && |k| == n + 6
      && k[..n] == y && k[n] == '-' && k[n + 3] == '-'
      && k[n + 1..n + 3] == m && k[n + 4..] == d
  {
    var k := y + "-" + m + "-" + d;
    var n := |y|;
    assert k[n + 1..n + 3] == m;
    assert k[n + 4..] == d;
  }

  /** Within a year, different days of the year have different keys. */
  lemma DateKeyInjective(year: int, m1: nat, d1: nat, m2: nat, d2: nat)
    requires m1 < 100 && d1 < 100 && m2 < 100 && d2 < 100
    requires DateKey(year, m1, d1) == DateKey(year, m2, d2)
    ensures m1 == m2 && d1 == d2
  {
    Pad2RoundTrip(m1);
    Pad2RoundTrip(m2);
    Pad2RoundTrip(d1);
    Pad2RoundTrip(d2);
    JoinInjective(IntToString(year), Pad2(m1), Pad2(d1), Pad2(m2), Pad2(d2));
    Pad2Injective(m1, m2);
    Pad2Injective(d1, d2);
  }

  /** With two-character months and days, equal `y-m-d` strings have equal months and days. */
  lemma JoinInjective(y: string, m1: string, d1: string, m2: string, d2: string)
    requires |m1| == 2 && |d1| == 2 && |m2| == 2 && |d2| == 2
    requires y + "-" + m1 + "-" + d1 == y + "-" + m2 + "-" + d2
    ensures m1 == m2 && d1 == d2
  {
    JoinLayout(y, m1, d1);
    JoinLayout(y, m2, d2);
  }

  /** Different numbers below 100 have different two-digit forms. */
  lemma Pad2Injective(a: nat, b: nat)
    requires a < 100 && b < 100 && Pad2(a) == Pad2(b)
    ensures a == b
  {
    Pad2RoundTrip(a);
    Pad2RoundTrip(b);
  }

  /** `getTasksForDay`: exactly the tasks due on that day of the shown month, in list order. */
  function TasksForDay(tasks: seq<Task>, year: int, month: nat, day: nat): (r: seq<Task>)
    ensures forall t :: t in r <==> t in tasks && t.dueDate == DateKey(year, month + 1, day)
    ensures |r| <= |tasks|
  {
    Filter(tasks, (t: Task) => t.dueDate == DateKey(year, month + 1, day))
  }

  /** The day's tasks keep the list order: a split list gives the day's tasks of each part, in turn. */
  lemma TasksForDayOrder(a: seq<Task>, b: seq<Task>, year: int, month: nat, day: nat)
    ensures TasksForDay(a + b, year, month, day) == TasksForDay(a, year, month, day) + TasksForDay(b, year, month, day)
  {
    FilterConcat(a, b, (t: Task) => t.dueDate == DateKey(year, month + 1, day));
  }

  /** No task shows up under two different days of a month. */
  lemma DaysShareNoTasks(tasks: seq<Task>, year: int, month: nat, d1: nat, d2: nat)
    requires month < 12 && d1 < 100 && d2 < 100 && d1 != d2
    ensures forall t :: t in TasksForDay(tasks, year, month, d1) ==> t !in TasksForDay(tasks, year, month, d2)
  {
    forall t | t in TasksForDay(tasks, year, month, d1) && t in TasksForDay(tasks, year, month, d2)
      ensures false
    {
      DateKeyInjective(year, month + 1, d1, month + 1, d2);
    }
  }

  predicate IsToday(today: Day, year: int, month: nat, day: nat) {
    day == today.day && month == today.month && year == today.year
  }

  // ---------------------------------------------------------------------------
  // The grid

  /** The k-th leading cell: a day at the end of the previous month. */
  function LeadingCell(prevMonthLastDay: int, startingDayOfWeek: nat, k: nat): Cell {
    Cell(prevMonthLastDay - (startingDayOfWeek - 1 - k), false, false, None)
  }

  /** The cell of day `d` of the shown month. */
  function MonthCell(today: Day, year: int, month: nat, tasks: seq<Task>, d: nat): Cell {
    Cell(d, true, IsToday(today, year, month, d), Some(TasksForDay(tasks, year, month, d)))
  }

  /** The first loop: one cell per trailing day of the previous month, counting up to its last day. */
  method LeadingCells(prevMonthLastDay: int, startingDayOfWeek: nat) returns (cells: seq<Cell>)
    ensures |cells| == startingDayOfWeek
    ensures forall k :: 0 <= k < |cells| ==> cells[k] == LeadingCell(prevMonthLastDay, startingDayOfWeek, k)
  {
    cells := [];
    var i: int := startingDayOfWeek - 1;
    while i >= 0
      invariant -1 <= i < startingDayOfWeek
      invariant |cells| == startingDayOfWeek - 1 - i
      invariant forall k :: 0 <= k < |cells| ==> cells[k] == LeadingCell(prevMonthLastDay, startingDayOfWeek, k)
    {
      cells := cells + [Cell(prevMonthLastDay - i, false, false, None)];
      i := i - 1;
    }
  }

  /** The second loop: the days of the shown month in order, today flagged, each with its tasks. */
  method MonthCells(today: Day, year: int, month: nat, daysInMonth: nat, tasks: seq<Task>) returns (cells: seq<Cell>)
    ensures |cells| == daysInMonth
    ensures forall k :: 0 <= k < |cells| ==> cells[k] == MonthCell(today, year, month, tasks, k + 1)
  {
    cells := [];
    var day := 1;
    while day <= daysInMonth
      invariant 1 <= day <= daysInMonth + 1
      invariant |cells| == day - 1
      invariant forall k :: 0 <= k < |cells| ==> cells[k] == MonthCell(today, year, month, tasks, k + 1)
    {
      cells := cells + [MonthCell(today, year, month, tasks, day)];
      day := day + 1;
    }
  }

  /** The third loop: the next month's days from 1 until `remainingDays` of them (none when it is not positive). */
  method TrailingCells(remainingDays: int) returns (cells: seq<Cell>)
    ensures |cells| == if remainingDays > 0 then remainingDays else 0
    ensures forall k :: 0 <= k < |cells| ==> cells[k] == Cell(k + 1, false, false, None)
  {
    cells := [];
    var day := 1;
    while day <= remainingDays
      invariant 1 <= day && (remainingDays > 0 ==> day <= remainingDays + 1) && (remainingDays <= 0 ==> day == 1)
      invariant |cells| == day - 1
      invariant forall k :: 0 <= k < |cells| ==> cells[k] == Cell(k + 1, false, false, None)
    {
      cells := cells + [Cell(day, false, false, None)];
      day := day + 1;
    }
  }

  /**
   * `calendarDays`: one cell per trailing day of the previous month (as many as the
   * weekday of the first), counting up to its last day; then the month's days in
   * order with today flagged and their tasks; then the next month's days from 1 until
   * there are 42 cells. With a first weekday of 0 to 6 and a month of at most 36
   * days the grid is exactly 42 cells.
   */
  method CalendarDays(year: int, month: nat, startingDayOfWeek: nat, daysInMonth: nat,
                      prevMonthLastDay: int, today: Day, tasks: seq<Task>)
    returns (cells: seq<Cell>)
    ensures |cells| == if startingDayOfWeek + daysInMonth <= 42 then 42 else startingDayOfWeek + daysInMonth
    ensures forall k :: 0 <= k < startingDayOfWeek ==>
      cells[k] == LeadingCell(prevMonthLastDay, startingDayOfWeek, k)
    ensures forall d :: 1 <= d <= daysInMonth ==>
      cells[startingDayOfWeek + d - 1] == MonthCell(today, year, month, tasks, d)
    ensures forall k :: startingDayOfWeek + daysInMonth <= k < |cells| ==>
      cells[k] == Cell(k - startingDayOfWeek - daysInMonth + 1, false, false, None)
  {
    var leading := LeadingCells(prevMonthLastDay, startingDayOfWeek);
    var body := MonthCells(today, year, month, daysInMonth, tasks);
    var trailing := TrailingCells(42 - (|leading| + |body|));
    cells := leading + body + trailing;
    LeadingPart(cells, leading, body + trailing, prevMonthLastDay, startingDayOfWeek);
    MonthPart(cells, leading, body, trailing, startingDayOfWeek, daysInMonth, today, year, month, tasks);
    TrailingPart(cells, leading + body, trailing, startingDayOfWeek + daysInMonth);
  }

  /** The leading cells keep their places at the front of the grid. */
  lemma LeadingPart(cells: seq<Cell>, leading: seq<Cell>, rest: seq<Cell>, prevMonthLastDay: int, startingDayOfWeek: nat)
    requires cells == leading + rest && |leading| == startingDayOfWeek
    requires forall k :: 0 <= k < |leading| ==> leading[k] == LeadingCell(prevMonthLastDay, startingDayOfWeek, k)
    ensures forall k :: 0 <= k < startingDayOfWeek ==> cells[k] == LeadingCell(prevMonthLastDay, startingDayOfWeek, k)
  {
    forall k | 0 <= k < startingDayOfWeek ensures cells[k] == LeadingCell(prevMonthLastDay, startingDayOfWeek, k) {
      assert cells[k] == leading[k];
    }
  }

  /** Day d of the month sits right after the `start` leading cells, at position start + d - 1. */
  lemma MonthPart(cells: seq<Cell>, leading: seq<Cell>, body: seq<Cell>, trailing: seq<Cell>, start: nat, days: nat,
                  today: Day, year: int, month: nat, tasks: seq<Task>)
    requires cells == leading + body + trailing && |leading| == start && |body| == days
    requires forall k :: 0 <= k < |body| ==> body[k] == MonthCell(today, year, month, tasks, k + 1)
    ensures forall d :: 1 <= d <= days ==> cells[start + d - 1] == MonthCell(today, year, month, tasks, d)
  {
    forall d | 1 <= d <= days ensures cells[start + d - 1] == MonthCell(today, year, month, tasks, d) {
      assert cells[start + d - 1] == body[d - 1];
    }
  }

  /** The trailing cells fill the end of the grid, numbered from 1. */
  lemma TrailingPart(cells: seq<Cell>, front: seq<Cell>, trailing: seq<Cell>, from: nat)
    requires cells == front + trailing && |front| == from
    requires forall k :: 0 <= k < |trailing| ==> trailing[k] == Cell(k + 1, false, false, None)
    ensures forall k :: from <= k < |cells| ==> cells[k] == Cell(k - from + 1, false, false, None)
  {
    forall k | from <= k < |cells| ensures cells[k] == Cell(k - from + 1, false, false, None) {
      assert cells[k] == trailing[k - from];
    }
  }

  /** What a day cell lists: the first three tasks, and "+n more" for the rest. */
  datatype CellContents = CellContents(shown: seq<Task>, more: Option<nat>)

  /**
   * At most three tasks are shown, the first ones of the day; the note appears exactly
   * when there are more than three, and the shown tasks plus the note's count are all
   * of the day's tasks.
   */
  function DayCell(tasks: seq<Task>): (c: CellContents)
    ensures |c.shown| <= 3 && |c.shown| <= |tasks| && c.shown == tasks[..|c.shown|]
    ensures c.more.Some? <==> |tasks| > 3
    ensures |c.shown| + c.more.GetOr(0) == |tasks|
  {
    CellContents(Prefix(tasks, 3), if |tasks| > 3 then Some(|tasks| - 3) else None)
  }

  // ---------------------------------------------------------------------------
  // The shown month

  /** Months counted from the start of year zero. */
  function MonthIndex(year: int, month: nat): int {
    year * 12 + month
  }

  /** `new Date(year, month - 1, 1)`: the previous month, into the previous year from January. */
  function MonthBefore(year: int, month: nat): (r: (int, nat))
    requires month < 12
    ensures r.1 < 12 && MonthIndex(r.0, r.1) == MonthIndex(year, month) - 1
  {
    if month == 0 then (year - 1, 11) else (year, month - 1)
  }

  /** `new Date(year, month + 1, 1)`: the next month, into the next year from December. */
  function MonthAfter(year: int, month: nat): (r: (int, nat))
    requires month < 12
    ensures r.1 < 12 && MonthIndex(r.0, r.1) == MonthIndex(year, month) + 1
  {
    if month == 11 then (year + 1, 0) else (year, month + 1)
  }

  /** A month index names one year and month. */
  lemma MonthIndexInjective(y1: int, m1: nat, y2: int, m2: nat)
    requires m1 < 12 && m2 < 12 && MonthIndex(y1, m1) == MonthIndex(y2, m2)
    ensures y1 == y2 && m1 == m2
  {
  }

  /** Going back a month and then forward returns to the same month, and the reverse. */
  lemma MonthStepsInverse(year: int, month: nat)
    requires month < 12
    ensures var b := MonthBefore(year, month); MonthAfter(b.0, b.1) == (year, month)
    ensures var a := MonthAfter(year, month); MonthBefore(a.0, a.1) == (year, month)
  {
    var b := MonthBefore(year, month);
    var ab := MonthAfter(b.0, b.1);
    MonthIndexInjective(ab.0, ab.1, year, month);
    var a := MonthAfter(year, month);
    var ba := MonthBefore(a.0, a.1);
    MonthIndexInjective(ba.0, ba.1, year, month);
  }

  /** The `currentDate` state of the page. */
  class MonthCursor {
    var year: int
    var month: nat
    var day: nat

    predicate Valid()
      reads this
    {
      month < 12
    }

    /** The page opens on today. */
    constructor(today: Day)
      requires today.month < 12
      ensures Valid() && year == today.year && month == today.month && day == today.day
    {
      year := today.year;
      month := today.month;
      day := today.day;
    }

    /** The arrow back: the first of the previous month. */
    method PrevMonth()
      requires Valid()
      modifies this
      ensures Valid() && (year, month) == MonthBefore(old(year), old(month)) && day == 1
    {
      var m := MonthBefore(year, month);
      year, month, day := m.0, m.1, 1;
    }

    /** The arrow forward: the first of the next month. */
    method NextMonth()
      requires Valid()
      modifies this
      ensures Valid() && (year, month) == MonthAfter(old(year), old(month)) && day == 1
    {
      var m := MonthAfter(year, month);
      year, month, day := m.0, m.1, 1;
    }

    /** The Today button. */
    method GoToToday(today: Day)
      requires today.month < 12
      modifies this
      ensures Valid() && year == today.year && month == today.month && day == today.day
    {
      year, month, day := today.year, today.month, today.day;
    }
  }
}
