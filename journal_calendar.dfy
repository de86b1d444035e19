/**
 * The month grid of `frontend/src/components/calendar/JournalCalendar.js`.
 * The grid always has 35 cells; it assumes the current month has 31 days and
 * the previous one 30, and it matches entries to cells by day of the month
 * alone. The weekday of the 1st comes from the clock and is a parameter here.
 */
module JournalCalendar {

  /** `getDay()`: 0 is Sunday, 6 is Saturday. */
  type Weekday = d: int | 0 <= d <= 6

  /** A civil date as `new Date(entry.date)` reads it. */
  datatype CivilDate = CivilDate(year: int, month: int, day: int)

  datatype CalendarEntry = CalendarEntry(date: CivilDate, title: string)

  /** One grid cell: the number shown, whether it belongs to the month, and its entry marker and title. */
  datatype Cell = Cell(day: int, isCurrentMonth: bool, hasEntry: bool, entryTitle: string)

  const GridSize: nat := 35

  /** `entries.some(...)`: some entry falls on day `day` of its own month. */
  predicate HasEntry(entries: seq<CalendarEntry>, day: int) {
    exists k :: 0 <= k < |entries| && entries[k].date.day == day
  }

  /** `entries.find(...)`: the title of the first entry on day `day`, or `''`. */
  function EntryTitle(entries: seq<CalendarEntry>, day: int): string {
    if |entries| == 0 then ""
    else if entries[0].date.day == day then entries[0].title
    else EntryTitle(entries[1..], day)
  }

  /** The day of the month that cell `i` stands for: non-positive before the 1st, above 31 after the month. */
  function LogicalDay(i: int, firstWeekday: Weekday): int {
    i - firstWeekday + 1
  }

  /** The cell the loop pushes at index `i`. */
  function CellAt(i: int, firstWeekday: Weekday, entries: seq<CalendarEntry>): Cell {
    var day := LogicalDay(i, firstWeekday);
    var isCurrentMonth := day > 0 && day <= 31;
    var marked := isCurrentMonth && HasEntry(entries, day);
    Cell(
      if day > 0 then (if day <= 31 then day else day - 31) else 30 + day,
      isCurrentMonth,
      marked,
      if marked then EntryTitle(entries, day) else "")
  }

  /** `createDaysArray`: pushes the 35 cells in order. */
  method CreateDaysArray(firstWeekday: Weekday, entries: seq<CalendarEntry>) returns (days: seq<Cell>)
    ensures |days| == GridSize
    ensures forall i :: 0 <= i < |days| ==> days[i] == CellAt(i, firstWeekday, entries)
  {
    days := [];
    var i := 0;
    while i < GridSize
      invariant 0 <= i <= GridSize
      invariant |days| == i
      invariant forall k :: 0 <= k < i ==> days[k] == CellAt(k, firstWeekday, entries)
    {
      days := days + [CellAt(i, firstWeekday, entries)];
      i := i + 1;
    }
  }

  // ---------------------------------------------------------------------------
  // Properties of the grid

  /** Every number shown lies in 1..31. */
  lemma DisplayedDayInRange(i: int, firstWeekday: Weekday, entries: seq<CalendarEntry>)
    requires 0 <= i < GridSize
    ensures 1 <= CellAt(i, firstWeekday, entries).day <= 31
  {
  }

  /**
   * Cells before the 1st show the last days of a 30-day previous month, the
   * month's cells show 1, 2, ... in order, and cells after day 31 restart at 1.
   */
  lemma DisplayedDayLayout(i: int, firstWeekday: Weekday, entries: seq<CalendarEntry>)
    requires 0 <= i < GridSize
    ensures i < firstWeekday ==>
      (!CellAt(i, firstWeekday, entries).isCurrentMonth && CellAt(i, firstWeekday, entries).day == 31 - firstWeekday + i)
    ensures firstWeekday <= i <= firstWeekday + 30 ==>
      (CellAt(i, firstWeekday, entries).isCurrentMonth && CellAt(i, firstWeekday, entries).day == i - firstWeekday + 1)
    ensures firstWeekday + 30 < i ==>
      (!CellAt(i, firstWeekday, entries).isCurrentMonth && CellAt(i, firstWeekday, entries).day == i - firstWeekday - 30)
  {
  }

  /** The number of month cells among the first `n` cells of the grid. */
  function CurrentCells(firstWeekday: Weekday, entries: seq<CalendarEntry>, n: nat): nat {
    if n == 0 then 0
    else CurrentCells(firstWeekday, entries, n - 1) + (if CellAt(n - 1, firstWeekday, entries).isCurrentMonth then 1 else 0)
  }

  function Min(a: int, b: int): int {
    if a <= b then a else b
  }

  lemma {:induction false} CurrentCellsPrefix(firstWeekday: Weekday, entries: seq<CalendarEntry>, n: nat)
    ensures CurrentCells(firstWeekday, entries, n) ==
      if n <= firstWeekday then 0 else Min(n, firstWeekday + 31) - firstWeekday
  {
    if n > 0 {
      CurrentCellsPrefix(firstWeekday, entries, n - 1);
    }
  }

  /**
   * The month gets min(31, 35 - weekday of the 1st) cells, so when the 1st is
   * a Friday day 31 is missing, and when it is a Saturday days 30 and 31 are.
   */
  lemma CurrentMonthCellCount(firstWeekday: Weekday, entries: seq<CalendarEntry>)
    ensures CurrentCells(firstWeekday, entries, GridSize) == Min(31, GridSize - firstWeekday)
    ensures forall i :: 0 <= i < GridSize && CellAt(i, firstWeekday, entries).isCurrentMonth ==>
      CellAt(i, firstWeekday, entries).day <= GridSize - firstWeekday
  {
    CurrentCellsPrefix(firstWeekday, entries, GridSize);
  }

  /** A cell is marked exactly when it belongs to the month and some entry has that day of the month. */
  lemma MarkedIff(i: int, firstWeekday: Weekday, entries: seq<CalendarEntry>)
    ensures CellAt(i, firstWeekday, entries).hasEntry <==>
      CellAt(i, firstWeekday, entries).isCurrentMonth
      && exists k :: 0 <= k < |entries| && entries[k].date.day == LogicalDay(i, firstWeekday)
  {
  }

  /** `find` returns the first entry on the given day; with none, the title is `''`. */
  lemma {:induction false} EntryTitleIsFirstMatch(entries: seq<CalendarEntry>, day: int)
    ensures !HasEntry(entries, day) ==> EntryTitle(entries, day) == ""
    ensures HasEntry(entries, day) ==>
      (exists k :: 0 <= k < |entries| && entries[k].date.day == day
        && (forall j :: 0 <= j < k ==> entries[j].date.day != day)
        && EntryTitle(entries, day) == entries[k].title)
  {
    if |entries| > 0 && entries[0].date.day != day {
      EntryTitleIsFirstMatch(entries[1..], day);
      if HasEntry(entries, day) {
        var k :| 0 <= k < |entries| && entries[k].date.day == day;
        assert entries[1..][k - 1].date.day == day;
        var k' :| 0 <= k' < |entries[1..]| && entries[1..][k'].date.day == day
          && (forall j :: 0 <= j < k' ==> entries[1..][j].date.day != day)
          && EntryTitle(entries[1..], day) == entries[1..][k'].title;
        assert entries[k' + 1].date.day == day;
        assert forall j :: 0 <= j < k' + 1 ==> entries[j].date.day != day by {
          forall j | 0 <= j < k' + 1 ensures entries[j].date.day != day {
            if j > 0 { assert entries[j] == entries[1..][j - 1]; }
          }
        }
      }
    } else if |entries| > 0 {
      assert HasEntry(entries, day) by { assert entries[0].date.day == day; }
    }
  }

  /**
   * Only the day of the month matters: entries that differ only in month and
   * year give the same grid.
   */
  lemma {:induction false} MonthAndYearIgnored(i: int, firstWeekday: Weekday, a: seq<CalendarEntry>, b: seq<CalendarEntry>)
    requires |a| == |b|
    requires forall k :: 0 <= k < |a| ==> a[k].date.day == b[k].date.day && a[k].title == b[k].title
    ensures CellAt(i, firstWeekday, a) == CellAt(i, firstWeekday, b)
  {
    var day := LogicalDay(i, firstWeekday);
    assert HasEntry(a, day) == HasEntry(b, day) by {
      if HasEntry(a, day) {
        var k :| 0 <= k < |a| && a[k].date.day == day;
        assert b[k].date.day == day;
      }
      if HasEntry(b, day) {
        var k :| 0 <= k < |b| && b[k].date.day == day;
        assert a[k].date.day == day;
      }
    }
    SameTitles(a, b, day);
  }

  lemma {:induction false} SameTitles(a: seq<CalendarEntry>, b: seq<CalendarEntry>, day: int)
    requires |a| == |b|
    requires forall k :: 0 <= k < |a| ==> a[k].date.day == b[k].date.day && a[k].title == b[k].title
    ensures EntryTitle(a, day) == EntryTitle(b, day)
  {
    if |a| > 0 {
      SameTitles(a[1..], b[1..], day);
    }
  }
}
