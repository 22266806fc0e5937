/**
 * The month grid of the calendar widget: the days of one month laid out
 * row by row in six weeks of seven cells, Sunday first, starting at the
 * weekday of the first of the month.
 *
 * The number of days in the month and the weekday of its first day are
 * inputs; the source derives them from the platform's date library.
 */
module CalendarGrid {

  /** One cell of the grid: empty padding, or the day of the month it shows. */
  datatype Cell = Blank | Day(day: int)

  const Weeks := 6
  const DaysPerWeek := 7

  /**
   * Reference layout: the cell at row-major position `index` shows day
   * `index - firstDayOfMonth + 1` when that is a day of the month, and is
   * blank otherwise.
   */
  function CellAt(firstDayOfMonth: int, daysInMonth: int, index: int): Cell
  {
    if firstDayOfMonth <= index < firstDayOfMonth + daysInMonth then Day(index - firstDayOfMonth + 1) else Blank
  }

  /** The grid read row by row as one sequence of 42 cells. */
  function Layout(firstDayOfMonth: int, daysInMonth: int): seq<Cell>
  {
    seq(Weeks * DaysPerWeek, index => CellAt(firstDayOfMonth, daysInMonth, index))
  }

  /** How many days the loop has placed before reaching position `index`. */
  function Placed(firstDayOfMonth: int, daysInMonth: int, index: int): int
  {
    if index <= firstDayOfMonth || daysInMonth <= 0 then 0
    else if index - firstDayOfMonth < daysInMonth then index - firstDayOfMonth
    else daysInMonth
  }

  /**
   * The nested loop of the month view: padding before the first weekday
   * of the first week, then one cell per day counted up from 1, then
   * padding once the counter passes the last day. Every cell agrees with
   * the reference layout.
   */
  method RenderMonth(firstDayOfMonth: int, daysInMonth: int) returns (weeks: seq<seq<Cell>>)
    requires 0 <= firstDayOfMonth <= 6
    ensures |weeks| == Weeks
    ensures forall i :: 0 <= i < Weeks ==> |weeks[i]| == DaysPerWeek
    ensures forall i, j :: 0 <= i < Weeks && 0 <= j < DaysPerWeek ==>
              weeks[i][j] == CellAt(firstDayOfMonth, daysInMonth, i * DaysPerWeek + j)
  {
    var dayCounter := 1;
    weeks := [];
    var i := 0;
    while i < Weeks
      invariant 0 <= i <= Weeks
      invariant |weeks| == i
      invariant forall r :: 0 <= r < i ==> |weeks[r]| == DaysPerWeek
      invariant forall r, c :: 0 <= r < i && 0 <= c < DaysPerWeek ==>
                  weeks[r][c] == CellAt(firstDayOfMonth, daysInMonth, r * DaysPerWeek + c)
      invariant dayCounter == 1 + Placed(firstDayOfMonth, daysInMonth, i * DaysPerWeek)
    {
      var days := [];
      var j := 0;
      while j < DaysPerWeek
        invariant 0 <= j <= DaysPerWeek
        invariant |days| == j
        invariant forall c :: 0 <= c < j ==> days[c] == CellAt(firstDayOfMonth, daysInMonth, i * DaysPerWeek + c)
        invariant dayCounter == 1 + Placed(firstDayOfMonth, daysInMonth, i * DaysPerWeek + j)
      {
        if (i == 0 && j < firstDayOfMonth) || dayCounter > daysInMonth {
          days := days + [Blank];
        } else {
          days := days + [Day(dayCounter)];
          dayCounter := dayCounter + 1;
        }
        j := j + 1;
      }
      weeks := weeks + [days];
      i := i + 1;
    }
  }

  /** The days shown by a run of cells, in order, padding skipped. */
  function DaysShown(cells: seq<Cell>): seq<int>
  {
    if |cells| == 0 then []
    else
      var last := cells[|cells| - 1];
      DaysShown(cells[..|cells| - 1]) + (if last.Day? then [last.day] else [])
  }

  /** The days 1, 2, ..., n. */
  function OneTo(n: nat): seq<int>
  {
    seq(n, k => k + 1)
  }

  /** The first `m` cells of the layout show exactly the days placed before position `m`. */
  lemma {:induction false} DaysShownPrefix(firstDayOfMonth: int, daysInMonth: int, m: nat)
    requires 0 <= firstDayOfMonth && 0 <= daysInMonth
    ensures Placed(firstDayOfMonth, daysInMonth, m) >= 0
    ensures DaysShown(seq(m, index => CellAt(firstDayOfMonth, daysInMonth, index)))
            == OneTo(Placed(firstDayOfMonth, daysInMonth, m))
  {
    if m > 0 {
      var cells := seq(m, index => CellAt(firstDayOfMonth, daysInMonth, index));
      assert cells[..m - 1] == seq(m - 1, index => CellAt(firstDayOfMonth, daysInMonth, index));
      DaysShownPrefix(firstDayOfMonth, daysInMonth, m - 1);
      var p := Placed(firstDayOfMonth, daysInMonth, m - 1);
      if cells[m - 1].Day? {
        assert OneTo(p + 1) == OneTo(p) + [p + 1];
      }
    }
  }

  /**
   * Six weeks always suffice: for any month of 28 to 31 days starting on
   * any weekday, reading the grid row by row shows every day 1..n exactly
   * once, in increasing order, and nothing else.
   */
  lemma LayoutShowsEveryDayOnce(firstDayOfMonth: int, daysInMonth: int)
    requires 0 <= firstDayOfMonth <= 6 && 28 <= daysInMonth <= 31
    ensures DaysShown(Layout(firstDayOfMonth, daysInMonth)) == OneTo(daysInMonth)
  {
    DaysShownPrefix(firstDayOfMonth, daysInMonth, Weeks * DaysPerWeek);
  }

  /**
   * Day d of the month sits in week (first + d - 1) / 7, column
   * (first + d - 1) % 7, and that week is one of the six.
   */
  lemma DayPosition(firstDayOfMonth: int, daysInMonth: int, d: int)
    requires 0 <= firstDayOfMonth <= 6 && 28 <= daysInMonth <= 31
    requires 1 <= d <= daysInMonth
    ensures (firstDayOfMonth + d - 1) / DaysPerWeek < Weeks
    ensures CellAt(firstDayOfMonth, daysInMonth,
                   (firstDayOfMonth + d - 1) / DaysPerWeek * DaysPerWeek + (firstDayOfMonth + d - 1) % DaysPerWeek)
            == Day(d)
  {
  }

  /** Leading cells before the first weekday and trailing cells after the last day are blank. */
  lemma PaddingIsBlank(firstDayOfMonth: int, daysInMonth: int, index: int)
    requires 0 <= index < Weeks * DaysPerWeek
    requires index < firstDayOfMonth || firstDayOfMonth + daysInMonth <= index
    ensures Layout(firstDayOfMonth, daysInMonth)[index] == Blank
  {
  }
}
