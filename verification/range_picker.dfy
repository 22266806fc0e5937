/**
 * The date-range selection of the calendar widget: what a click on a day
 * does to the current `{from, to}` selection, and which days are drawn as
 * selected or as inside the range.
 *
 * Dates are calendar days numbered in order; the source compares its Date
 * objects by their time value, and all the dates a click produces are
 * midnights, so only their order matters here.
 */
module RangePicker {
  import opened Wrappers

  /** A calendar day, numbered so that later days are larger. */
  type Date = int

  /** The selection: both ends optional; the whole selection may be absent too. */
  datatype Range = Range(from: Option<Date>, to: Option<Date>)

  /** The invariant the picker keeps: an end is present only after a start no later than it. */
  predicate Ordered(selected: Option<Range>)
  {
    match selected
    case None => true
    case Some(r) => r.to.Some? ==> r.from.Some? && r.from.value <= r.to.value
  }

  /**
   * The click handler of a day cell. With no start, the day becomes the
   * start. With a start but no end, the day and the start become the two
   * ends, earlier one first. With both ends, the day starts a new range.
   */
  function OnDayClick(selected: Option<Range>, day: Date): (next: Range)
    ensures Ordered(Some(next))
    ensures next.from.Some?
    ensures day == next.from.value || next.to == Some(day)
    ensures (selected.None? || selected.value.from.None? || selected.value.to.Some?) <==> next.to.None?
    ensures next.to.None? ==> next.from == Some(day)
    ensures next.to.Some? ==>
              selected.Some? && selected.value.from.Some? &&
              {next.from.value, next.to.value} == {selected.value.from.value, day}
  {
    if selected.None? || selected.value.from.None? then
      Range(Some(day), None)
    else if selected.value.to.None? then
      if day < selected.value.from.value then
        Range(Some(day), selected.value.from)
      else
        Range(selected.value.from, Some(day))
    else
      Range(Some(day), None)
  }

  /** The selection after clicking the given days in turn. */
  function Clicks(selected: Option<Range>, days: seq<Date>): Option<Range>
  {
    if |days| == 0 then selected
    else Some(OnDayClick(Clicks(selected, days[..|days| - 1]), days[|days| - 1]))
  }

  /** The days a range names as its ends. */
  function Ends(r: Range): set<Date>
  {
    (if r.from.Some? then {r.from.value} else {}) + (if r.to.Some? then {r.to.value} else {})
  }

  /** Whether a day is drawn as an end of the selection. */
  predicate IsSelected(selected: Option<Range>, day: Date): (isEnd: bool)
    ensures isEnd <==> selected.Some? && day in Ends(selected.value)
  {
    selected.Some? &&
    ((selected.value.from.Some? && selected.value.from.value == day) ||
     (selected.value.to.Some? && selected.value.to.value == day))
  }

  /**
   * Whether a day is drawn inside the range: both ends set and the day
   * between them. A day can only be in range when the selection is
   * complete and ordered, and the ends of such a selection are in range.
   */
  predicate IsInRange(selected: Option<Range>, day: Date): (inRange: bool)
    ensures inRange ==> Ordered(selected) && selected.Some? && selected.value.to.Some?
    ensures Ordered(selected) && selected.Some? && selected.value.to.Some? && IsSelected(selected, day) ==> inRange
  {
    selected.Some? && selected.value.from.Some? && selected.value.to.Some? &&
    selected.value.from.value <= day <= selected.value.to.value
  }

  /**
   * From an ordered selection (the dashboard starts with the last thirty
   * days), any sequence of clicks keeps the selection ordered.
   */
  lemma {:induction false} ClicksKeepOrder(selected: Option<Range>, days: seq<Date>)
    requires Ordered(selected)
    ensures Ordered(Clicks(selected, days))
  {
    if |days| > 0 {
      ClicksKeepOrder(selected, days[..|days| - 1]);
    }
  }

  /**
   * An ordered selection with both ends is never an empty range: both ends
   * are themselves in the range and drawn as selected.
   */
  lemma OrderedRangeContainsEnds(selected: Option<Range>)
    requires Ordered(selected)
    requires selected.Some? && selected.value.from.Some? && selected.value.to.Some?
    ensures IsInRange(selected, selected.value.from.value) && IsInRange(selected, selected.value.to.value)
    ensures IsSelected(selected, selected.value.from.value) && IsSelected(selected, selected.value.to.value)
  {
  }

  /** The initial selection of the dashboard: from thirty days before today up to today. */
  function InitialSelection(today: Date): (selected: Option<Range>)
    ensures Ordered(selected)
    ensures IsInRange(selected, today) && IsInRange(selected, today - 30)
    ensures forall day :: IsInRange(selected, day) <==> today - 30 <= day <= today
  {
    Some(Range(Some(today - 30), Some(today)))
  }

  /**
   * Two clicks from a fresh start select the span between the two days,
   * whichever is clicked first: exactly the days between them are in the
   * range, and exactly the two clicked days are drawn as selected.
   */
  lemma TwoClicksSelectSpan(selected: Option<Range>, a: Date, b: Date)
    requires selected.None? || selected.value.from.None? || selected.value.to.Some?
    ensures var s := Clicks(selected, [a, b]);
            && (forall day :: IsInRange(s, day) <==> (if a <= b then a else b) <= day <= (if a <= b then b else a))
            && (forall day :: IsSelected(s, day) <==> day == a || day == b)
  {
    assert [a, b][..1] == [a];
    assert [a][..0] == [];
    var first := OnDayClick(selected, a);
    assert Clicks(selected, [a]) == Some(first);
    assert first == Range(Some(a), None);
    assert Clicks(selected, [a, b]) == Some(OnDayClick(Some(first), b));
  }

  /** A third click discards the range and starts a new one at the clicked day. */
  lemma ThirdClickRestarts(selected: Option<Range>, a: Date, b: Date, c: Date)
    requires selected.None? || selected.value.from.None? || selected.value.to.Some?
    ensures Clicks(selected, [a, b, c]) == Some(Range(Some(c), None))
    ensures forall day :: !IsInRange(Clicks(selected, [a, b, c]), day)
  {
    assert [a, b, c][..2] == [a, b];
    assert [a, b][..1] == [a];
    assert [a][..0] == [];
    var first := OnDayClick(selected, a);
    assert Clicks(selected, [a]) == Some(first);
    var second := OnDayClick(Some(first), b);
    assert Clicks(selected, [a, b]) == Some(second);
    assert second.to.Some?;
    assert Clicks(selected, [a, b, c]) == Some(OnDayClick(Some(second), c));
  }
}
