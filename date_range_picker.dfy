/**
 * The date range picker (`DateRangePickerWidget`), its calendar popup
 * (`DateRangeCalendarPopup`) and the text-only picker
 * (`SimpleDateRangePicker`).
 *
 * A date is a day number, so that earlier dates are smaller ones; a
 * missing date (`None`, or an invalid `QDate`, both false in a test) is
 * `None`. Today and the first day of its month are given by the caller,
 * since they come from the clock. Signals are recorded in the order they
 * fire.
 */
module DateRangePicker {
  import opened Common

  // ---------------------------------------------------------------------
  // presets

  /** A preset button: fixed day offsets from today, or "This month". */
  datatype Preset = Offsets(caption: string, startOffset: int, endOffset: int) | ThisMonth

  /** The five preset buttons, in order. */
  const Presets: seq<Preset> := [
    Offsets("Today", 0, 0),
    Offsets("Yesterday", -1, -1),
    Offsets("Last 7 days", -6, 0),
    Offsets("Last 30 days", -29, 0),
    ThisMonth
  ]

  function PresetLabel(p: Preset): string {
    match p
    case Offsets(caption, _, _) => caption
    case ThisMonth => "This month"
  }

  /**
   * `_select_preset`: the range a preset picks, given today and the first
   * day of its month.
   */
  function PresetRange(p: Preset, today: int, monthStart: int): (r: (int, int))
    ensures p.Offsets? ==> r == (today + p.startOffset, today + p.endOffset)
    ensures p.ThisMonth? ==> r == (monthStart, today)
  {
    match p
    case Offsets(_, s, e) => (today + s, today + e)
    case ThisMonth => (monthStart, today)
  }

  /**
   * Every preset range is ordered and ends no later than today; the last
   * N days preset spans exactly N days, today included.
   */
  lemma PresetsOrdered(today: int, monthStart: int)
    requires monthStart <= today
    ensures forall i :: 0 <= i < |Presets| ==>
              var r := PresetRange(Presets[i], today, monthStart);
              r.0 <= r.1 <= today
    ensures PresetRange(Presets[0], today, monthStart) == (today, today)
    ensures PresetRange(Presets[1], today, monthStart) == (today - 1, today - 1)
    ensures var r := PresetRange(Presets[2], today, monthStart); r.1 - r.0 + 1 == 7 && r.1 == today
    ensures var r := PresetRange(Presets[3], today, monthStart); r.1 - r.0 + 1 == 30 && r.1 == today
    ensures PresetRange(Presets[4], today, monthStart) == (monthStart, today)
  {
    forall i | 0 <= i < |Presets|
      ensures var r := PresetRange(Presets[i], today, monthStart); r.0 <= r.1 <= today
    {
      assert Presets[i] in Presets;
    }
  }

  /** The preset labels are the five button captions, all different. */
  lemma PresetLabels()
    ensures |Presets| == 5
    ensures forall i, j :: 0 <= i < j < |Presets| ==> PresetLabel(Presets[i]) != PresetLabel(Presets[j])
  {
    var ls := ["Today", "Yesterday", "Last 7 days", "Last 30 days", "This month"];
    assert forall i :: 0 <= i < 5 ==> PresetLabel(Presets[i]) == ls[i];
    assert ls[0][0] == 'T' && ls[1][0] == 'Y' && ls[2][5] == '7' && ls[3][5] == '3' && ls[4][0] == 'T';
    assert |ls[0]| == 5 && |ls[4]| == 10;
  }

  // ---------------------------------------------------------------------
  // the selection made by clicking days

  /** The days picked in the popup so far: none, a start, or a start and an end. */
  type Pick = (Option<int>, Option<int>)

  /** An end is only picked after a start, and never before it. */
  predicate OrderedPick(p: Pick) {
    p.1.Some? ==> p.0.Some? && p.0.value <= p.1.value
  }

  /**
   * `_on_calendar_clicked`: with no start, or a complete range, the day
   * starts a new selection; otherwise it completes the range, becoming
   * the start when it comes before the pending one.
   */
  function Click(p: Pick, d: int): (r: Pick)
  {
    if p.0.None? || p.1.Some? then (Some(d), None)
    else if d < p.0.value then (Some(d), p.0)
    else (p.0, Some(d))
  }

  /** A click keeps a pick ordered, and the clicked day is always one of its ends. */
  lemma ClickOrdered(p: Pick, d: int)
    requires OrderedPick(p)
    ensures OrderedPick(Click(p, d))
    ensures Click(p, d).0 == Some(d) || Click(p, d).1 == Some(d)
  {
  }

  /**
   * Two clicks after a finished (or no) selection pick the range between
   * the two days, in order; a third click starts over.
   */
  lemma TwoClicks(p: Pick, a: int, b: int, c: int)
    requires p.0.None? || p.1.Some?
    ensures Click(Click(p, a), b) == (Some(Lesser(a, b)), Some(Greater(a, b)))
    ensures Click(Click(Click(p, a), b), c) == (Some(c), None)
  {
  }

  // ---------------------------------------------------------------------
  // the popup

  /**
   * `DateRangeCalendarPopup(start, end)` as written: `_setup_calendar_ui`
   * lays the calendar out in `self.content_widget`, which the popup base
   * class never creates, so the constructor raises `AttributeError`.
   */
  method NewCalendarPopup(start: Option<int>, end: Option<int>) returns (attributeError: bool)
    ensures attributeError
  {
    attributeError := true;
  }

  /** The calendar popup as intended: its calendar, presets and buttons laid out in the popup itself. */
  class DateRangeCalendarPopup {
    /** The dates the picker had when it opened the popup. */
    const startDate: Option<int>
    const endDate: Option<int>
    var pick: Pick
    /** The day the calendar shows as selected. */
    var selected: Option<int>
    var open: bool

    ghost predicate Valid()
      reads this
    {
      OrderedPick(pick)
    }

    /** `DateRangeCalendarPopup(start, end)`: nothing picked yet; the calendar shows the start date, if any. */
    constructor Intended(start: Option<int>, end: Option<int>)
      ensures Valid() && startDate == start && endDate == end
      ensures pick == (None, None) && selected == start && open
    {
      startDate, endDate := start, end;
      pick := (None, None);
      selected := start;
      open := true;
    }

    /** `_select_preset`: the preset's range is picked and `range_selected` carries it. */
    method SelectPreset(p: Preset, today: int, monthStart: int) returns (range: (int, int))
      requires Valid() && p in Presets && monthStart <= today
      modifies this`pick
      ensures Valid()
      ensures range == PresetRange(p, today, monthStart) && range.0 <= range.1
      ensures pick == (Some(range.0), Some(range.1))
    {
      PresetsOrdered(today, monthStart);
      range := PresetRange(p, today, monthStart);
      pick := (Some(range.0), Some(range.1));
    }

    /** A click on a day of the calendar: the pick follows it, and `date_selected` carries the day. */
    method CalendarClicked(d: int) returns (dateSelected: int)
      requires Valid()
      modifies this`pick, this`selected
      ensures Valid() && pick == Click(old(pick), d)
      ensures selected == Some(d) && dateSelected == d
    {
      ClickOrdered(pick, d);
      pick := Click(pick, d);
      selected := Some(d);
      dateSelected := d;
    }

    /** `_clear_selection`: nothing is picked, and `range_selected` carries two missing dates. */
    method ClearSelection() returns (range: (Option<int>, Option<int>))
      modifies this`pick
      ensures Valid() && pick == (None, None) && range == (None, None)
    {
      pick := (None, None);
      range := (None, None);
    }

    /**
     * `_apply_selection`: a complete pick fires `range_selected`, a start
     * alone fires `date_selected`, nothing fires nothing; the popup closes.
     */
    method Apply() returns (range: Option<(int, int)>, date: Option<int>)
      requires Valid()
      modifies this`open
      ensures !open
      ensures pick.0.Some? && pick.1.Some? ==> range == Some((pick.0.value, pick.1.value)) && date == None
      ensures pick.0.Some? && pick.1.None? ==> range == None && date == pick.0
      ensures pick.0.None? ==> range == None && date == None
      ensures range.Some? ==> range.value.0 <= range.value.1
    {
      range, date := None, None;
      if pick.0.Some? && pick.1.Some? {
        range := Some((pick.0.value, pick.1.value));
      } else if pick.0.Some? {
        date := pick.0;
      }
      open := false;
    }

    method Close()
      modifies this`open
      ensures !open
    {
      open := false;
    }
  }

  // ---------------------------------------------------------------------
  // the picker

  /** What the picker emits: `start_date_changed`, `end_date_changed`, `date_range_changed`. */
  datatype Signal = StartChanged(start: Option<int>) | EndChanged(end: Option<int>) | RangeChanged(from: int, to: int)

  /** `date_range_changed` when both dates are there; nothing otherwise. */
  function RangeSignal(s: Option<int>, e: Option<int>): (r: seq<Signal>)
    ensures r != [] <==> s.Some? && e.Some?
    ensures r != [] ==> r == [RangeChanged(s.value, e.value)]
  {
    if s.Some? && e.Some? then [RangeChanged(s.value, e.value)] else []
  }

  class DateRangePickerWidget {
    var start: Option<int>
    var end: Option<int>
    /** Whether a day picked in the popup sets the start (otherwise the end). */
    var selectingStart: bool
    var popup: DateRangeCalendarPopup?

    ghost predicate Valid()
      reads this, popup
    {
      popup != null ==> popup.Valid()
    }

    constructor ()
      ensures Valid() && start == None && end == None && selectingStart && popup == null
    {
      start, end := None, None;
      selectingStart := true;
      popup := null;
    }

    /**
     * `set_start_date`: the same date changes nothing and fires nothing;
     * a new one (or none) is taken and fires `start_date_changed`, then
     * `date_range_changed` if both dates are there.
     */
    method SetStartDate(d: Option<int>) returns (signals: seq<Signal>)
      modifies this`start
      ensures start == d
      ensures d == old(start) ==> signals == []
      ensures d != old(start) ==> signals == [StartChanged(d)] + RangeSignal(d, end)
    {
      signals := [];
      if d != start {
        start := d;
        signals := [StartChanged(d)] + RangeSignal(start, end);
      }
    }

    /** `set_end_date`: the same for the end. */
    method SetEndDate(d: Option<int>) returns (signals: seq<Signal>)
      modifies this`end
      ensures end == d
      ensures d == old(end) ==> signals == []
      ensures d != old(end) ==> signals == [EndChanged(d)] + RangeSignal(start, d)
    {
      signals := [];
      if d != end {
        end := d;
        signals := [EndChanged(d)] + RangeSignal(start, end);
      }
    }

    /**
     * `set_date_range`: both dates are taken, in whatever order; each one
     * present fires its signal (changed or not), and both together fire
     * `date_range_changed`.
     */
    method SetDateRange(s: Option<int>, e: Option<int>) returns (signals: seq<Signal>)
      modifies this`start, this`end
      ensures start == s && end == e
      ensures signals == (if s.Some? then [StartChanged(s)] else [])
                         + (if e.Some? then [EndChanged(e)] else [])
                         + RangeSignal(s, e)
    {
      start, end := s, e;
      signals := [];
      if s.Some? {
        signals := signals + [StartChanged(s)];
      }
      if e.Some? {
        signals := signals + [EndChanged(e)];
      }
      signals := signals + RangeSignal(s, e);
    }

    method GetDateRange() returns (s: Option<int>, e: Option<int>)
      ensures s == start && e == end
    {
      s, e := start, end;
    }

    /** `clear`: both dates go, and nothing fires. */
    method Clear()
      modifies this`start, this`end
      ensures start == None && end == None
    {
      start, end := None, None;
    }

    /**
     * `_show_calendar` as written: remembers which end the popup picks and
     * closes an open popup; making the new popup raises `AttributeError`,
     * so `_popup` keeps its old value and nothing opens.
     */
    method ShowCalendar(forStart: bool) returns (attributeError: bool)
      requires Valid()
      modifies this`selectingStart, popup
      ensures Valid() && selectingStart == forStart && popup == old(popup) && attributeError
      ensures popup != null ==> !popup.open
    {
      selectingStart := forStart;
      if popup != null {
        popup.Close();
      }
      attributeError := NewCalendarPopup(start, end);
    }

    /**
     * `_show_calendar` with the intended popup: remembers which end the
     * popup picks, closes an open popup and opens a new one on the current
     * dates.
     */
    method ShowCalendarIntended(forStart: bool)
      requires Valid()
      modifies this`selectingStart, this`popup, popup
      ensures Valid() && selectingStart == forStart
      ensures popup != null && fresh(popup) && popup.open && popup.pick == (None, None)
      ensures popup.startDate == start && popup.endDate == end
      ensures old(popup) != null ==> !old(popup).open
    {
      selectingStart := forStart;
      if popup != null {
        popup.Close();
      }
      popup := new DateRangeCalendarPopup.Intended(start, end);
    }

    /** `_on_date_selected`: the day picked sets the end the popup was opened for. */
    method OnDateSelected(d: int) returns (signals: seq<Signal>)
      modifies this`start, this`end
      ensures selectingStart ==> start == Some(d) && end == old(end)
      ensures !selectingStart ==> end == Some(d) && start == old(start)
    {
      if selectingStart {
        signals := SetStartDate(Some(d));
      } else {
        signals := SetEndDate(Some(d));
      }
    }

    /** `_on_range_selected`: both dates are taken and the popup closes. */
    method OnRangeSelected(s: Option<int>, e: Option<int>) returns (signals: seq<Signal>)
      requires Valid()
      modifies this`start, this`end, popup
      ensures Valid() && start == s && end == e
      ensures popup != null ==> !popup.open && popup.pick == old(popup.pick)
      ensures signals == (if s.Some? then [StartChanged(s)] else [])
                         + (if e.Some? then [EndChanged(e)] else [])
                         + RangeSignal(s, e)
    {
      signals := SetDateRange(s, e);
      if popup != null {
        popup.Close();
      }
    }

    /**
     * A day is clicked in a popup opened by `ShowCalendarIntended` (as
     * written no popup ever opens): the popup's pick follows, and
     * the day at once becomes the picker's start or end, whichever the
     * popup was opened for.
     */
    method ClickDay(d: int) returns (signals: seq<Signal>)
      requires Valid() && popup != null
      modifies this`start, this`end, popup`pick, popup`selected
      ensures Valid() && popup.pick == Click(old(popup.pick), d)
      ensures selectingStart ==> start == Some(d) && end == old(end)
      ensures !selectingStart ==> end == Some(d) && start == old(start)
    {
      var day := popup.CalendarClicked(d);
      signals := OnDateSelected(day);
    }

    /** A preset is chosen in a popup opened by `ShowCalendarIntended`: its range becomes the picker's, and the popup closes. */
    method ChoosePreset(p: Preset, today: int, monthStart: int) returns (signals: seq<Signal>)
      requires Valid() && popup != null && p in Presets && monthStart <= today
      modifies this`start, this`end, popup
      ensures Valid() && !popup.open && start.Some? && end.Some?
      ensures (start.value, end.value) == PresetRange(p, today, monthStart) && start.value <= end.value
      ensures signals == [StartChanged(start), EndChanged(end), RangeChanged(start.value, end.value)]
    {
      var r := popup.SelectPreset(p, today, monthStart);
      signals := OnRangeSelected(Some(r.0), Some(r.1));
    }

    /** Clear in a popup opened by `ShowCalendarIntended`: both dates go, nothing fires, and the popup closes. */
    method ClearPopup() returns (signals: seq<Signal>)
      requires Valid() && popup != null
      modifies this`start, this`end, popup
      ensures Valid() && !popup.open && start == None && end == None && signals == []
    {
      var r := popup.ClearSelection();
      signals := OnRangeSelected(r.0, r.1);
    }

    /**
     * Apply in a popup opened by `ShowCalendarIntended`: a complete pick becomes the range, a start
     * alone sets the end the popup was opened for; the popup closes.
     */
    method ApplyPopup() returns (signals: seq<Signal>)
      requires Valid() && popup != null
      modifies this`start, this`end, popup
      ensures Valid() && !popup.open && popup.pick == old(popup.pick)
      ensures popup.pick.0.Some? && popup.pick.1.Some? ==>
                start == popup.pick.0 && end == popup.pick.1 && start.value <= end.value
      ensures popup.pick.0.Some? && popup.pick.1.None? && selectingStart ==> start == popup.pick.0 && end == old(end)
      ensures popup.pick.0.Some? && popup.pick.1.None? && !selectingStart ==> end == popup.pick.0 && start == old(start)
      ensures popup.pick.0.None? ==> start == old(start) && end == old(end) && signals == []
    {
      var range, date := popup.Apply();
      signals := [];
      if range.Some? {
        signals := OnRangeSelected(Some(range.value.0), Some(range.value.1));
      } else if date.Some? {
        signals := OnDateSelected(date.value);
      }
    }
  }

  /** As written, a click on the start field leaves the picker with no popup. */
  method NoCalendarAfterShow() returns (isOpen: bool)
    ensures !isOpen
  {
    var w := new DateRangePickerWidget();
    var _ := w.ShowCalendar(true);
    isOpen := w.popup != null;
  }

  /** As intended, a click on the start field opens a calendar with nothing picked. */
  method CalendarOpensIntended() returns (isOpen: bool, picked: Pick)
    ensures isOpen && picked == (None, None)
  {
    var w := new DateRangePickerWidget();
    w.ShowCalendarIntended(true);
    isOpen := w.popup.open;
    picked := w.popup.pick;
  }

  // ---------------------------------------------------------------------
  // the text-only picker

  /**
   * `SimpleDateRangePicker`: two text fields; `parse` stands for
   * `QDate.fromString(text, "yyyy-MM-dd")` followed by `isValid`.
   */
  class SimpleDateRangePicker {
    var startText: string
    var endText: string

    constructor ()
      ensures startText == "" && endText == ""
    {
      startText, endText := "", "";
    }

    /**
     * `_validate_dates`: with both fields filled and both parsed,
     * `date_range_changed` carries the two dates, in whatever order.
     */
    function Validated(parse: string -> Option<int>): (r: Option<(int, int)>)
      reads this
      ensures r.Some? <==> startText != "" && endText != "" && parse(startText).Some? && parse(endText).Some?
      ensures r.Some? ==> r.value == (parse(startText).value, parse(endText).value)
    {
      if startText != "" && endText != "" && parse(startText).Some? && parse(endText).Some?
      then Some((parse(startText).value, parse(endText).value))
      else None
    }

    /** Typing in the start field: a change of text validates the dates. */
    method TypeStart(t: string, parse: string -> Option<int>) returns (emitted: seq<(int, int)>)
      modifies this`startText
      ensures startText == t
      ensures t == old(startText) ==> emitted == []
      ensures t != old(startText) && Validated(parse).Some? ==> emitted == [Validated(parse).value]
      ensures t != old(startText) && Validated(parse).None? ==> emitted == []
    {
      emitted := [];
      if t != startText {
        startText := t;
        var v := Validated(parse);
        if v.Some? {
          emitted := [v.value];
        }
      }
    }

    /** Typing in the end field. */
    method TypeEnd(t: string, parse: string -> Option<int>) returns (emitted: seq<(int, int)>)
      modifies this`endText
      ensures endText == t
      ensures t == old(endText) ==> emitted == []
      ensures t != old(endText) && Validated(parse).Some? ==> emitted == [Validated(parse).value]
      ensures t != old(endText) && Validated(parse).None? ==> emitted == []
    {
      emitted := [];
      if t != endText {
        endText := t;
        var v := Validated(parse);
        if v.Some? {
          emitted := [v.value];
        }
      }
    }

    /**
     * `get_date_range`: both dates when both parse, otherwise none; an
     * empty field counts like any text that does not parse.
     */
    function GetDateRange(parse: string -> Option<int>): (r: (Option<int>, Option<int>))
      reads this
      ensures r.0.Some? <==> parse(startText).Some? && parse(endText).Some?
      ensures r.0.Some? ==> r == (parse(startText), parse(endText))
      ensures r.0.None? ==> r.1.None?
    {
      if parse(startText).Some? && parse(endText).Some? then (parse(startText), parse(endText)) else (None, None)
    }
  }
}
