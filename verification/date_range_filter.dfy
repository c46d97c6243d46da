/**
 * The date-range picker: six preset buttons, and a dialog in which a
 * custom range is edited in temporary dates before it is applied.  The
 * component's state (`showCustom`, `tempStartDate`, `tempEndDate`) lives
 * in a class; every `onChange` call is recorded in `emitted`.  The
 * date-fns arithmetic and `new Date()` are the fields of a `Clock`.
 */
module DateRangeFilter {

  import opened Wrappers
  import opened ApiClient

  /** The moment of a click and the date arithmetic the presets apply to it. */
  datatype Clock = Clock(now: CalendarDate,
                         subDays: (CalendarDate, nat) -> CalendarDate,
                         subMonths: (CalendarDate, nat) -> CalendarDate,
                         startOfYear: CalendarDate -> CalendarDate)

  /** A pair of optional dates. */
  datatype Dates = Dates(startDate: Option<CalendarDate>, endDate: Option<CalendarDate>)

  /** The values of the preset buttons, in display order. */
  const PresetValues: seq<string> := ["all", "30", "90", "365", "ytd", "custom"]

  /** A preset's `getDates()`: the range it stands for now; the custom preset has none. */
  function PresetDates(value: string, clock: Clock): (d: Option<Dates>)
    requires value in PresetValues
    ensures d.None? <==> value == "custom"
    ensures value == "all" ==> d == Some(Dates(None, None))
    ensures value !in {"all", "custom"} ==> d.Some? && d.value.startDate.Some? && d.value.endDate == Some(clock.now)
  {
    match value
    case "all" => Some(Dates(None, None))
    case "30" => Some(Dates(Some(clock.subDays(clock.now, 30)), Some(clock.now)))
    case "90" => Some(Dates(Some(clock.subDays(clock.now, 90)), Some(clock.now)))
    case "365" => Some(Dates(Some(clock.subMonths(clock.now, 12)), Some(clock.now)))
    case "ytd" => Some(Dates(Some(clock.startOfYear(clock.now)), Some(clock.now)))
    case _ => None
  }

  /** The picker component between renders. */
  class RangeFilter {
    /** The `dateRange` prop of the latest render. */
    var dateRange: DateRange
    var showCustom: bool
    var tempStart: Option<CalendarDate>
    var tempEnd: Option<CalendarDate>
    /** The arguments of every `onChange` call so far. */
    var emitted: seq<DateRange>

    /** The first render: the dialog closed, the temporary dates those of the prop. */
    constructor(dateRange: DateRange)
      ensures this.dateRange == dateRange && !showCustom
      ensures tempStart == dateRange.startDate && tempEnd == dateRange.endDate
      ensures emitted == []
    {
      this.dateRange := dateRange;
      showCustom := false;
      tempStart := dateRange.startDate;
      tempEnd := dateRange.endDate;
      emitted := [];
    }

    /** The effect: unless the dialog is open, the temporary dates follow the prop. */
    method Sync()
      modifies this
      ensures dateRange == old(dateRange) && showCustom == old(showCustom) && emitted == old(emitted)
      ensures showCustom ==> tempStart == old(tempStart) && tempEnd == old(tempEnd)
      ensures !showCustom ==> tempStart == dateRange.startDate && tempEnd == dateRange.endDate
    {
      if showCustom {
        return;
      }
      tempStart := dateRange.startDate;
      tempEnd := dateRange.endDate;
    }

    /** A re-render with a new `dateRange` prop, followed by the effect. */
    method ReceiveProps(r: DateRange)
      modifies this
      ensures dateRange == r && showCustom == old(showCustom) && emitted == old(emitted)
      ensures showCustom ==> tempStart == old(tempStart) && tempEnd == old(tempEnd)
      ensures !showCustom ==> tempStart == r.startDate && tempEnd == r.endDate
    {
      dateRange := r;
      Sync();
    }

    /** `handlePresetChange`: custom opens the dialog on the current dates; any other preset is applied at once. */
    method PickPreset(value: string, clock: Clock)
      requires value in PresetValues
      modifies this
      ensures dateRange == old(dateRange)
      ensures value == "custom" ==>
                showCustom && tempStart == dateRange.startDate && tempEnd == dateRange.endDate
                && emitted == old(emitted)
      ensures value != "custom" ==>
                var d := PresetDates(value, clock).value;
                !showCustom && tempStart == d.startDate && tempEnd == d.endDate
                && emitted == old(emitted) + [DateRange(d.startDate, d.endDate, value)]
    {
      if value == "custom" {
        tempStart := dateRange.startDate;
        tempEnd := dateRange.endDate;
        showCustom := true;
        return;
      }
      var dates := PresetDates(value, clock).value;
      emitted := emitted + [DateRange(dates.startDate, dates.endDate, value)];
      tempStart := dates.startDate;
      tempEnd := dates.endDate;
      showCustom := false;
    }

    /** The start picker of the dialog. */
    method PickStart(date: Option<CalendarDate>)
      modifies this
      ensures tempStart == date
      ensures dateRange == old(dateRange) && showCustom == old(showCustom) && tempEnd == old(tempEnd) && emitted == old(emitted)
    {
      tempStart := date;
    }

    /** The end picker of the dialog. */
    method PickEnd(date: Option<CalendarDate>)
      modifies this
      ensures tempEnd == date
      ensures dateRange == old(dateRange) && showCustom == old(showCustom) && tempStart == old(tempStart) && emitted == old(emitted)
    {
      tempEnd := date;
    }

    /** `handleCustomApply`: report the temporary dates as the custom preset and close the dialog. */
    method Apply()
      modifies this
      ensures emitted == old(emitted) + [DateRange(old(tempStart), old(tempEnd), "custom")]
      ensures !showCustom && dateRange == old(dateRange) && tempStart == old(tempStart) && tempEnd == old(tempEnd)
    {
      emitted := emitted + [DateRange(tempStart, tempEnd, "custom")];
      showCustom := false;
    }

    /** The Cancel button: close the dialog; the effect then discards the edited dates. */
    method Cancel()
      modifies this
      ensures !showCustom && dateRange == old(dateRange) && emitted == old(emitted)
      ensures tempStart == dateRange.startDate && tempEnd == dateRange.endDate
    {
      showCustom := false;
      Sync();
    }
  }

  /**
   * Opening the dialog and applying it without edits reports the range
   * already shown, now under the custom preset.
   */
  method CustomWithoutEdits(shown: DateRange, clock: Clock) returns (f: RangeFilter)
    ensures f.emitted == [DateRange(shown.startDate, shown.endDate, "custom")]
    ensures !f.showCustom
  {
    f := new RangeFilter(shown);
    f.PickPreset("custom", clock);
    f.Apply();
  }

  /** Editing in the dialog and cancelling reports nothing and restores the shown dates. */
  method EditThenCancel(shown: DateRange, start: Option<CalendarDate>, clock: Clock) returns (f: RangeFilter)
    ensures f.emitted == [] && !f.showCustom
    ensures f.tempStart == shown.startDate && f.tempEnd == shown.endDate
  {
    f := new RangeFilter(shown);
    f.PickPreset("custom", clock);
    f.PickStart(start);
    f.Cancel();
  }

  /** While the dialog is open a new prop leaves the edited dates alone. */
  method EditsSurviveNewProps(shown: DateRange, start: Option<CalendarDate>, incoming: DateRange, clock: Clock)
    returns (f: RangeFilter)
    ensures f.showCustom && f.tempStart == start && f.tempEnd == shown.endDate
    ensures f.emitted == []
  {
    f := new RangeFilter(shown);
    f.PickPreset("custom", clock);
    f.PickStart(start);
    f.ReceiveProps(incoming);
  }
}
