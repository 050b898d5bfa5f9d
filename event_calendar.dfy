/** The calendar view of the events (src/components/EventCalendar.tsx): the
    events of one day, the markers drawn under a calendar day, the panel of
    the selected day, the "this month" list and the month navigation. */
module EventCalendar {
  import opened Wrappers
  import opened Lists
  import Dates
  import opened SchoolEvents

  function Min(a: int, b: int): int
  {
    if a <= b then a else b
  }

  /** `getEventsForDate`: the events on that day, in their order. */
  function EventsOn(events: seq<SchoolEvent>, day: Dates.Date): (r: seq<SchoolEvent>)
    ensures forall e :: e in r <==> e in events && Dates.SameDay(e.date, day)
    ensures IsSubsequence(r, events)
  {
    var p := (e: SchoolEvent) => Dates.SameDay(e.date, day);
    FilterIsSubsequence(events, p);
    Filter(events, p)
  }

  /** `getEventsForSelectedDate`: nothing when no day is selected. */
  function EventsForSelected(events: seq<SchoolEvent>, selected: Option<Dates.Date>): (r: seq<SchoolEvent>)
    ensures selected == None ==> r == []
    ensures selected.Some? ==> forall e :: e in r <==> e in events && Dates.SameDay(e.date, selected.value)
  {
    if selected == None then [] else EventsOn(events, selected.value)
  }

  /** What `renderDay` draws under a day number. */
  datatype DayMarks =
    | NoMarks
    | Marks(dots: seq<SchoolEvent>, overflow: Option<int>)

  /** A dot for each of the first three events of the day, then one grey
      dot titled with the number of events left over. */
  function DayIndicator(dayEvents: seq<SchoolEvent>): (r: DayMarks)
    ensures r.NoMarks? <==> dayEvents == []
    ensures r.Marks? ==> |r.dots| == Min(|dayEvents|, 3) && r.dots == dayEvents[..|r.dots|]
    ensures r.Marks? ==> (r.overflow.Some? <==> |dayEvents| > 3)
    ensures r.Marks? && r.overflow.Some? ==> r.overflow.value == |dayEvents| - 3 > 0
  {
    if |dayEvents| == 0 then NoMarks
    else Marks(dayEvents[..Min(|dayEvents|, 3)],
               if |dayEvents| > 3 then Some(|dayEvents| - 3) else None)
  }

  /** Every event of the day is accounted for: the dots and the overflow
      count add up to the number of events. */
  lemma DayIndicatorCountsAll(dayEvents: seq<SchoolEvent>)
    requires dayEvents != []
    ensures var m := DayIndicator(dayEvents);
            |m.dots| + (if m.overflow.Some? then m.overflow.value else 0) == |dayEvents|
  {
  }

  /** The selected-day panel: a prompt when no day is selected, a message
      when the day has no events, the day's events otherwise. */
  datatype DayPanel =
    | PickADate
    | NoEventsOnDay
    | EventsOnDay(events: seq<SchoolEvent>)

  function SelectedDayPanel(events: seq<SchoolEvent>, selected: Option<Dates.Date>): (r: DayPanel)
    ensures r.PickADate? <==> selected == None
    ensures r.NoEventsOnDay? <==> selected.Some? && EventsForSelected(events, selected) == []
    ensures r.EventsOnDay? ==> r.events == EventsForSelected(events, selected) != []
  {
    if selected == None then PickADate
    else if EventsForSelected(events, selected) == [] then NoEventsOnDay
    else EventsOnDay(EventsForSelected(events, selected))
  }

  /** The "this month" condition: the event's day lies between the start
      and the end of the month. */
  predicate InMonth(e: SchoolEvent, month: Dates.Date)
    requires Dates.Valid(month)
  {
    Dates.NotAfter(Dates.StartOfMonth(month), e.date) && Dates.NotAfter(e.date, Dates.EndOfMonth(month))
  }

  /** The events of the month, in their order, before the cut to five. */
  function EventsInMonth(events: seq<SchoolEvent>, month: Dates.Date): (r: seq<SchoolEvent>)
    requires Dates.Valid(month)
    ensures forall e :: e in r <==> e in events && InMonth(e, month)
    ensures IsSubsequence(r, events)
  {
    var p := (e: SchoolEvent) => InMonth(e, month);
    FilterIsSubsequence(events, p);
    Filter(events, p)
  }

  /** For events on real days, "in the month" means "with the month's year
      and month". */
  lemma EventsInMonthByCalendar(events: seq<SchoolEvent>, month: Dates.Date)
    requires Dates.Valid(month)
    requires forall e :: e in events ==> Dates.Valid(e.date)
    ensures forall e :: e in EventsInMonth(events, month) <==>
              e in events && e.date.year == month.year && e.date.month == month.month
  {
    forall e | e in events
      ensures InMonth(e, month) <==> e.date.year == month.year && e.date.month == month.month
    {
      Dates.InMonthRange(e.date, month);
    }
  }

  /** The "this month" list: the first five events of the month. */
  function MonthList(events: seq<SchoolEvent>, month: Dates.Date): (r: seq<SchoolEvent>)
    requires Dates.Valid(month)
    ensures |r| == Min(|EventsInMonth(events, month)|, 5)
    ensures r == EventsInMonth(events, month)[..|r|]
    ensures forall e :: e in r ==> e in events && InMonth(e, month)
  {
    var all := EventsInMonth(events, month);
    all[..Min(|all|, 5)]
  }

  /** The "no events this month" message is shown exactly when the list
      is empty, and the list is cut only when the month has more than five
      events. */
  lemma MonthMessage(events: seq<SchoolEvent>, month: Dates.Date)
    requires Dates.Valid(month)
    ensures EventsInMonth(events, month) == [] <==> MonthList(events, month) == []
    ensures |EventsInMonth(events, month)| <= 5 <==> MonthList(events, month) == EventsInMonth(events, month)
  {
  }

  /** `getTypeColor`: a badge class per known type; `other` and every
      unknown type are grey. */
  function TypeColor(t: string): (r: string)
    ensures t !in {"academic", "extracurricular", "holiday", "meeting"} <==> r == "bg-gray-100 text-gray-800"
    ensures t == "academic" ==> r == "bg-blue-100 text-blue-800"
    ensures t == "extracurricular" ==> r == "bg-green-100 text-green-800"
    ensures t == "holiday" ==> r == "bg-red-100 text-red-800"
    ensures t == "meeting" ==> r == "bg-yellow-100 text-yellow-800"
  {
    if t == "academic" then "bg-blue-100 text-blue-800"
    else if t == "extracurricular" then "bg-green-100 text-green-800"
    else if t == "holiday" then "bg-red-100 text-red-800"
    else if t == "meeting" then "bg-yellow-100 text-yellow-800"
    else "bg-gray-100 text-gray-800"
  }

  /** `getPriorityIcon`: a red, yellow or green circle, nothing for an
      unknown priority. */
  function PriorityIcon(p: string): (r: string)
    ensures r == "" <==> p !in {"high", "medium", "low"}
    ensures p == "high" ==> r == "\U{1F534}"
    ensures p == "medium" ==> r == "\U{1F7E1}"
    ensures p == "low" ==> r == "\U{1F7E2}"
  {
    if p == "high" then "\U{1F534}"
    else if p == "medium" then "\U{1F7E1}"
    else if p == "low" then "\U{1F7E2}"
    else ""
  }

  /** The type badge of the selected-day panel: four known types, and
      "Lainnya" for `other` and anything unknown. */
  function TypeBadgeLabel(t: string): (r: string)
    ensures r == "Lainnya" <==> t !in {"academic", "extracurricular", "holiday", "meeting"}
    ensures t in {"academic", "extracurricular", "holiday", "meeting"} ==> r == TypeLabel(t)
  {
    if t == "academic" then "Akademik"
    else if t == "extracurricular" then "Ekstrakurikuler"
    else if t == "holiday" then "Libur"
    else if t == "meeting" then "Rapat"
    else "Lainnya"
  }

  /** The state of the `EventCalendar` component: the month shown and the
      selected day. Both start on today, which is passed in. */
  class CalendarView {
    var currentMonth: Dates.Date
    var selectedDate: Option<Dates.Date>

    ghost predicate Valid()
      reads this
    {
      Dates.Valid(currentMonth) && (selectedDate.Some? ==> Dates.Valid(selectedDate.value))
    }

    constructor(today: Dates.Date)
      requires Dates.Valid(today)
      ensures Valid() && currentMonth == today && selectedDate == Some(today)
    {
      currentMonth := today;
      selectedDate := Some(today);
    }

    /** The left arrow: one month back; the selection stays. */
    method PreviousMonth()
      requires Valid()
      modifies this
      ensures Valid()
      ensures currentMonth == Dates.AddMonths(old(currentMonth), -1)
      ensures Dates.MonthNumber(currentMonth) == Dates.MonthNumber(old(currentMonth)) - 1
      ensures selectedDate == old(selectedDate)
    {
      currentMonth := Dates.AddMonths(currentMonth, -1);
    }

    /** The right arrow: one month forward; the selection stays. */
    method NextMonth()
      requires Valid()
      modifies this
      ensures Valid()
      ensures currentMonth == Dates.AddMonths(old(currentMonth), 1)
      ensures Dates.MonthNumber(currentMonth) == Dates.MonthNumber(old(currentMonth)) + 1
      ensures selectedDate == old(selectedDate)
    {
      currentMonth := Dates.AddMonths(currentMonth, 1);
    }

    /** The calendar's `onSelect`: a day, or none when it is deselected. */
    method Select(day: Option<Dates.Date>)
      requires Valid()
      requires day.Some? ==> Dates.Valid(day.value)
      modifies this
      ensures Valid() && selectedDate == day && currentMonth == old(currentMonth)
    {
      selectedDate := day;
    }

    /** The calendar's `onMonthChange`. */
    method ChangeMonth(month: Dates.Date)
      requires Valid() && Dates.Valid(month)
      modifies this
      ensures Valid() && currentMonth == month && selectedDate == old(selectedDate)
    {
      currentMonth := month;
    }

    /** The selected-day panel for the given events. */
    function DayPanelFor(events: seq<SchoolEvent>): (r: DayPanel)
      reads this
      ensures r.PickADate? <==> selectedDate == None
      ensures r.NoEventsOnDay? <==> selectedDate.Some? && EventsForSelected(events, selectedDate) == []
      ensures r.EventsOnDay? ==> r.events == EventsForSelected(events, selectedDate) != []
      ensures r.EventsOnDay? ==> forall e :: e in r.events <==> e in events && Dates.SameDay(e.date, selectedDate.value)
    {
      SelectedDayPanel(events, selectedDate)
    }

    /** The "this month" list for the given events. */
    function MonthListFor(events: seq<SchoolEvent>): (r: seq<SchoolEvent>)
      requires Valid()
      reads this
      ensures |r| == Min(|EventsInMonth(events, currentMonth)|, 5)
      ensures r == EventsInMonth(events, currentMonth)[..|r|]
      ensures forall e :: e in r ==> e in events && InMonth(e, currentMonth)
    {
      MonthList(events, currentMonth)
    }
  }
}
