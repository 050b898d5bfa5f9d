/** The event detail view (src/components/EventDetail.tsx): the edit form
    filled from the event, the save handler that rebuilds the event from the
    form, and the colour maps of the view. */
module EventDetail {
  import Dates
  import opened Wrappers
  import opened SchoolEvents
  import Participants

  /** The view's `formData`: the event's fields, with the participants as
      one comma-separated string. */
  datatype Form = Form(
    title: string,
    description: string,
    date: Dates.Date,
    startTime: string,
    endTime: string,
    eventType: string,
    location: string,
    participants: string,
    priority: string,
    status: string)

  /** The initial `formData`: the event's fields, participants joined with
      ", ". */
  function FormOf(e: SchoolEvent): (f: Form)
    ensures f.participants == Participants.Format(e.participants)
    ensures f.title == e.title && f.description == e.description && f.date == e.date
    ensures f.startTime == e.startTime && f.endTime == e.endTime && f.eventType == e.eventType
    ensures f.location == e.location && f.priority == e.priority && f.status == e.status
  {
    Form(e.title, e.description, e.date, e.startTime, e.endTime, e.eventType,
         e.location, Participants.Format(e.participants), e.priority, e.status)
  }

  /** The event `handleSave` builds: `{ ...event, <form fields> }`. Every
      field but the id comes from the form, so the id is the original's. */
  function Updated(e: SchoolEvent, f: Form): (r: SchoolEvent)
    ensures r.id == e.id
    ensures r.title == f.title && r.description == f.description && r.date == f.date
    ensures r.startTime == f.startTime && r.endTime == f.endTime && r.eventType == f.eventType
    ensures r.location == f.location && r.priority == f.priority && r.status == f.status
    ensures r.participants == Participants.Parse(f.participants)
    ensures Participants.AllClean(r.participants)
  {
    e.(title := f.title, description := f.description, date := f.date,
       startTime := f.startTime, endTime := f.endTime, eventType := f.eventType,
       location := f.location, participants := Participants.Parse(f.participants),
       priority := f.priority, status := f.status)
  }

  /** Saving without editing gives back the event itself, provided its
      participant names are clean (non-empty, trimmed, comma-free). */
  lemma SaveUneditedKeepsEvent(e: SchoolEvent)
    requires Participants.AllClean(e.participants)
    ensures Updated(e, FormOf(e)) == e
  {
    Participants.ParseFormat(e.participants);
  }

  /** A saved event, opened and saved again without edits, stays as it
      is. */
  lemma SaveIsStable(e: SchoolEvent, f: Form)
    ensures Updated(Updated(e, f), FormOf(Updated(e, f))) == Updated(e, f)
  {
    SaveUneditedKeepsEvent(Updated(e, f));
  }

  /** `getPriorityColor` of the detail view: a text class for the three
      priorities and no class for anything else. */
  function PriorityColor(p: string): (r: string)
    ensures r == "" <==> p !in {"low", "medium", "high"}
    ensures p == "low" ==> r == "text-green-600"
    ensures p == "medium" ==> r == "text-yellow-600"
    ensures p == "high" ==> r == "text-red-600"
  {
    if p == "low" then "text-green-600"
    else if p == "medium" then "text-yellow-600"
    else if p == "high" then "text-red-600"
    else ""
  }

  /** `getStatusColor` of the detail view: a text class for the four
      statuses and no class for anything else. */
  function StatusColor(s: string): (r: string)
    ensures r == "" <==> s !in {"scheduled", "ongoing", "completed", "cancelled"}
    ensures s == "scheduled" ==> r == "text-blue-600"
    ensures s == "ongoing" ==> r == "text-orange-600"
    ensures s == "completed" ==> r == "text-green-600"
    ensures s == "cancelled" ==> r == "text-gray-600"
  {
    if s == "scheduled" then "text-blue-600"
    else if s == "ongoing" then "text-orange-600"
    else if s == "completed" then "text-green-600"
    else if s == "cancelled" then "text-gray-600"
    else ""
  }

  /** The state of the `EventDetail` component for one event. */
  class EventDetailView {
    const event: SchoolEvent
    var isEditing: bool
    var form: Form

    constructor(event: SchoolEvent)
      ensures this.event == event && !isEditing && form == FormOf(event)
    {
      this.event := event;
      isEditing := false;
      form := FormOf(event);
    }

    /** The edit button. */
    method StartEditing()
      modifies this
      ensures isEditing && form == old(form)
    {
      isEditing := true;
    }

    /** The cancel button: leaves editing mode; the form keeps its edits. */
    method CancelEditing()
      modifies this
      ensures !isEditing && form == old(form)
    {
      isEditing := false;
    }

    /** The inputs and selects of the edit form, which write the fields
      they are bound to. */
    method Enter(f: Form)
      modifies this
      ensures form == f && isEditing == old(isEditing)
    {
      form := f;
    }

    /** The calendar's `onSelect`: the picked day, or `today` (standing for
      `new Date()`) when the selection is cleared, so the form always has a
      date. */
    method PickDate(day: Option<Dates.Date>, today: Dates.Date)
      modifies this
      ensures day.Some? ==> form == old(form).(date := day.value)
      ensures day.None? ==> form == old(form).(date := today)
      ensures isEditing == old(isEditing)
    {
      form := form.(date := if day.Some? then day.value else today);
    }

    /** `handleSave`: hands the rebuilt event to `onSave` (returned here)
      and leaves editing mode. */
    method Save() returns (saved: SchoolEvent)
      modifies this
      ensures saved == Updated(event, old(form))
      ensures saved.id == event.id
      ensures !isEditing && form == old(form)
    {
      saved := Updated(event, form);
      isEditing := false;
    }
  }
}
