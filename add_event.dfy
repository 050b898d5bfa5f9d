/** The "add event" dialog (src/components/AddEvent.tsx): its form state,
    the required-field check of the submit handler, the event it builds and
    the reset that follows. */
module AddEvent {
  import opened Wrappers
  import Dates
  import opened SchoolEvents
  import Participants

  /** The dialog's `formData`; the date is `undefined` until one is picked
      and the participants are one free-text field. */
  datatype Form = Form(
    title: string,
    description: string,
    date: Option<Dates.Date>,
    startTime: string,
    endTime: string,
    eventType: string,
    location: string,
    participants: string,
    priority: string,
    status: string)

  /** The values the form starts with and is reset to: everything empty,
      no date, status `scheduled`. */
  function InitialForm(): (f: Form)
    ensures f.status == "scheduled" && f.date == None
    ensures f.title == f.description == f.startTime == f.endTime == ""
    ensures f.eventType == f.location == f.participants == f.priority == ""
  {
    Form("", "", None, "", "", "", "", "", "", "scheduled")
  }

  /** The guard of `handleSubmit`: title, date, start time, end time, type
      and priority are filled in. */
  predicate IsComplete(f: Form)
  {
    f.title != "" && f.date.Some? && f.startTime != "" && f.endTime != "" &&
    f.eventType != "" && f.priority != ""
  }

  /** Description, location and participants are not required: changing
      them never turns a complete form into an incomplete one. */
  lemma OptionalFields(f: Form, description: string, location: string, participants: string)
    requires IsComplete(f)
    ensures IsComplete(f.(description := description, location := location, participants := participants))
  {
  }

  /** A form with nothing filled in is not complete. */
  lemma InitialFormIncomplete()
    ensures !IsComplete(InitialForm())
  {
  }

  /** The event `handleSubmit` hands to `onAddEvent`: every field copied
      from the form, and the participants parsed into clean names. */
  function BuildEvent(f: Form): (e: NewEvent)
    requires f.date.Some?
    ensures e.title == f.title && e.description == f.description && e.date == f.date.value
    ensures e.startTime == f.startTime && e.endTime == f.endTime && e.eventType == f.eventType
    ensures e.location == f.location && e.priority == f.priority && e.status == f.status
    ensures Participants.AllClean(e.participants)
    ensures e.participants == Participants.Parse(f.participants)
  {
    NewEvent(f.title, f.description, f.date.value, f.startTime, f.endTime, f.eventType,
             f.location, Participants.Parse(f.participants), f.priority, f.status)
  }

  /** An empty participants field, or one of commas and blanks, gives an
      event without participants. */
  lemma BlankParticipants(f: Form)
    requires f.date.Some?
    requires forall c :: c in f.participants ==> c == ',' || Text.IsWhitespace(c)
    ensures BuildEvent(f).participants == []
  {
    Participants.ParseBlank(f.participants);
  }

  /** The state of the `AddEvent` component. */
  class AddEventDialog {
    var open: bool
    var form: Form

    constructor()
      ensures !open && form == InitialForm()
    {
      open := false;
      form := InitialForm();
    }

    /** The dialog's `onOpenChange`; the cancel button closes it. */
    method SetOpen(value: bool)
      modifies this
      ensures open == value && form == old(form)
    {
      open := value;
    }

    /** The text inputs and selects, which write the fields they are bound
      to. */
    method Enter(f: Form)
      modifies this
      ensures form == f && open == old(open)
    {
      form := f;
    }

    /** The calendar's `onSelect`: the picked day, or no date when the
      selection is cleared. */
    method PickDate(day: Option<Dates.Date>)
      modifies this
      ensures form == old(form).(date := day) && open == old(open)
    {
      form := form.(date := day);
    }

    /** `handleSubmit`. An incomplete form emits nothing and changes
      nothing (the alert is not modelled). A complete one emits the built
      event, resets the form and closes the dialog. */
    method Submit() returns (emitted: Option<NewEvent>)
      modifies this
      ensures !IsComplete(old(form)) ==> emitted == None && form == old(form) && open == old(open)
      ensures IsComplete(old(form)) ==>
                emitted == Some(BuildEvent(old(form))) && form == InitialForm() && !open
    {
      if !IsComplete(form) {
        return None;
      }
      emitted := Some(BuildEvent(form));
      form := InitialForm();
      open := false;
    }
  }
}
