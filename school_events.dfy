/** The school events screen (src/components/SchoolEvents.tsx): the list of
    events held in component state, the add / save / delete handlers, the
    search-and-type filter of the list view and the label maps. */
module SchoolEvents {
  import opened Wrappers
  import opened Lists
  import opened Text
  import Dates

  datatype SchoolEvent = SchoolEvent(
    id: int,
    title: string,
    description: string,
    date: Dates.Date,
    startTime: string,
    endTime: string,
    eventType: string,
    location: string,
    participants: seq<string>,
    priority: string,
    status: string)

  /** `Omit<SchoolEvent, 'id'>`: what the add form hands over. */
  datatype NewEvent = NewEvent(
    title: string,
    description: string,
    date: Dates.Date,
    startTime: string,
    endTime: string,
    eventType: string,
    location: string,
    participants: seq<string>,
    priority: string,
    status: string)

  function EventId(e: SchoolEvent): int
  {
    e.id
  }

  /** `{ ...newEvent, id }`. */
  function WithId(e: NewEvent, id: int): (r: SchoolEvent)
    ensures r.id == id && WithoutId(r) == e
  {
    SchoolEvent(id, e.title, e.description, e.date, e.startTime, e.endTime,
                e.eventType, e.location, e.participants, e.priority, e.status)
  }

  function WithoutId(e: SchoolEvent): NewEvent
  {
    NewEvent(e.title, e.description, e.date, e.startTime, e.endTime,
             e.eventType, e.location, e.participants, e.priority, e.status)
  }

  /** `Math.max(...events.map(e => e.id))`: an id of the list that no other
      id exceeds. */
  function MaxId(events: seq<SchoolEvent>): (r: int)
    requires events != []
    ensures forall i :: 0 <= i < |events| ==> events[i].id <= r
    ensures exists i :: 0 <= i < |events| && events[i].id == r
  {
    if |events| == 1 then events[0].id
    else
      var m := MaxId(events[1..]);
      if events[0].id >= m then events[0].id else m
  }

  /** The id `handleAddEvent` gives a new event: one more than the largest
      id, or 1 for an empty list. It is larger than every id in use. */
  function NextId(events: seq<SchoolEvent>): (r: int)
    ensures forall i :: 0 <= i < |events| ==> events[i].id < r
    ensures events == [] ==> r == 1
    ensures events != [] ==> exists i :: 0 <= i < |events| && r == events[i].id + 1
  {
    if |events| > 0 then MaxId(events) + 1 else 1
  }

  /** `events.map(event => event.id === updated.id ? updated : event)`: the
      events with the updated id are replaced, all others are untouched, and
      the ids are unchanged position by position. */
  function ReplaceEvent(events: seq<SchoolEvent>, updated: SchoolEvent): (r: seq<SchoolEvent>)
    ensures |r| == |events|
    ensures forall i :: 0 <= i < |events| && events[i].id == updated.id ==> r[i] == updated
    ensures forall i :: 0 <= i < |events| && events[i].id != updated.id ==> r[i] == events[i]
    ensures forall i :: 0 <= i < |events| ==> r[i].id == events[i].id
  {
    UpdateWhere(events, (e: SchoolEvent) => e.id == updated.id, (e: SchoolEvent) => updated)
  }

  /** `events.filter(event => event.id !== id)`: exactly the events with a
      different id, in their order. */
  function RemoveEvent(events: seq<SchoolEvent>, id: int): (r: seq<SchoolEvent>)
    ensures forall e :: e in r <==> e in events && e.id != id
    ensures IsSubsequence(r, events)
    ensures DistinctKeys(events, EventId) ==> DistinctKeys(r, EventId)
  {
    var keep := (e: SchoolEvent) => e.id != id;
    FilterIsSubsequence(events, keep);
    if DistinctKeys(events, EventId) then FilterKeepsDistinct(events, keep, EventId); Filter(events, keep)
    else Filter(events, keep)
  }

  /** The list view's condition: the lower-cased query occurs in the
      lower-cased title or description, and the type filter is `all` or the
      event's type. */
  predicate MatchesSearch(e: SchoolEvent, query: string, selectedType: string)
  {
    var q := ToLower(query);
    (Contains(ToLower(e.title), q) || Contains(ToLower(e.description), q)) &&
    (selectedType == "all" || e.eventType == selectedType)
  }

  /** `filteredEvents`: the events that match, in their order. */
  function FilterEvents(events: seq<SchoolEvent>, query: string, selectedType: string): (r: seq<SchoolEvent>)
    ensures forall e :: e in r <==> e in events && MatchesSearch(e, query, selectedType)
    ensures IsSubsequence(r, events)
  {
    var p := (e: SchoolEvent) => MatchesSearch(e, query, selectedType);
    FilterIsSubsequence(events, p);
    Filter(events, p)
  }

  /** With an empty query and the type filter on `all` the list shows every
      event, in order. */
  lemma UnfilteredShowsAll(events: seq<SchoolEvent>)
    ensures FilterEvents(events, "", "all") == events
  {
    forall e | e in events
      ensures MatchesSearch(e, "", "all")
    {
      EmptyContained(ToLower(e.title));
    }
    FilterKeepsAll(events, (e: SchoolEvent) => MatchesSearch(e, "", "all"));
  }

  /** A concrete type filter shows only events of that type. */
  lemma TypeFilterShowsThatType(events: seq<SchoolEvent>, query: string, selectedType: string, e: SchoolEvent)
    requires selectedType != "all" && e in FilterEvents(events, query, selectedType)
    ensures e.eventType == selectedType && e in events
  {
  }

  /** `getTypeLabel`: the Indonesian label of the five known types; any
      other string is shown as it is. */
  function TypeLabel(t: string): (r: string)
    ensures t == "academic" ==> r == "Akademik"
    ensures t == "extracurricular" ==> r == "Ekstrakurikuler"
    ensures t == "holiday" ==> r == "Libur"
    ensures t == "meeting" ==> r == "Rapat"
    ensures t == "other" ==> r == "Lainnya"
    ensures t !in {"academic", "extracurricular", "holiday", "meeting", "other"} ==> r == t
  {
    var labels := map["academic" := "Akademik", "extracurricular" := "Ekstrakurikuler",
                       "holiday" := "Libur", "meeting" := "Rapat", "other" := "Lainnya"];
    if t in labels then labels[t] else t
  }

  /** The priority label of the list and detail views: anything that is
      neither `low` nor `medium` reads "Tinggi". */
  function PriorityLabel(p: string): (r: string)
    ensures r == "Rendah" <==> p == "low"
    ensures r == "Sedang" <==> p == "medium"
    ensures r == "Tinggi" <==> p != "low" && p != "medium"
  {
    if p == "low" then "Rendah" else if p == "medium" then "Sedang" else "Tinggi"
  }

  /** The status label of the list and detail views: anything that is not
      scheduled, ongoing or completed reads "Dibatalkan". */
  function StatusLabel(s: string): (r: string)
    ensures r == "Terjadwal" <==> s == "scheduled"
    ensures r == "Berlangsung" <==> s == "ongoing"
    ensures r == "Selesai" <==> s == "completed"
    ensures r == "Dibatalkan" <==> s !in {"scheduled", "ongoing", "completed"}
  {
    if s == "scheduled" then "Terjadwal"
    else if s == "ongoing" then "Berlangsung"
    else if s == "completed" then "Selesai"
    else "Dibatalkan"
  }

  /** `getPriorityColor` of the list view: a badge class for the three
      priorities and no class for anything else. */
  function PriorityBadge(p: string): (r: string)
    ensures r == "" <==> p !in {"low", "medium", "high"}
    ensures p == "low" ==> r == "bg-green-100 text-green-800"
    ensures p == "medium" ==> r == "bg-yellow-100 text-yellow-800"
    ensures p == "high" ==> r == "bg-red-100 text-red-800"
  {
    if p == "low" then "bg-green-100 text-green-800"
    else if p == "medium" then "bg-yellow-100 text-yellow-800"
    else if p == "high" then "bg-red-100 text-red-800"
    else ""
  }

  /** `getStatusColor` of the list view: a badge class for the four
      statuses and no class for anything else. */
  function StatusBadge(s: string): (r: string)
    ensures r == "" <==> s !in {"scheduled", "ongoing", "completed", "cancelled"}
    ensures s == "scheduled" ==> r == "bg-blue-100 text-blue-800"
    ensures s == "ongoing" ==> r == "bg-orange-100 text-orange-800"
    ensures s == "completed" ==> r == "bg-green-100 text-green-800"
    ensures s == "cancelled" ==> r == "bg-gray-100 text-gray-800"
  {
    if s == "scheduled" then "bg-blue-100 text-blue-800"
    else if s == "ongoing" then "bg-orange-100 text-orange-800"
    else if s == "completed" then "bg-green-100 text-green-800"
    else if s == "cancelled" then "bg-gray-100 text-gray-800"
    else ""
  }

  /** The three events the screen starts with. */
  function SeedEvents(): (r: seq<SchoolEvent>)
    ensures DistinctKeys(r, EventId) && |r| == 3
  {
    [ SchoolEvent(1, "Rapat Guru Bulanan", "Rapat evaluasi pembelajaran bulan ini",
                  Dates.Date(2024, 1, 15), "08:00", "10:00", "meeting", "Ruang Rapat",
                  ["Guru Kelas", "Kepala Sekolah"], "high", "scheduled"),
      SchoolEvent(2, "Ujian Tengah Semester", "Ujian tengah semester untuk kelas 7-9",
                  Dates.Date(2024, 1, 20), "07:30", "11:30", "academic", "Seluruh Kelas",
                  ["Siswa Kelas 7", "Siswa Kelas 8", "Siswa Kelas 9"], "high", "scheduled"),
      SchoolEvent(3, "Hari Libur Nasional", "Hari kemerdekaan Indonesia",
                  Dates.Date(2024, 8, 17), "00:00", "23:59", "holiday", "-",
                  [], "medium", "scheduled") ]
  }

  datatype View = ListView | DetailView

  /** What the screen renders. */
  datatype Screen = EventList(shown: seq<SchoolEvent>) | EventDetailOf(event: SchoolEvent)

  /** The state of the `SchoolEvents` component. */
  class EventsScreen {
    var view: View
    var searchQuery: string
    var selectedType: string
    var selectedEvent: Option<SchoolEvent>
    var events: seq<SchoolEvent>

    /** Event ids stay pairwise distinct. */
    ghost predicate Valid()
      reads this
    {
      DistinctKeys(events, EventId)
    }

    constructor()
      ensures Valid()
      ensures events == SeedEvents() && view == ListView && selectedEvent == None
      ensures searchQuery == "" && selectedType == "all"
    {
      view := ListView;
      searchQuery := "";
      selectedType := "all";
      selectedEvent := None;
      events := SeedEvents();
    }

    /** `handleAddEvent`: one event with a fresh id is appended at the end;
      the events before it are unchanged. */
    method AddEvent(e: NewEvent)
      requires Valid()
      modifies this
      ensures Valid()
      ensures events == old(events) + [WithId(e, NextId(old(events)))]
      ensures forall i :: 0 <= i < |old(events)| ==> old(events)[i].id != events[|events| - 1].id
      ensures view == old(view) && selectedEvent == old(selectedEvent)
      ensures searchQuery == old(searchQuery) && selectedType == old(selectedType)
    {
      var added := WithId(e, NextId(events));
      AppendKeepsDistinct(events, added, EventId);
      events := events + [added];
    }

    /** `handleSaveEvent`: events with the updated id are replaced, the
      others stay, and the updated event becomes the selected one. */
    method SaveEvent(updated: SchoolEvent)
      requires Valid()
      modifies this
      ensures Valid()
      ensures events == ReplaceEvent(old(events), updated)
      ensures selectedEvent == Some(updated)
      ensures view == old(view) && searchQuery == old(searchQuery) && selectedType == old(selectedType)
    {
      var r := ReplaceEvent(events, updated);
      assert forall i :: 0 <= i < |r| ==> EventId(r[i]) == EventId(events[i]);
      events := r;
      selectedEvent := Some(updated);
    }

    /** `handleDeleteEvent`, with the answer of `window.confirm` as
      `confirmed`: nothing changes without confirmation; otherwise the events
      with that id go, and if the selected event was one of them the screen
      returns to the list with nothing selected. */
    method DeleteEvent(id: int, confirmed: bool)
      requires Valid()
      modifies this
      ensures Valid()
      ensures !confirmed ==> events == old(events) && view == old(view) && selectedEvent == old(selectedEvent)
      ensures confirmed ==> events == RemoveEvent(old(events), id)
      ensures confirmed && old(selectedEvent).Some? && old(selectedEvent).value.id == id ==>
                view == ListView && selectedEvent == None
      ensures !(confirmed && old(selectedEvent).Some? && old(selectedEvent).value.id == id) ==>
                view == old(view) && selectedEvent == old(selectedEvent)
      ensures searchQuery == old(searchQuery) && selectedType == old(selectedType)
    {
      if confirmed {
        events := RemoveEvent(events, id);
        if selectedEvent.Some? && selectedEvent.value.id == id {
          view := ListView;
          selectedEvent := None;
        }
      }
    }

    /** `handleViewDetails`. */
    method ViewDetails(e: SchoolEvent)
      modifies this
      ensures selectedEvent == Some(e) && view == DetailView
      ensures events == old(events) && searchQuery == old(searchQuery) && selectedType == old(selectedType)
    {
      selectedEvent := Some(e);
      view := DetailView;
    }

    /** The detail view's back button. */
    method Back()
      modifies this
      ensures view == ListView
      ensures events == old(events) && selectedEvent == old(selectedEvent)
      ensures searchQuery == old(searchQuery) && selectedType == old(selectedType)
    {
      view := ListView;
    }

    /** The search input. */
    method SetSearchQuery(q: string)
      modifies this
      ensures searchQuery == q && selectedType == old(selectedType)
      ensures events == old(events) && view == old(view) && selectedEvent == old(selectedEvent)
    {
      searchQuery := q;
    }

    /** The type select. */
    method SetSelectedType(t: string)
      modifies this
      ensures selectedType == t && searchQuery == old(searchQuery)
      ensures events == old(events) && view == old(view) && selectedEvent == old(selectedEvent)
    {
      selectedType := t;
    }

    /** The detail screen of the selected event while the view is `detail`
      and an event is selected; the filtered list otherwise. */
    function Shown(): (r: Screen)
      reads this
      ensures r.EventDetailOf? <==> view == DetailView && selectedEvent.Some?
      ensures r.EventList? ==> r.shown == FilterEvents(events, searchQuery, selectedType)
    {
      if view == DetailView && selectedEvent.Some? then EventDetailOf(selectedEvent.value)
      else EventList(FilterEvents(events, searchQuery, selectedType))
    }
  }
}
