# Sekolah Pintar SMP — a Dafny model of the school administration wireframe

Sekolah Pintar SMP is a browser wireframe for running a junior high school. It is a
single page with a sign-in gate, a role-dependent sidebar and bottom bar, and
screens for events, teachers, subjects, teacher-to-subject assignments,
announcements, students and billing. Every screen keeps its data in component
state that its handlers replace. This project models the logic of those
screens, not their markup:

- which navigation entries each role sees and which screen the active view selects;
- the events screen:
  - the event list and its search-and-type filter;
  - the add dialog with its required fields;
  - the detail view with its edit form and save;
  - the calendar with its day markers, selected-day panel and "this month" list;
- the master lists of teachers and subjects, each with one add/edit dialog;
- the teacher-to-subject assignments, with their duplicate check;
- the announcement board, newest first, with one form for writing and editing;
- the student detail form and the schema of the add-student dialog;
- the paid and unpaid tabs of the billing screen.

**How the model is built:**

- Each stateful component is a Dafny `class`. Its fields are the component's
  state variables, and each handler is a `method`. The method's `ensures`
  states the whole new state in terms of the old one.
- The list updates the handlers perform are specification functions on `seq`
  (`ReplaceTeacher`, `RemoveEvent`, `Revise`, …). Lemmas state what those
  functions preserve: ids stay distinct, order is kept, and saving unchanged
  data is a no-op.
- Pure helpers are functions whose contracts give both directions of each
  case split: label maps, colour maps and the visibility rule.
- The JavaScript library operations the screens rely on are modelled once in
  shared modules:
  - `Lists` models `filter`, `map`, `find` and replace-by-condition.
  - `Text` models `toLowerCase`, `includes`, `trim`, `split(',')` and `join`.
  - `Dates` models the date-fns calls `isSameDay`, `startOfMonth`,
    `endOfMonth`, `addMonths` and `subMonths`.
  - `Participants` models the participants text field, a comma-separated
    list. It proves that reading back the displayed list gives the list.

**Values the browser supplies become parameters:**

- `Date.now()`, used as a fresh id, becomes `newId`.
- `new Date()` becomes `now` or `today`.
- The answer to `window.confirm` becomes the boolean `confirmed`.
- Which toast a handler shows becomes an `Outcome` value, where it matters.

## Model

| member | source | states |
|---|---|---|
| Lists.Filter | src/components/BillingInvoice.tsx:48-49 | `filter`: the result is no longer than the input; an element is in it iff it is in the input and meets the condition |
| Lists.Map | src/components/AddEvent.tsx:50 | `map`: same length, element i is f of input element i |
| Lists.Find | src/components/TeacherSubjectMapping.tsx:92-94 | `find`: none iff no element meets the condition; otherwise the first element that does |
| Lists.UpdateWhere | src/components/MasterTeacher.tsx:54-58 | `map(x => cond ? f(x) : x)`: same length; matching elements replaced by f, the others kept in place |
| Lists.FilterCons | src/components/BillingInvoice.tsx:48 | one filter step: the head is kept exactly when it meets the condition |
| Lists.FilterIsSubsequence | src/components/SchoolEvents.tsx:102-107 | a filtered list keeps the input's order (is a subsequence of it) |
| Lists.FilterIdempotent | src/components/DesktopSidebar.tsx:36-40 | filtering twice with one condition equals filtering once |
| Lists.FilterKeepsAll | src/components/SchoolEvents.tsx:102-107 | a condition every element meets keeps the whole list |
| Lists.FilterKeepsNone | src/components/AddEvent.tsx:50 | a condition no element meets leaves the empty list |
| Lists.FilterAppend | src/components/BillingInvoice.tsx:48-49 | filtering distributes over concatenation |
| Lists.FilterPartition | src/components/BillingInvoice.tsx:48-49 | a condition and its negation split a list: multisets and lengths add up to the input's |
| Lists.FilterKeepsDistinct | src/components/MasterTeacher.tsx:93 | deleting elements keeps keys pairwise distinct |
| Lists.AppendKeepsDistinct | src/components/MasterTeacher.tsx:69 | appending an element with an unused key keeps keys distinct |
| Lists.DistinctCons | src/components/AnnouncementManagement.tsx:74 | prepending an element with an unused key keeps keys distinct |
| Lists.UpdateKeepsDistinct | src/components/MasterTeacher.tsx:54-58 | replacing elements by ones with the same key keeps keys distinct |
| Text.LowerChar | src/components/SchoolEvents.tsx:103 | lower-casing a character leaves no ASCII capital and keeps every other character |
| Text.ToLower | src/components/SchoolEvents.tsx:103-104 | `toLowerCase`: same length, no ASCII capital left, every other character unchanged |
| Text.EmptyContained | src/components/SchoolEvents.tsx:103-104 | the empty query occurs in every string (`includes('')` is true) |
| Text.ContainedIsShorter | src/components/SchoolEvents.tsx:103-104 | a string that `includes` finds is no longer than the string searched |
| Text.TrimStart | src/components/AddEvent.tsx:50 | removes exactly a whitespace prefix; the rest does not start with whitespace |
| Text.TrimEnd | src/components/AddEvent.tsx:50 | removes exactly a whitespace suffix; the rest does not end with whitespace |
| Text.Trim | src/components/AddEvent.tsx:50 | `trim`: the result is the input with a whitespace prefix and a whitespace suffix removed; it neither starts nor ends with whitespace, so exactly the outer whitespace goes; it is the input when that is already trimmed |
| Text.TrimIsInfix | src/components/AddEvent.tsx:50 | removing leading, then trailing whitespace leaves the infix between two whitespace-only ends |
| Text.TrimBlank | src/components/AddEvent.tsx:50 | whitespace only trims to the empty string |
| Text.TrimAfterBlank | src/components/AddEvent.tsx:50 | whitespace in front of a trimmed non-empty string is trimmed away |
| Text.Split | src/components/AddEvent.tsx:50 | `split(',')`: at least one piece, no piece holds a comma, pieces consist of input characters |
| Text.JoinSplit | src/components/EventDetail.tsx:32 | joining the comma pieces with "," gives back the string |
| Text.SplitNoComma | src/components/AddEvent.tsx:50 | a comma-free string splits into itself alone |
| Text.SplitAtComma | src/components/AddEvent.tsx:50 | a comma after a comma-free prefix ends the first piece |
| Participants.Parse | src/components/AddEvent.tsx:50 | split, trim, drop empties: every name is non-empty, trimmed and comma-free |
| Participants.ParseBlank | src/components/AddEvent.tsx:50 | a field of only commas and whitespace gives no participants |
| Participants.ParseFormat | src/components/EventDetail.tsx:32-47 | parsing the ", "-joined list of clean names gives the list back (display/save round trip) |
| Participants.ParseStable | src/components/EventDetail.tsx:32-47 | parse, display, parse gives what the first parse gave |
| Dates.DaysInMonth | src/components/EventCalendar.tsx:186 | 28 to 31 days; 29 in February iff leap year; 30 exactly for April, June, September, November |
| Dates.StartOfMonth | src/components/EventCalendar.tsx:186 | `startOfMonth`: a valid day of the same month, not after the given day |
| Dates.EndOfMonth | src/components/EventCalendar.tsx:186 | `endOfMonth`: a valid day of the same month, not before the given day |
| Dates.AddMonths | src/components/EventCalendar.tsx:89-96 | `addMonths`/`subMonths`: a valid day exactly n months on, the day clamped to the target month's length |
| Dates.InMonthRange | src/components/EventCalendar.tsx:184-187 | a valid day lies between start and end of a month iff it has that month's year and month |
| Dates.NextThenPrevious | src/components/EventCalendar.tsx:89-96 | one month forward then one back returns to the starting month |
| SchoolEvents.WithId | src/components/SchoolEvents.tsx:77 | `{ ...newEvent, id }`: carries the id, and dropping the id gives the new event back |
| SchoolEvents.MaxId | src/components/SchoolEvents.tsx:76 | `Math.max` of the ids: an id of the list that no id exceeds |
| SchoolEvents.NextId | src/components/SchoolEvents.tsx:76 | the new id is above every id in use; 1 for an empty list, else some id plus one |
| SchoolEvents.ReplaceEvent | src/components/SchoolEvents.tsx:81-83 | events with the updated id replaced, others untouched, ids unchanged position by position |
| SchoolEvents.RemoveEvent | src/components/SchoolEvents.tsx:89 | exactly the events with another id, in order; distinct ids stay distinct |
| SchoolEvents.FilterEvents | src/components/SchoolEvents.tsx:102-107 | an event is listed iff it is in the list and its lower-cased title or description contains the lower-cased query and the type is `all` or its own; order kept |
| SchoolEvents.UnfilteredShowsAll | src/components/SchoolEvents.tsx:28-29 | with the initial empty query and type `all`, every event is listed in order |
| SchoolEvents.TypeFilterShowsThatType | src/components/SchoolEvents.tsx:105 | a concrete type filter lists only events of that type |
| SchoolEvents.TypeLabel | src/components/SchoolEvents.tsx:109-118 | Indonesian label for the five types; any other string shown as is |
| SchoolEvents.PriorityLabel | src/components/SchoolEvents.tsx:238-239 | "Rendah" iff low, "Sedang" iff medium, "Tinggi" iff neither |
| SchoolEvents.StatusLabel | src/components/SchoolEvents.tsx:244-246 | "Terjadwal"/"Berlangsung"/"Selesai" iff that status, "Dibatalkan" for every other |
| SchoolEvents.PriorityBadge | src/components/SchoolEvents.tsx:120-127 | no class iff the priority is unknown; the badge class of each of low, medium and high |
| SchoolEvents.StatusBadge | src/components/SchoolEvents.tsx:129-137 | no class iff the status is unknown; the badge class of each of the four statuses |
| SchoolEvents.SeedEvents | src/components/SchoolEvents.tsx:33-73 | three initial events with distinct ids |
| SchoolEvents.EventsScreen.constructor | src/components/SchoolEvents.tsx:27-33 | list view, empty query, type `all`, nothing selected, the seed events |
| SchoolEvents.EventsScreen.AddEvent | src/components/SchoolEvents.tsx:75-78 | appends the event with a fresh id above all others; ids stay distinct; nothing else changes |
| SchoolEvents.EventsScreen.SaveEvent | src/components/SchoolEvents.tsx:80-85 | events replaced by id, the saved event selected, ids stay distinct |
| SchoolEvents.EventsScreen.DeleteEvent | src/components/SchoolEvents.tsx:87-95 | unconfirmed: nothing changes; confirmed: events with the id removed, and back to the list with nothing selected iff the selected event was removed |
| SchoolEvents.EventsScreen.ViewDetails | src/components/SchoolEvents.tsx:97-100 | selects the event and switches to the detail view |
| SchoolEvents.EventsScreen.Back | src/components/SchoolEvents.tsx:143 | back to the list view, selection kept |
| SchoolEvents.EventsScreen.SetSearchQuery | src/components/SchoolEvents.tsx:181 | only the query changes |
| SchoolEvents.EventsScreen.SetSelectedType | src/components/SchoolEvents.tsx:184 | only the type filter changes |
| SchoolEvents.EventsScreen.Shown | src/components/SchoolEvents.tsx:139-148 | the detail screen iff the view is detail and an event is selected, otherwise the filtered list |
| AddEvent.InitialForm | src/components/AddEvent.tsx:21-32 | every field empty, no date, status `scheduled` |
| AddEvent.OptionalFields | src/components/AddEvent.tsx:37 | description, location and participants never decide completeness |
| AddEvent.InitialFormIncomplete | src/components/AddEvent.tsx:37 | the initial form does not pass the required-field check |
| AddEvent.BuildEvent | src/components/AddEvent.tsx:42-53 | every field copied from the form; participants parsed into clean names |
| AddEvent.BlankParticipants | src/components/AddEvent.tsx:50 | a blank participants field gives an event without participants |
| AddEvent.AddEventDialog.constructor | src/components/AddEvent.tsx:20-32 | closed, initial form |
| AddEvent.AddEventDialog.SetOpen | src/components/AddEvent.tsx:75 | only the open flag changes |
| AddEvent.AddEventDialog.Enter | src/components/AddEvent.tsx:94 | only the form changes |
| AddEvent.AddEventDialog.PickDate | src/components/AddEvent.tsx:131 | only the form's date changes, cleared when the selection is |
| AddEvent.AddEventDialog.Submit | src/components/AddEvent.tsx:34-72 | incomplete form: nothing emitted or changed; complete form: the built event emitted, form reset, dialog closed |
| EventDetail.FormOf | src/components/EventDetail.tsx:24-35 | every editable field of the event (title, description, date, times, type, location, priority, status), participants joined with ", " |
| EventDetail.Updated | src/components/EventDetail.tsx:37-50 | id from the event, every other field from the form, participants parsed and clean |
| EventDetail.SaveUneditedKeepsEvent | src/components/EventDetail.tsx:24-50 | saving an unedited form gives the event back, when its participant names are clean |
| EventDetail.SaveIsStable | src/components/EventDetail.tsx:24-50 | a saved event, saved again without edits, is unchanged |
| EventDetail.PriorityColor | src/components/EventDetail.tsx:67-74 | no class iff the priority is unknown; green, yellow and red text for low, medium and high |
| EventDetail.StatusColor | src/components/EventDetail.tsx:76-84 | no class iff the status is unknown; blue, orange, green and grey text for scheduled, ongoing, completed and cancelled |
| EventDetail.EventDetailView.constructor | src/components/EventDetail.tsx:22-35 | not editing, form filled from the event |
| EventDetail.EventDetailView.StartEditing | src/components/EventDetail.tsx:103 | editing on, form kept |
| EventDetail.EventDetailView.CancelEditing | src/components/EventDetail.tsx:114 | editing off, form (with its edits) kept |
| EventDetail.EventDetailView.Enter | src/components/EventDetail.tsx:136 | only the form changes |
| EventDetail.EventDetailView.PickDate | src/components/EventDetail.tsx:169 | the picked day, or today when the selection is cleared |
| EventDetail.EventDetailView.Save | src/components/EventDetail.tsx:37-54 | hands over the rebuilt event with the original id; editing off |
| EventCalendar.EventsOn | src/components/EventCalendar.tsx:21-23 | exactly the events on that day, in order |
| EventCalendar.EventsForSelected | src/components/EventCalendar.tsx:25-28 | nothing without a selected day, otherwise the day's events |
| EventCalendar.DayIndicator | src/components/EventCalendar.tsx:51-74 | no markers iff no events; dots for the first min(n, 3) events; an overflow count iff n > 3, equal to n − 3 |
| EventCalendar.DayIndicatorCountsAll | src/components/EventCalendar.tsx:60-69 | dots plus overflow count equal the day's events |
| EventCalendar.SelectedDayPanel | src/components/EventCalendar.tsx:127-173 | prompt iff no day selected; "no events" iff the day has none; otherwise the day's events |
| EventCalendar.EventsInMonth | src/components/EventCalendar.tsx:184-187 | exactly the events between the start and end of the month, in order |
| EventCalendar.EventsInMonthByCalendar | src/components/EventCalendar.tsx:184-187 | for real days: in the month iff same year and month |
| EventCalendar.MonthList | src/components/EventCalendar.tsx:183-188 | the first min(n, 5) events of the month |
| EventCalendar.MonthMessage | src/components/EventCalendar.tsx:205-209 | "no events" message iff the list is empty; list uncut iff at most five events |
| EventCalendar.TypeColor | src/components/EventCalendar.tsx:30-39 | grey iff not one of the four coloured types; blue, green, red and yellow for academic, extracurricular, holiday and meeting |
| EventCalendar.PriorityIcon | src/components/EventCalendar.tsx:41-48 | no icon iff the priority is unknown; red, yellow and green circle for high, medium and low |
| EventCalendar.TypeBadgeLabel | src/components/EventCalendar.tsx:161-164 | "Lainnya" iff not one of four types; otherwise the type label of the list view |
| EventCalendar.CalendarView.constructor | src/components/EventCalendar.tsx:18-19 | month and selection both today |
| EventCalendar.CalendarView.PreviousMonth | src/components/EventCalendar.tsx:89 | exactly one month back, selection kept |
| EventCalendar.CalendarView.NextMonth | src/components/EventCalendar.tsx:96 | exactly one month on, selection kept |
| EventCalendar.CalendarView.Select | src/components/EventCalendar.tsx:107 | the selection becomes the day or none; month kept |
| EventCalendar.CalendarView.ChangeMonth | src/components/EventCalendar.tsx:109 | the month becomes the given one; selection kept |
| EventCalendar.CalendarView.DayPanelFor | src/components/EventCalendar.tsx:127-173 | prompt iff nothing selected; "no events" iff a day is selected and has none; otherwise exactly the events on the selected day, in list order |
| EventCalendar.CalendarView.MonthListFor | src/components/EventCalendar.tsx:183-188 | the first min(n, 5) of the n events of the current month, in list order |
| DesktopSidebar.NavItems | src/components/DesktopSidebar.tsx:26-34 | seven entries; only billing has a `showFor` list |
| DesktopSidebar.IsVisible | src/components/DesktopSidebar.tsx:36-40 | a role in `showFor` sees the item; else a role in `hideFor` does not; a role in neither does |
| DesktopSidebar.FilterVisible | src/components/DesktopSidebar.tsx:36-40 | exactly the visible items, in order |
| DesktopSidebar.FilterVisibleIdempotent | src/components/DesktopSidebar.tsx:36-40 | filtering the filtered items again changes nothing |
| DesktopSidebar.SidebarItems | src/components/DesktopSidebar.tsx:26-40 | at most seven, in drawing order, exactly those visible to the role |
| DesktopSidebar.DashboardAndMessagesForAll | src/components/DesktopSidebar.tsx:27-32 | dashboard and messages are shown to every role |
| DesktopSidebar.ScheduleAndAttendance | src/components/DesktopSidebar.tsx:28-30 | schedule and attendance shown iff the role is not `tata-usaha` |
| DesktopSidebar.StudentsHiddenFromTeacher | src/components/DesktopSidebar.tsx:29 | students shown iff the role is not `teacher` |
| DesktopSidebar.BillingForAll | src/components/DesktopSidebar.tsx:31 | billing is shown to every role, `teacher` included |
| DesktopSidebar.AnnouncementsForAdmin | src/components/DesktopSidebar.tsx:33 | announcements shown iff the role is neither `teacher` nor `tata-usaha` |
| DesktopSidebar.ShowForWins | src/components/DesktopSidebar.tsx:37-38 | `showFor` overrides `hideFor` |
| DesktopSidebar.RoleLabel | src/components/DesktopSidebar.tsx:80-82 | "Admin Sekolah" iff admin, "Guru" iff teacher, "Tata Usaha" for every other role |
| DesktopSidebar.RoleEmail | src/components/DesktopSidebar.tsx:85-87 | the e-mail address by the same three-way split |
| MobileNavigation.NavItems | src/components/MobileNavigation.tsx:13-19 | five entries; administrator-only iff students |
| MobileNavigation.BarItems | src/components/MobileNavigation.tsx:21-23 | all entries for `admin`; otherwise exactly the entries that are not administrator-only, in order |
| MobileNavigation.BarItemsForNonAdmin | src/components/MobileNavigation.tsx:21-23 | a non-administrator gets dashboard, schedule, attendance, messages |
| MobileNavigation.BarItemsIdempotent | src/components/MobileNavigation.tsx:21-23 | re-filtering changes nothing; five entries for admin, four otherwise |
| IndexPage.RoleDashboard | src/pages/Index.tsx:48 | the administrator dashboard iff the role is `admin`, else the teacher dashboard |
| IndexPage.RenderActiveView | src/pages/Index.tsx:45-64 | each of the six view ids selects its own screen and only it does; every other id selects the role's dashboard |
| IndexPage.FixedViewsIgnoreRole | src/pages/Index.tsx:49-60 | the six fixed screens do not depend on the role |
| IndexPage.Render | src/pages/Index.tsx:66-97 | sign-in form iff signed out; otherwise sidebar, content and bottom bar for the role and view |
| IndexPage.SignedOutShowsSignIn | src/pages/Index.tsx:66-72 | signed out, the page is the sign-in form whatever role and view |
| IndexPage.WelcomeName | src/pages/Index.tsx:32 | "Admin" iff admin, "Guru" otherwise |
| IndexPage.Session.constructor | src/pages/Index.tsx:19-21 | signed out, role `admin`, view `dashboard` |
| IndexPage.Session.Login | src/pages/Index.tsx:24-34 | signed in with the chosen role on the dashboard; the greeting name; content is the role's dashboard |
| IndexPage.Session.Logout | src/pages/Index.tsx:36-39 | signed out, role reset to `admin`, view kept; the page is the sign-in form |
| IndexPage.Session.Navigate | src/pages/Index.tsx:41-43 | only the active view changes |
| IndexPage.Session.Current | src/pages/Index.tsx:66-72 | sign-in form iff signed out; otherwise the active view's screen |
| MasterTeacher.EmptyForm | src/components/MasterTeacher.tsx:42-47 | all four fields empty |
| MasterTeacher.FormOf | src/components/MasterTeacher.tsx:83-88 | the teacher's four editable fields |
| MasterTeacher.Merge | src/components/MasterTeacher.tsx:56 | `{ ...teacher, ...formData }`: id and subjects kept, the editable fields are the form's |
| MasterTeacher.MergeOwnForm | src/components/MasterTeacher.tsx:56 | merging a teacher's own form changes nothing |
| MasterTeacher.MergeTwice | src/components/MasterTeacher.tsx:56 | a second merge overrides the first completely |
| MasterTeacher.NewTeacher | src/components/MasterTeacher.tsx:64-68 | the new id, the form's fields, no subjects |
| MasterTeacher.ReplaceTeacher | src/components/MasterTeacher.tsx:54-58 | teachers with the id merged with the form, others untouched; distinct ids stay distinct |
| MasterTeacher.RemoveTeacher | src/components/MasterTeacher.tsx:93 | exactly the teachers with another id, in order; distinct ids stay distinct |
| MasterTeacher.SeedTeachers | src/components/MasterTeacher.tsx:21-38 | two initial teachers with distinct ids and every required field filled |
| MasterTeacher.TeacherStore.constructor | src/components/MasterTeacher.tsx:21-47 | seed teachers, nobody edited, dialog closed, empty form |
| MasterTeacher.TeacherStore.Submit | src/components/MasterTeacher.tsx:50-79 | accepted iff the four `required` inputs (lines 129, 137, 146, 154) are non-empty, else nothing changes; edit: the edited id's teachers replaced; add: a new teacher appended; then form cleared, editing ended, dialog closed; ids stay distinct for a fresh id; no teacher with an empty field is ever stored |
| MasterTeacher.ReplaceKeepsFilled | src/components/MasterTeacher.tsx:123-156 | a form that passed the `required` checks, written over filled-in teachers, leaves them all filled in |
| MasterTeacher.TeacherStore.Edit | src/components/MasterTeacher.tsx:81-90 | remembers the teacher, loads its fields, opens the dialog |
| MasterTeacher.TeacherStore.Delete | src/components/MasterTeacher.tsx:92-98 | teachers with the id removed; nothing else changes |
| MasterTeacher.TeacherStore.OpenAddDialog | src/components/MasterTeacher.tsx:100-104 | nobody edited, form cleared, dialog open |
| MasterTeacher.TeacherStore.SetDialogOpen | src/components/MasterTeacher.tsx:110 | only the open flag changes |
| MasterTeacher.TeacherStore.Enter | src/components/MasterTeacher.tsx:128-153 | only the form changes |
| MasterTeacher.EditUnchangedKeepsList | src/components/MasterTeacher.tsx:50-90 | editing a teacher and saving without changes leaves the list as it was |
| MasterSubject.EmptyForm | src/components/MasterSubject.tsx:46-50 | all three fields empty |
| MasterSubject.FormOf | src/components/MasterSubject.tsx:86-90 | the subject's three editable fields |
| MasterSubject.Merge | src/components/MasterSubject.tsx:59 | `{ ...subject, ...formData }`: id and teachers kept, the editable fields are the form's |
| MasterSubject.MergeOwnForm | src/components/MasterSubject.tsx:59 | merging a subject's own form changes nothing |
| MasterSubject.MergeTwice | src/components/MasterSubject.tsx:59 | a second merge overrides the first completely |
| MasterSubject.NewSubject | src/components/MasterSubject.tsx:67-71 | the new id, the form's fields, no teachers |
| MasterSubject.ReplaceSubject | src/components/MasterSubject.tsx:57-61 | subjects with the id merged with the form, others untouched; distinct ids stay distinct |
| MasterSubject.RemoveSubject | src/components/MasterSubject.tsx:95 | exactly the subjects with another id, in order; distinct ids stay distinct |
| MasterSubject.SeedSubjects | src/components/MasterSubject.tsx:20-42 | three initial subjects with distinct ids and every required field filled |
| MasterSubject.SubjectStore.constructor | src/components/MasterSubject.tsx:20-50 | seed subjects, nothing edited, dialog closed, empty form |
| MasterSubject.SubjectStore.Submit | src/components/MasterSubject.tsx:53-82 | accepted iff the three `required` inputs (lines 131, 139, 147) are non-empty, else nothing changes; edit: the edited id's subjects replaced; add: a new subject appended; then form cleared, editing ended, dialog closed; ids stay distinct for a fresh id; no subject with an empty field is ever stored |
| MasterSubject.ReplaceKeepsFilled | src/components/MasterSubject.tsx:125-149 | a form that passed the `required` checks, written over filled-in subjects, leaves them all filled in |
| MasterSubject.SubjectStore.Edit | src/components/MasterSubject.tsx:84-92 | remembers the subject, loads its fields, opens the dialog |
| MasterSubject.SubjectStore.Delete | src/components/MasterSubject.tsx:94-100 | subjects with the id removed; nothing else changes |
| MasterSubject.SubjectStore.OpenAddDialog | src/components/MasterSubject.tsx:102-106 | nothing edited, form cleared, dialog open |
| MasterSubject.SubjectStore.SetDialogOpen | src/components/MasterSubject.tsx:112 | only the open flag changes |
| MasterSubject.SubjectStore.Enter | src/components/MasterSubject.tsx:130-146 | only the form changes |
| MasterSubject.EditUnchangedKeepsList | src/components/MasterSubject.tsx:53-92 | editing a subject and saving without changes leaves the list as it was |
| TeacherSubjectMapping.SeedMappings | src/components/TeacherSubjectMapping.tsx:47-72 | three initial assignments, no (teacher, subject) pair twice |
| TeacherSubjectMapping.FindTeacher | src/components/TeacherSubjectMapping.tsx:105 | none iff no teacher has the id; otherwise a teacher with it |
| TeacherSubjectMapping.FindSubject | src/components/TeacherSubjectMapping.tsx:106 | none iff no subject has the id; otherwise a subject with it |
| TeacherSubjectMapping.PairTaken | src/components/TeacherSubjectMapping.tsx:92-94 | true iff some assignment joins this teacher and this subject |
| TeacherSubjectMapping.NewMapping | src/components/TeacherSubjectMapping.tsx:109-116 | the new id, the pair, the teacher's name and the subject's name and code |
| TeacherSubjectMapping.RemoveMapping | src/components/TeacherSubjectMapping.tsx:131 | exactly the assignments with another id, in order; no pair becomes duplicated |
| TeacherSubjectMapping.MappingStore.constructor | src/components/TeacherSubjectMapping.tsx:33-76 | the seed lists, dialog closed, nothing selected; no pair twice |
| TeacherSubjectMapping.MappingStore.Submit | src/components/TeacherSubjectMapping.tsx:79-128 | missing selection, duplicate pair, unknown id and success each iff their condition; only success appends the assignment, clears the selections and closes the dialog; no pair is ever assigned twice |
| TeacherSubjectMapping.MappingStore.Delete | src/components/TeacherSubjectMapping.tsx:130-136 | assignments with the id removed; no pair twice |
| TeacherSubjectMapping.MappingStore.OpenAddDialog | src/components/TeacherSubjectMapping.tsx:138-142 | both selections cleared, dialog open |
| TeacherSubjectMapping.MappingStore.SetDialogOpen | src/components/TeacherSubjectMapping.tsx:148 | only the open flag changes |
| TeacherSubjectMapping.MappingStore.SelectTeacher | src/components/TeacherSubjectMapping.tsx:162 | only the teacher selection changes |
| TeacherSubjectMapping.MappingStore.SelectSubject | src/components/TeacherSubjectMapping.tsx:177 | only the subject selection changes |
| AnnouncementManagement.EmptyForm | src/components/AnnouncementManagement.tsx:41 | no id, empty title and content |
| AnnouncementManagement.SeedAnnouncements | src/components/AnnouncementManagement.tsx:13-26 | two initial announcements with distinct ids |
| AnnouncementManagement.WithField | src/components/AnnouncementManagement.tsx:35-38 | the named input takes the value; the other input and the id are kept |
| AnnouncementManagement.Revise | src/components/AnnouncementManagement.tsx:58-62 | announcements with the id take title and content and keep id and creation time; others untouched; distinct ids stay distinct |
| AnnouncementManagement.RemoveAnnouncement | src/components/AnnouncementManagement.tsx:94 | exactly the announcements with another id, in order; distinct ids stay distinct |
| AnnouncementManagement.ReviseUnchanged | src/components/AnnouncementManagement.tsx:57-62 | revising an announcement with its own title and content changes nothing |
| AnnouncementManagement.Board.constructor | src/components/AnnouncementManagement.tsx:13-33 | seed announcements, not editing, empty form |
| AnnouncementManagement.Board.Submit | src/components/AnnouncementManagement.tsx:45-82 | rejected iff title or content empty (nothing changes); revised iff editing with a truthy id; otherwise published at the front; afterwards form empty and editing off; ids stay distinct for a fresh id |
| AnnouncementManagement.Board.Reset | src/components/AnnouncementManagement.tsx:40-43 | empty form, editing off, announcements kept |
| AnnouncementManagement.Board.Edit | src/components/AnnouncementManagement.tsx:84-91 | form loaded from the announcement, editing on |
| AnnouncementManagement.Board.Delete | src/components/AnnouncementManagement.tsx:93-99 | announcements with the id removed; form and mode kept |
| AnnouncementManagement.Board.Input | src/components/AnnouncementManagement.tsx:35-38 | only the named form field changes |
| StudentDetail.SameFieldsSameStudent | src/components/StudentDetail.tsx:11-24 | same id, photo and field values mean the same student |
| StudentDetail.WithField | src/components/StudentDetail.tsx:34-41 | the named field takes the value; every other field, the id and the photo are kept |
| StudentDetail.WithOwnValue | src/components/StudentDetail.tsx:34-41 | writing a field's own value back changes nothing |
| StudentDetail.EditsCommute | src/components/StudentDetail.tsx:34-41 | edits of two different fields commute |
| StudentDetail.GenderLabel | src/components/StudentDetail.tsx:183 | "Laki-laki" iff `L`, "Perempuan" otherwise |
| StudentDetail.StudentDetailView.constructor | src/components/StudentDetail.tsx:30-31 | not editing, form a copy of the student |
| StudentDetail.StudentDetailView.StartEditing | src/components/StudentDetail.tsx:77 | editing on, form kept |
| StudentDetail.StudentDetailView.Change | src/components/StudentDetail.tsx:34-41 | only the named form field changes |
| StudentDetail.StudentDetailView.Save | src/components/StudentDetail.tsx:43-60 | nothing saved iff name or NISN is empty (editing goes on); otherwise the form is handed over and editing ends |
| StudentDetail.StudentDetailView.Cancel | src/components/StudentDetail.tsx:62-65 | form restored to the student, editing off |
| TambahSiswa.DefaultValues | src/components/TambahSiswa.tsx:42-50 | every field empty |
| TambahSiswa.Errors | src/components/TambahSiswa.tsx:22-30 | each rule reported iff its field is too short; no errors iff the values are valid |
| TambahSiswa.OptionalFields | src/components/TambahSiswa.tsx:26-27 | religion and address never decide validity |
| TambahSiswa.DefaultsInvalid | src/components/TambahSiswa.tsx:42-50 | the empty form is not valid |
| TambahSiswa.BuildStudent | src/components/TambahSiswa.tsx:55-66 | the new id, grade 7A, status Aktif, every other field copied |
| TambahSiswa.AddStudentDialog.constructor | src/components/TambahSiswa.tsx:37-51 | closed, default values |
| TambahSiswa.AddStudentDialog.SetOpen | src/components/TambahSiswa.tsx:83 | only the open flag changes |
| TambahSiswa.AddStudentDialog.Enter | src/components/TambahSiswa.tsx:135 | only the values change |
| TambahSiswa.AddStudentDialog.Submit | src/components/TambahSiswa.tsx:53-80 | the schema's errors; no student iff invalid (nothing changes); otherwise the built student, values reset, dialog closed |
| BillingInvoice.SeedInvoices | src/components/BillingInvoice.tsx:9-46 | four invoices |
| BillingInvoice.PaidInvoices | src/components/BillingInvoice.tsx:48 | exactly the `paid` invoices, in order |
| BillingInvoice.UnpaidInvoices | src/components/BillingInvoice.tsx:49 | exactly the other invoices, in order |
| BillingInvoice.TabsPartition | src/components/BillingInvoice.tsx:48-49 | the tabs split the invoices: multisets and sizes add up, no invoice on both |
| BillingInvoice.DueAndOverdueUnpaid | src/components/BillingInvoice.tsx:48-49 | due and overdue invoices are on the unpaid tab only |
| BillingInvoice.StatusLabel | src/components/BillingInvoice.tsx:91-92 | "Lunas" iff paid, "Jatuh Tempo" iff due, "Terlambat" otherwise |
| BillingInvoice.StatusBadge | src/components/BillingInvoice.tsx:86-89 | the badge class by the same three-way split |
| BillingInvoice.PaidTabLabel | src/components/BillingInvoice.tsx:124 | the paid tab's fixed "Lunas" agrees with the status label of its invoices |
| BillingInvoice.SeedTabs | src/components/BillingInvoice.tsx:9-49 | of the four invoices only the last is paid; three are unpaid |

## Left out

- Markup, styling, icons, the UI primitives and the active-item highlight of the navigation are presentation only. The browser's `required` check is the exception: it is modelled where it guards a handler, as the accepted outcome of the teacher and subject dialogs' Submit.
- MasterTeacher.TeacherStore.Submit: the browser's `type="email"` format check on the email input is not modelled. A filled but malformed address is accepted.
- Toast and alert texts are not modelled. The handlers return which branch they took instead.
- `Date.now()`, `new Date()` and `window.confirm` are parameters, so freshness of ids is stated as a precondition of the distinctness ensures.
- Dates are calendar days. Times of day and time zones are not modelled, so `startOfMonth`/`endOfMonth` comparisons are by day. The same holds for `new Date('2024-01-15')` parsed as UTC midnight.
- date-fns `format` and `toLocaleDateString` output is display only.
- Text.ToLower: only ASCII capitals are lower-cased, unlike the full Unicode `toLowerCase`.
- TambahSiswa.Errors: zod's `min` counts UTF-16 code units, and the model counts characters.
- Label and colour maps are read with `map[key] || fallback`. The model does not capture keys such as `toString` that JavaScript would find on the object prototype.
- The react-hook-form plumbing of the add-student dialog is one `Enter` of all values. Its field-level re-validation while typing is not modelled.
- EventDetail.EventDetailView: the `event` prop is fixed for the view's lifetime. A prop that changes after a save does not reset the form, as in the application.
- The static screens have no logic to model and are represented only by the screen they render: AdminDashboard, TeacherDashboard, TataUsahaDashboard, StudentManagement, ClassSchedule, Attendance, Messages and AuthForm. The route table of src/App.tsx is not part of this model.
- The sidebar follows the code. An item's `showFor` list only forces visibility, so billing is also shown to `teacher`. The bottom bar shows all five entries, with no further cut.
