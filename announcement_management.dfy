/** The announcement board (src/components/AnnouncementManagement.tsx):
    announcements kept in component state, newest first, with one form used
    both to write a new announcement and to edit an existing one. */
module AnnouncementManagement {
  import opened Wrappers
  import opened Lists
  import Dates

  /** A moment given by its local day, hour and minute. */
  datatype Timestamp = Timestamp(day: Dates.Date, hour: int, minute: int)

  datatype Announcement = Announcement(id: int, title: string, content: string, createdAt: Timestamp)

  /** The form: the id of the announcement being edited (`null` when there
      is none), the title and the content. */
  datatype AnnouncementForm = AnnouncementForm(id: Option<int>, title: string, content: string)

  /** The two inputs that `handleInputChange` serves, by their `name`. */
  datatype FormField = TitleField | ContentField

  function AnnouncementId(a: Announcement): int
  {
    a.id
  }

  function EmptyForm(): (f: AnnouncementForm)
    ensures f.id == None && f.title == "" && f.content == ""
  {
    AnnouncementForm(None, "", "")
  }

  /** JavaScript truthiness of the form's id: `null` and `0` are false. */
  predicate IdIsSet(id: Option<int>)
  {
    id.Some? && id.value != 0
  }

  function SeedAnnouncements(): (r: seq<Announcement>)
    ensures |r| == 2 && DistinctKeys(r, AnnouncementId)
  {
    [ Announcement(1, "Rapat Guru",
        "Akan dilaksanakan rapat guru pada hari Jumat, 26 Mei 2023 pukul 14:00 WIB di Ruang Rapat Utama.",
        Timestamp(Dates.Date(2023, 5, 20), 10, 0)),
      Announcement(2, "Ujian Tengah Semester",
        "Jadwal Ujian Tengah Semester telah dipublikasikan. Silakan cek di papan pengumuman atau hubungi wali kelas.",
        Timestamp(Dates.Date(2023, 5, 15), 9, 30)) ]
  }

  /** `handleInputChange`: the named input's value goes into the form;
      nothing else in the form changes. */
  function WithField(f: AnnouncementForm, field: FormField, value: string): (r: AnnouncementForm)
    ensures r.id == f.id
    ensures field == TitleField ==> r.title == value && r.content == f.content
    ensures field == ContentField ==> r.content == value && r.title == f.title
  {
    match field
    case TitleField => f.(title := value)
    case ContentField => f.(content := value)
  }

  /** The edit branch of `handleSubmit`: the announcements with the form's
      id take its title and content and keep their id and creation time;
      all others are untouched. */
  function Revise(items: seq<Announcement>, id: int, title: string, content: string): (r: seq<Announcement>)
    ensures |r| == |items|
    ensures forall i :: 0 <= i < |items| && items[i].id == id ==>
              r[i] == Announcement(id, title, content, items[i].createdAt)
    ensures forall i :: 0 <= i < |items| && items[i].id != id ==> r[i] == items[i]
    ensures DistinctKeys(items, AnnouncementId) ==> DistinctKeys(r, AnnouncementId)
  {
    var p := (a: Announcement) => a.id == id;
    var g := (a: Announcement) => a.(title := title, content := content);
    if DistinctKeys(items, AnnouncementId) then
      UpdateKeepsDistinct(items, p, g, AnnouncementId);
      UpdateWhere(items, p, g)
    else UpdateWhere(items, p, g)
  }

  /** `deleteAnnouncement`: exactly the announcements with another id, in
      order. */
  function RemoveAnnouncement(items: seq<Announcement>, id: int): (r: seq<Announcement>)
    ensures forall a :: a in r <==> a in items && a.id != id
    ensures IsSubsequence(r, items)
    ensures DistinctKeys(items, AnnouncementId) ==> DistinctKeys(r, AnnouncementId)
  {
    var keep := (a: Announcement) => a.id != id;
    FilterIsSubsequence(items, keep);
    if DistinctKeys(items, AnnouncementId) then
      FilterKeepsDistinct(items, keep, AnnouncementId);
      Filter(items, keep)
    else Filter(items, keep)
  }

  /** Which branch `handleSubmit` took; the first shows an error toast. */
  datatype Outcome = Rejected | Revised | Published

  /** The state of the `AnnouncementManagement` component. */
  class Board {
    var announcements: seq<Announcement>
    var isEditing: bool
    var form: AnnouncementForm

    constructor()
      ensures announcements == SeedAnnouncements() && !isEditing && form == EmptyForm()
    {
      announcements := SeedAnnouncements();
      isEditing := false;
      form := EmptyForm();
    }

    /** `handleSubmit`. `newId` and `now` stand for `Date.now()` and
      `new Date()`. A form without title or content is refused and kept.
      In edit mode with an id set, that announcement is revised; otherwise a
      new announcement goes to the front. Afterwards the form is empty and
      edit mode is off. Ids stay distinct as long as the new id is not in
      use. */
    method Submit(newId: int, now: Timestamp) returns (outcome: Outcome)
      modifies this
      ensures outcome == Rejected <==> old(form).title == "" || old(form).content == ""
      ensures outcome == Revised <==> outcome != Rejected && old(isEditing) && IdIsSet(old(form).id)
      ensures outcome == Rejected ==>
                announcements == old(announcements) && form == old(form) && isEditing == old(isEditing)
      ensures outcome == Revised ==>
                announcements == Revise(old(announcements), old(form).id.value, old(form).title, old(form).content)
      ensures outcome == Published ==>
                announcements == [Announcement(newId, old(form).title, old(form).content, now)] + old(announcements)
      ensures outcome != Rejected ==> form == EmptyForm() && !isEditing
      ensures DistinctKeys(old(announcements), AnnouncementId) &&
              (forall i :: 0 <= i < |old(announcements)| ==> old(announcements)[i].id != newId) ==>
                DistinctKeys(announcements, AnnouncementId)
    {
      if form.title == "" || form.content == "" {
        return Rejected;
      }
      if isEditing && IdIsSet(form.id) {
        announcements := Revise(announcements, form.id.value, form.title, form.content);
        outcome := Revised;
      } else {
        var a := Announcement(newId, form.title, form.content, now);
        if DistinctKeys(announcements, AnnouncementId) &&
           (forall i :: 0 <= i < |announcements| ==> announcements[i].id != newId) {
          DistinctCons(a, announcements, AnnouncementId);
        }
        announcements := [a] + announcements;
        outcome := Published;
      }
      Reset();
    }

    /** `resetForm`, also the cancel button. */
    method Reset()
      modifies this
      ensures form == EmptyForm() && !isEditing && announcements == old(announcements)
    {
      form := EmptyForm();
      isEditing := false;
    }

    /** `editAnnouncement`: loads the announcement's id, title and content
      and turns edit mode on. */
    method Edit(a: Announcement)
      modifies this
      ensures form == AnnouncementForm(Some(a.id), a.title, a.content) && isEditing
      ensures announcements == old(announcements)
    {
      form := AnnouncementForm(Some(a.id), a.title, a.content);
      isEditing := true;
    }

    /** `deleteAnnouncement`. */
    method Delete(id: int)
      modifies this
      ensures announcements == RemoveAnnouncement(old(announcements), id)
      ensures form == old(form) && isEditing == old(isEditing)
    {
      announcements := RemoveAnnouncement(announcements, id);
    }

    /** `handleInputChange`. */
    method Input(field: FormField, value: string)
      modifies this
      ensures form == WithField(old(form), field, value)
      ensures announcements == old(announcements) && isEditing == old(isEditing)
    {
      form := WithField(form, field, value);
    }
  }

  /** Revising an announcement with its own title and content changes
      nothing, when ids are distinct. */
  lemma ReviseUnchanged(items: seq<Announcement>, a: Announcement)
    requires DistinctKeys(items, AnnouncementId) && a in items
    ensures Revise(items, a.id, a.title, a.content) == items
  {
    var r := Revise(items, a.id, a.title, a.content);
    forall i | 0 <= i < |items|
      ensures r[i] == items[i]
    {
      if items[i].id == a.id {
        var k :| 0 <= k < |items| && items[k] == a;
        assert k == i;
      }
    }
  }
}
