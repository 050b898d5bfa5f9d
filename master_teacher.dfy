/** The teacher master list (src/components/MasterTeacher.tsx): teachers
    kept in component state, one dialog form used both to add a teacher and
    to edit one, and deletion by id. */
module MasterTeacher {
  import opened Wrappers
  import opened Lists

  datatype Teacher = Teacher(id: string, name: string, nip: string, email: string, phone: string, subjects: seq<string>)

  /** The dialog's `formData`: the four editable fields. */
  datatype TeacherForm = TeacherForm(name: string, nip: string, email: string, phone: string)

  /** The browser's `required` check on the dialog's four inputs: the form
      is submitted only when none of them is empty. */
  predicate RequiredFilled(f: TeacherForm)
  {
    f.name != "" && f.nip != "" && f.email != "" && f.phone != ""
  }

  /** Every stored teacher has the four required fields filled in. */
  predicate AllFilled(teachers: seq<Teacher>)
  {
    forall t :: t in teachers ==> RequiredFilled(FormOf(t))
  }

  function TeacherId(t: Teacher): string
  {
    t.id
  }

  function EmptyForm(): (f: TeacherForm)
    ensures f.name == f.nip == f.email == f.phone == ""
  {
    TeacherForm("", "", "", "")
  }

  /** The form `handleEdit` loads: the teacher's four editable fields. */
  function FormOf(t: Teacher): (f: TeacherForm)
    ensures f.name == t.name && f.nip == t.nip && f.email == t.email && f.phone == t.phone
  {
    TeacherForm(t.name, t.nip, t.email, t.phone)
  }

  /** `{ ...teacher, ...formData }`: the form's fields over the teacher's;
      id and subjects stay. */
  function Merge(t: Teacher, f: TeacherForm): (r: Teacher)
    ensures r.id == t.id && r.subjects == t.subjects
    ensures FormOf(r) == f
  {
    t.(name := f.name, nip := f.nip, email := f.email, phone := f.phone)
  }

  /** Saving a teacher's own fields back changes nothing. */
  lemma MergeOwnForm(t: Teacher)
    ensures Merge(t, FormOf(t)) == t
  {
  }

  /** A second save overrides the first completely. */
  lemma MergeTwice(t: Teacher, f1: TeacherForm, f2: TeacherForm)
    ensures Merge(Merge(t, f1), f2) == Merge(t, f2)
  {
  }

  /** The teacher `handleSubmit` appends: the given id, the form's fields
      and no subjects. */
  function NewTeacher(id: string, f: TeacherForm): (r: Teacher)
    ensures r.id == id && r.subjects == [] && FormOf(r) == f
  {
    Teacher(id, f.name, f.nip, f.email, f.phone, [])
  }

  /** The edit branch of `handleSubmit`: the teachers with the edited id
      take the form's fields; every other teacher is untouched and no id
      changes. */
  function ReplaceTeacher(teachers: seq<Teacher>, id: string, f: TeacherForm): (r: seq<Teacher>)
    ensures |r| == |teachers|
    ensures forall i :: 0 <= i < |teachers| && teachers[i].id == id ==> r[i] == Merge(teachers[i], f)
    ensures forall i :: 0 <= i < |teachers| && teachers[i].id != id ==> r[i] == teachers[i]
    ensures DistinctKeys(teachers, TeacherId) ==> DistinctKeys(r, TeacherId)
  {
    var p := (t: Teacher) => t.id == id;
    var g := (t: Teacher) => Merge(t, f);
    if DistinctKeys(teachers, TeacherId) then
      UpdateKeepsDistinct(teachers, p, g, TeacherId);
      UpdateWhere(teachers, p, g)
    else UpdateWhere(teachers, p, g)
  }

  /** `handleDelete`: exactly the teachers with another id, in order. */
  function RemoveTeacher(teachers: seq<Teacher>, id: string): (r: seq<Teacher>)
    ensures forall t :: t in r <==> t in teachers && t.id != id
    ensures IsSubsequence(r, teachers)
    ensures DistinctKeys(teachers, TeacherId) ==> DistinctKeys(r, TeacherId)
  {
    var keep := (t: Teacher) => t.id != id;
    FilterIsSubsequence(teachers, keep);
    if DistinctKeys(teachers, TeacherId) then
      FilterKeepsDistinct(teachers, keep, TeacherId);
      Filter(teachers, keep)
    else Filter(teachers, keep)
  }

  function SeedTeachers(): (r: seq<Teacher>)
    ensures |r| == 2 && DistinctKeys(r, TeacherId) && AllFilled(r)
  {
    [ Teacher("1", "Budi Santoso", "198501012010011001", "budi.santoso@sekolah.com",
              "081234567890", ["Matematika", "Fisika"]),
      Teacher("2", "Siti Nurhaliza", "198702152011012002", "siti.nurhaliza@sekolah.com",
              "081234567891", ["Bahasa Indonesia", "Bahasa Inggris"]) ]
  }

  /** The state of the `MasterTeacher` component. */
  class TeacherStore {
    var teachers: seq<Teacher>
    var editing: Option<Teacher>
    var dialogOpen: bool
    var form: TeacherForm

    constructor()
      ensures teachers == SeedTeachers() && editing == None && !dialogOpen && form == EmptyForm()
    {
      teachers := SeedTeachers();
      editing := None;
      dialogOpen := false;
      form := EmptyForm();
    }

    /** Submitting the dialog's form. The browser lets the submission through
      only when every `required` field is filled in; otherwise nothing
      changes. An accepted submission runs `handleSubmit`: when a teacher is
      being edited the teachers with its id take the form's fields;
      otherwise a teacher with the new id (`Date.now()` in the application)
      is appended. Either way the form is cleared, editing ends and the
      dialog closes. Ids stay distinct as long as the new id is not in use,
      and no teacher with an empty field is ever stored. */
    method Submit(newId: string) returns (accepted: bool)
      modifies this
      ensures accepted <==> RequiredFilled(old(form))
      ensures !accepted ==>
                teachers == old(teachers) && editing == old(editing) &&
                form == old(form) && dialogOpen == old(dialogOpen)
      ensures accepted && old(editing).Some? ==>
                teachers == ReplaceTeacher(old(teachers), old(editing).value.id, old(form))
      ensures accepted && old(editing).None? ==> teachers == old(teachers) + [NewTeacher(newId, old(form))]
      ensures accepted ==> form == EmptyForm() && editing == None && !dialogOpen
      ensures DistinctKeys(old(teachers), TeacherId) &&
              (forall i :: 0 <= i < |old(teachers)| ==> old(teachers)[i].id != newId) ==>
                DistinctKeys(teachers, TeacherId)
      ensures AllFilled(old(teachers)) ==> AllFilled(teachers)
    {
      if !RequiredFilled(form) {
        return false;
      }
      accepted := true;
      if editing.Some? {
        ReplaceKeepsFilled(teachers, editing.value.id, form);
        teachers := ReplaceTeacher(teachers, editing.value.id, form);
      } else {
        if DistinctKeys(teachers, TeacherId) && (forall i :: 0 <= i < |teachers| ==> teachers[i].id != newId) {
          AppendKeepsDistinct(teachers, NewTeacher(newId, form), TeacherId);
        }
        teachers := teachers + [NewTeacher(newId, form)];
      }
      form := EmptyForm();
      editing := None;
      dialogOpen := false;
    }

    /** `handleEdit`: remembers the teacher, loads its fields and opens the
      dialog. */
    method Edit(t: Teacher)
      modifies this
      ensures editing == Some(t) && form == FormOf(t) && dialogOpen
      ensures teachers == old(teachers)
    {
      editing := Some(t);
      form := FormOf(t);
      dialogOpen := true;
    }

    /** `handleDelete`. */
    method Delete(id: string)
      modifies this
      ensures teachers == RemoveTeacher(old(teachers), id)
      ensures editing == old(editing) && form == old(form) && dialogOpen == old(dialogOpen)
    {
      teachers := RemoveTeacher(teachers, id);
    }

    /** `openAddDialog`: no teacher is edited, the form is cleared and the
      dialog opens. */
    method OpenAddDialog()
      modifies this
      ensures editing == None && form == EmptyForm() && dialogOpen
      ensures teachers == old(teachers)
    {
      editing := None;
      form := EmptyForm();
      dialogOpen := true;
    }

    /** The dialog's `onOpenChange`; the cancel button closes it. */
    method SetDialogOpen(value: bool)
      modifies this
      ensures dialogOpen == value
      ensures teachers == old(teachers) && editing == old(editing) && form == old(form)
    {
      dialogOpen := value;
    }

    /** The dialog's inputs, which write the fields they are bound to. */
    method Enter(f: TeacherForm)
      modifies this
      ensures form == f
      ensures teachers == old(teachers) && editing == old(editing) && dialogOpen == old(dialogOpen)
    {
      form := f;
    }
  }

  /** Writing a filled-in form over some teachers keeps every teacher
      filled in. */
  lemma ReplaceKeepsFilled(teachers: seq<Teacher>, id: string, f: TeacherForm)
    ensures AllFilled(teachers) && RequiredFilled(f) ==> AllFilled(ReplaceTeacher(teachers, id, f))
  {
    if AllFilled(teachers) && RequiredFilled(f) {
      var r := ReplaceTeacher(teachers, id, f);
      forall t | t in r
        ensures RequiredFilled(FormOf(t))
      {
        var i :| 0 <= i < |r| && r[i] == t;
        assert teachers[i] in teachers;
      }
    }
  }

  /** Editing a teacher and submitting without changes leaves the list as
      it was, when ids are distinct. */
  lemma EditUnchangedKeepsList(teachers: seq<Teacher>, t: Teacher)
    requires DistinctKeys(teachers, TeacherId) && t in teachers
    ensures ReplaceTeacher(teachers, t.id, FormOf(t)) == teachers
  {
    var r := ReplaceTeacher(teachers, t.id, FormOf(t));
    forall i | 0 <= i < |teachers|
      ensures r[i] == teachers[i]
    {
      if teachers[i].id == t.id {
        var k :| 0 <= k < |teachers| && teachers[k] == t;
        assert k == i;
      }
    }
  }
}
