/** The subject master list (src/components/MasterSubject.tsx): subjects
    kept in component state, one dialog form used both to add a subject and
    to edit one, and deletion by id. */
module MasterSubject {
  import opened Wrappers
  import opened Lists

  datatype Subject = Subject(id: string, name: string, code: string, description: string, teachers: seq<string>)

  /** The dialog's `formData`: the three editable fields. */
  datatype SubjectForm = SubjectForm(name: string, code: string, description: string)

  /** The browser's `required` check on the dialog's three inputs: the
      form is submitted only when none of them is empty. */
  predicate RequiredFilled(f: SubjectForm)
  {
    f.name != "" && f.code != "" && f.description != ""
  }

  /** Every stored subject has the three required fields filled in. */
  predicate AllFilled(subjects: seq<Subject>)
  {
    forall sub :: sub in subjects ==> RequiredFilled(FormOf(sub))
  }

  function SubjectId(sub: Subject): string
  {
    sub.id
  }

  function EmptyForm(): (f: SubjectForm)
    ensures f.name == f.code == f.description == ""
  {
    SubjectForm("", "", "")
  }

  /** The form `handleEdit` loads: the subject's three editable fields. */
  function FormOf(sub: Subject): (f: SubjectForm)
    ensures f.name == sub.name && f.code == sub.code && f.description == sub.description
  {
    SubjectForm(sub.name, sub.code, sub.description)
  }

  /** `{ ...subject, ...formData }`: the form's fields over the subject's;
      id and teachers stay. */
  function Merge(sub: Subject, f: SubjectForm): (r: Subject)
    ensures r.id == sub.id && r.teachers == sub.teachers
    ensures FormOf(r) == f
  {
    sub.(name := f.name, code := f.code, description := f.description)
  }

  /** Saving a subject's own fields back changes nothing. */
  lemma MergeOwnForm(sub: Subject)
    ensures Merge(sub, FormOf(sub)) == sub
  {
  }

  /** A second save overrides the first completely. */
  lemma MergeTwice(sub: Subject, f1: SubjectForm, f2: SubjectForm)
    ensures Merge(Merge(sub, f1), f2) == Merge(sub, f2)
  {
  }

  /** The subject `handleSubmit` appends: the given id, the form's fields
      and no teachers. */
  function NewSubject(id: string, f: SubjectForm): (r: Subject)
    ensures r.id == id && r.teachers == [] && FormOf(r) == f
  {
    Subject(id, f.name, f.code, f.description, [])
  }

  /** The edit branch of `handleSubmit`: the subjects with the edited id
      take the form's fields; every other subject is untouched and no id
      changes. */
  function ReplaceSubject(subjects: seq<Subject>, id: string, f: SubjectForm): (r: seq<Subject>)
    ensures |r| == |subjects|
    ensures forall i :: 0 <= i < |subjects| && subjects[i].id == id ==> r[i] == Merge(subjects[i], f)
    ensures forall i :: 0 <= i < |subjects| && subjects[i].id != id ==> r[i] == subjects[i]
    ensures DistinctKeys(subjects, SubjectId) ==> DistinctKeys(r, SubjectId)
  {
    var p := (sub: Subject) => sub.id == id;
    var g := (sub: Subject) => Merge(sub, f);
    if DistinctKeys(subjects, SubjectId) then
      UpdateKeepsDistinct(subjects, p, g, SubjectId);
      UpdateWhere(subjects, p, g)
    else UpdateWhere(subjects, p, g)
  }

  /** `handleDelete`: exactly the subjects with another id, in order. */
  function RemoveSubject(subjects: seq<Subject>, id: string): (r: seq<Subject>)
    ensures forall sub :: sub in r <==> sub in subjects && sub.id != id
    ensures IsSubsequence(r, subjects)
    ensures DistinctKeys(subjects, SubjectId) ==> DistinctKeys(r, SubjectId)
  {
    var keep := (sub: Subject) => sub.id != id;
    FilterIsSubsequence(subjects, keep);
    if DistinctKeys(subjects, SubjectId) then
      FilterKeepsDistinct(subjects, keep, SubjectId);
      Filter(subjects, keep)
    else Filter(subjects, keep)
  }

  function SeedSubjects(): (r: seq<Subject>)
    ensures |r| == 3 && DistinctKeys(r, SubjectId) && AllFilled(r)
  {
    [ Subject("1", "Matematika", "MAT", "Mata pelajaran matematika untuk semua tingkatan", ["Budi Santoso"]),
      Subject("2", "Bahasa Indonesia", "BIN", "Mata pelajaran bahasa Indonesia", ["Siti Nurhaliza"]),
      Subject("3", "Fisika", "FIS", "Mata pelajaran fisika", ["Budi Santoso"]) ]
  }

  /** The state of the `MasterSubject` component. */
  class SubjectStore {
    var subjects: seq<Subject>
    var editing: Option<Subject>
    var dialogOpen: bool
    var form: SubjectForm

    constructor()
      ensures subjects == SeedSubjects() && editing == None && !dialogOpen && form == EmptyForm()
    {
      subjects := SeedSubjects();
      editing := None;
      dialogOpen := false;
      form := EmptyForm();
    }

    /** Submitting the dialog's form. The browser lets the submission through
      only when every `required` field is filled in; otherwise nothing
      changes. An accepted submission runs `handleSubmit`: when a subject is
      being edited the subjects with its id take the form's fields;
      otherwise a subject with the new id (`Date.now()` in the application)
      is appended. Either way the form is cleared, editing ends and the
      dialog closes. Ids stay distinct as long as the new id is not in use,
      and no subject with an empty field is ever stored. */
    method Submit(newId: string) returns (accepted: bool)
      modifies this
      ensures accepted <==> RequiredFilled(old(form))
      ensures !accepted ==>
                subjects == old(subjects) && editing == old(editing) &&
                form == old(form) && dialogOpen == old(dialogOpen)
      ensures accepted && old(editing).Some? ==>
                subjects == ReplaceSubject(old(subjects), old(editing).value.id, old(form))
      ensures accepted && old(editing).None? ==> subjects == old(subjects) + [NewSubject(newId, old(form))]
      ensures accepted ==> form == EmptyForm() && editing == None && !dialogOpen
      ensures DistinctKeys(old(subjects), SubjectId) &&
              (forall i :: 0 <= i < |old(subjects)| ==> old(subjects)[i].id != newId) ==>
                DistinctKeys(subjects, SubjectId)
      ensures AllFilled(old(subjects)) ==> AllFilled(subjects)
    {
      if !RequiredFilled(form) {
        return false;
      }
      accepted := true;
      if editing.Some? {
        ReplaceKeepsFilled(subjects, editing.value.id, form);
        subjects := ReplaceSubject(subjects, editing.value.id, form);
      } else {
        if DistinctKeys(subjects, SubjectId) && (forall i :: 0 <= i < |subjects| ==> subjects[i].id != newId) {
          AppendKeepsDistinct(subjects, NewSubject(newId, form), SubjectId);
        }
        subjects := subjects + [NewSubject(newId, form)];
      }
      form := EmptyForm();
      editing := None;
      dialogOpen := false;
    }

    /** `handleEdit`: remembers the subject, loads its fields and opens the
      dialog. */
    method Edit(sub: Subject)
      modifies this
      ensures editing == Some(sub) && form == FormOf(sub) && dialogOpen
      ensures subjects == old(subjects)
    {
      editing := Some(sub);
      form := FormOf(sub);
      dialogOpen := true;
    }

    /** `handleDelete`. */
    method Delete(id: string)
      modifies this
      ensures subjects == RemoveSubject(old(subjects), id)
      ensures editing == old(editing) && form == old(form) && dialogOpen == old(dialogOpen)
    {
      subjects := RemoveSubject(subjects, id);
    }

    /** `openAddDialog`: no subject is edited, the form is cleared and the
      dialog opens. */
    method OpenAddDialog()
      modifies this
      ensures editing == None && form == EmptyForm() && dialogOpen
      ensures subjects == old(subjects)
    {
      editing := None;
      form := EmptyForm();
      dialogOpen := true;
    }

    /** The dialog's `onOpenChange`; the cancel button closes it. */
    method SetDialogOpen(value: bool)
      modifies this
      ensures dialogOpen == value
      ensures subjects == old(subjects) && editing == old(editing) && form == old(form)
    {
      dialogOpen := value;
    }

    /** The dialog's inputs, which write the fields they are bound to. */
    method Enter(f: SubjectForm)
      modifies this
      ensures form == f
      ensures subjects == old(subjects) && editing == old(editing) && dialogOpen == old(dialogOpen)
    {
      form := f;
    }
  }

  /** Writing a filled-in form over some subjects keeps every subject
      filled in. */
  lemma ReplaceKeepsFilled(subjects: seq<Subject>, id: string, f: SubjectForm)
    ensures AllFilled(subjects) && RequiredFilled(f) ==> AllFilled(ReplaceSubject(subjects, id, f))
  {
    if AllFilled(subjects) && RequiredFilled(f) {
      var r := ReplaceSubject(subjects, id, f);
      forall sub | sub in r
        ensures RequiredFilled(FormOf(sub))
      {
        var i :| 0 <= i < |r| && r[i] == sub;
        assert subjects[i] in subjects;
      }
    }
  }

  /** Editing a subject and submitting without changes leaves the list as
      it was, when ids are distinct. */
  lemma EditUnchangedKeepsList(subjects: seq<Subject>, sub: Subject)
    requires DistinctKeys(subjects, SubjectId) && sub in subjects
    ensures ReplaceSubject(subjects, sub.id, FormOf(sub)) == subjects
  {
    var r := ReplaceSubject(subjects, sub.id, FormOf(sub));
    forall i | 0 <= i < |subjects|
      ensures r[i] == subjects[i]
    {
      if subjects[i].id == sub.id {
        var k :| 0 <= k < |subjects| && subjects[k] == sub;
        assert k == i;
      }
    }
  }
}
