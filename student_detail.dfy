/** The student detail view (src/components/StudentDetail.tsx): a copy of
    the student that the inputs edit field by field, a save that insists on
    name and NISN, and a cancel that restores the original. */
module StudentDetail {
  import opened Wrappers

  datatype Student = Student(
    id: int,
    name: string,
    nisn: string,
    className: string,
    gender: string,
    birthDate: string,
    address: string,
    parentName: string,
    parentPhone: string,
    joinDate: string,
    photo: Option<string>)

  /** The inputs and selects of the view, by the `name` they write. */
  datatype StudentField =
    | Name | Nisn | ClassName | Gender | BirthDate | JoinDate | Address | ParentName | ParentPhone

  /** The value a field shows. */
  function Get(s: Student, field: StudentField): string
  {
    match field
    case Name => s.name
    case Nisn => s.nisn
    case ClassName => s.className
    case Gender => s.gender
    case BirthDate => s.birthDate
    case JoinDate => s.joinDate
    case Address => s.address
    case ParentName => s.parentName
    case ParentPhone => s.parentPhone
  }

  /** Two students with the same id, photo and field values are the same
      student. */
  lemma SameFieldsSameStudent(a: Student, b: Student)
    requires a.id == b.id && a.photo == b.photo
    requires forall field :: Get(a, field) == Get(b, field)
    ensures a == b
  {
    assert Get(a, Name) == Get(b, Name) && Get(a, Nisn) == Get(b, Nisn);
    assert Get(a, ClassName) == Get(b, ClassName) && Get(a, Gender) == Get(b, Gender);
    assert Get(a, BirthDate) == Get(b, BirthDate) && Get(a, JoinDate) == Get(b, JoinDate);
    assert Get(a, Address) == Get(b, Address) && Get(a, ParentName) == Get(b, ParentName);
    assert Get(a, ParentPhone) == Get(b, ParentPhone);
  }

  /** `handleInputChange` and `handleSelectChange`: the named field takes
      the value and every other field, the id and the photo keep theirs. */
  function WithField(s: Student, field: StudentField, value: string): (r: Student)
    ensures Get(r, field) == value
    ensures forall other :: other != field ==> Get(r, other) == Get(s, other)
    ensures r.id == s.id && r.photo == s.photo
  {
    match field
    case Name => s.(name := value)
    case Nisn => s.(nisn := value)
    case ClassName => s.(className := value)
    case Gender => s.(gender := value)
    case BirthDate => s.(birthDate := value)
    case JoinDate => s.(joinDate := value)
    case Address => s.(address := value)
    case ParentName => s.(parentName := value)
    case ParentPhone => s.(parentPhone := value)
  }

  /** Writing a field's own value back changes nothing. */
  lemma WithOwnValue(s: Student, field: StudentField)
    ensures WithField(s, field, Get(s, field)) == s
  {
    SameFieldsSameStudent(WithField(s, field, Get(s, field)), s);
  }

  /** Edits of two different fields can be made in either order. */
  lemma EditsCommute(s: Student, f1: StudentField, v1: string, f2: StudentField, v2: string)
    requires f1 != f2
    ensures WithField(WithField(s, f1, v1), f2, v2) == WithField(WithField(s, f2, v2), f1, v1)
  {
    SameFieldsSameStudent(WithField(WithField(s, f1, v1), f2, v2), WithField(WithField(s, f2, v2), f1, v1));
  }

  /** The condition of `handleSave`: name and NISN are filled in. */
  predicate CanSave(s: Student)
  {
    s.name != "" && s.nisn != ""
  }

  /** The gender as displayed: "Laki-laki" for `L`, "Perempuan" for
      everything else. */
  function GenderLabel(g: string): (r: string)
    ensures r == "Laki-laki" <==> g == "L"
    ensures r == "Perempuan" <==> g != "L"
  {
    if g == "L" then "Laki-laki" else "Perempuan"
  }

  /** The state of the `StudentDetail` component for one student. */
  class StudentDetailView {
    const student: Student
    var isEditing: bool
    var form: Student

    constructor(student: Student)
      ensures this.student == student && !isEditing && form == student
    {
      this.student := student;
      isEditing := false;
      form := student;
    }

    /** The edit button. */
    method StartEditing()
      modifies this
      ensures isEditing && form == old(form)
    {
      isEditing := true;
    }

    /** An input or select of the form. */
    method Change(field: StudentField, value: string)
      modifies this
      ensures form == WithField(old(form), field, value) && isEditing == old(isEditing)
    {
      form := WithField(form, field, value);
    }

    /** `handleSave`. Without name or NISN nothing is saved and editing
      goes on; otherwise the form is handed to `onSave` (returned here) and
      editing ends. The form is kept either way. */
    method Save() returns (saved: Option<Student>)
      modifies this
      ensures saved.None? <==> !CanSave(old(form))
      ensures saved.Some? ==> saved.value == old(form) && !isEditing
      ensures saved.None? ==> isEditing == old(isEditing)
      ensures form == old(form)
    {
      if !CanSave(form) {
        return None;
      }
      saved := Some(form);
      isEditing := false;
    }

    /** `handleCancel`: the form is a copy of the original student again
      and editing ends. */
    method Cancel()
      modifies this
      ensures form == student && !isEditing
    {
      form := student;
      isEditing := false;
    }
  }
}
