/** The "add student" dialog (src/components/TambahSiswa.tsx): the field
    rules of its form schema, the student record built from valid values,
    and the reset and close that follow. */
module TambahSiswa {
  import opened Wrappers

  /** The form's values; every field starts as the empty string. */
  datatype StudentValues = StudentValues(
    name: string,
    birthDate: string,
    gender: string,
    religion: string,
    address: string,
    parentName: string,
    contact: string)

  /** The record handed to `onAddStudent`. */
  datatype NewStudent = NewStudent(
    id: int,
    name: string,
    grade: string,
    status: string,
    contact: string,
    gender: string,
    religion: string,
    address: string,
    parentName: string,
    birthDate: string)

  /** The schema's rules, each named by the violation it reports. */
  datatype SchemaError =
    | NameTooShort
    | BirthDateMissing
    | GenderMissing
    | ParentNameTooShort
    | ContactMissing

  /** The field each rule is attached to. */
  function Field(e: SchemaError): string
  {
    match e
    case NameTooShort => "name"
    case BirthDateMissing => "birthDate"
    case GenderMissing => "gender"
    case ParentNameTooShort => "parentName"
    case ContactMissing => "contact"
  }

  /** The message shown under the field. */
  function Message(e: SchemaError): string
  {
    match e
    case NameTooShort => "Nama harus minimal 3 karakter"
    case BirthDateMissing => "Tanggal lahir wajib diisi"
    case GenderMissing => "Jenis kelamin wajib dipilih"
    case ParentNameTooShort => "Nama orang tua wajib diisi"
    case ContactMissing => "Kontak wajib diisi"
  }

  function DefaultValues(): (v: StudentValues)
    ensures v.name == v.birthDate == v.gender == v.religion == v.address == v.parentName == v.contact == ""
  {
    StudentValues("", "", "", "", "", "", "")
  }

  /** The schema's minimum lengths; religion and address have none. */
  predicate IsValid(v: StudentValues)
  {
    |v.name| >= 3 && |v.birthDate| >= 1 && |v.gender| >= 1 && |v.parentName| >= 3 && |v.contact| >= 1
  }

  /** The violations of the values, in the schema's field order. */
  function Errors(v: StudentValues): (r: seq<SchemaError>)
    ensures r == [] <==> IsValid(v)
    ensures |r| <= 5
    ensures NameTooShort in r <==> |v.name| < 3
    ensures BirthDateMissing in r <==> |v.birthDate| < 1
    ensures GenderMissing in r <==> |v.gender| < 1
    ensures ParentNameTooShort in r <==> |v.parentName| < 3
    ensures ContactMissing in r <==> |v.contact| < 1
  {
    (if |v.name| < 3 then [NameTooShort] else []) +
    (if |v.birthDate| < 1 then [BirthDateMissing] else []) +
    (if |v.gender| < 1 then [GenderMissing] else []) +
    (if |v.parentName| < 3 then [ParentNameTooShort] else []) +
    (if |v.contact| < 1 then [ContactMissing] else [])
  }

  /** Religion and address are optional: no value of theirs decides
      validity. */
  lemma OptionalFields(v: StudentValues, religion: string, address: string)
    ensures IsValid(v.(religion := religion, address := address)) <==> IsValid(v)
  {
  }

  /** The empty form is not valid. */
  lemma DefaultsInvalid()
    ensures !IsValid(DefaultValues())
  {
  }

  /** The student `handleSubmit` builds: grade 7A, status Aktif, every
      other field copied from the values. */
  function BuildStudent(id: int, v: StudentValues): (r: NewStudent)
    ensures r.id == id && r.grade == "7A" && r.status == "Aktif"
    ensures r.name == v.name && r.contact == v.contact && r.gender == v.gender
    ensures r.religion == v.religion && r.address == v.address
    ensures r.parentName == v.parentName && r.birthDate == v.birthDate
  {
    NewStudent(id, v.name, "7A", "Aktif", v.contact, v.gender, v.religion, v.address, v.parentName, v.birthDate)
  }

  /** The state of the `TambahSiswa` component. */
  class AddStudentDialog {
    var open: bool
    var values: StudentValues

    constructor()
      ensures !open && values == DefaultValues()
    {
      open := false;
      values := DefaultValues();
    }

    /** The dialog's `onOpenChange`. */
    method SetOpen(value: bool)
      modifies this
      ensures open == value && values == old(values)
    {
      open := value;
    }

    /** The form's inputs, which write the values they are bound to. */
    method Enter(v: StudentValues)
      modifies this
      ensures values == v && open == old(open)
    {
      values := v;
    }

    /** Submitting the form. Invalid values reach no handler: the schema's
      messages are returned and nothing changes. Valid values are built
      into a student for `onAddStudent`, then the form is reset and the
      dialog closed. `newId` stands for `Date.now()`. */
    method Submit(newId: int) returns (added: Option<NewStudent>, errors: seq<SchemaError>)
      modifies this
      ensures errors == Errors(old(values))
      ensures added.None? <==> !IsValid(old(values))
      ensures added.None? ==> values == old(values) && open == old(open)
      ensures added.Some? ==> added.value == BuildStudent(newId, old(values)) && values == DefaultValues() && !open
    {
      errors := Errors(values);
      if errors != [] {
        return None, errors;
      }
      added := Some(BuildStudent(newId, values));
      values := DefaultValues();
      open := false;
    }
  }
}
