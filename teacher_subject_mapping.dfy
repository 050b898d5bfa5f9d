/** The teacher-to-subject assignments (src/components/TeacherSubjectMapping.tsx):
    fixed lists of teachers and subjects, the assignments kept in component
    state, the add dialog with its two selections and the delete button. */
module TeacherSubjectMapping {
  import opened Wrappers
  import opened Lists

  datatype Teacher = Teacher(id: string, name: string, nip: string)

  datatype Subject = Subject(id: string, name: string, code: string)

  /** One assignment, with the teacher's name and the subject's name and
      code copied in when it is created. */
  datatype Mapping = Mapping(
    id: string,
    teacherId: string,
    subjectId: string,
    teacherName: string,
    subjectName: string,
    subjectCode: string)

  /** The (teacher, subject) pair an assignment stands for. */
  function Pair(m: Mapping): (string, string)
  {
    (m.teacherId, m.subjectId)
  }

  function SeedTeachers(): seq<Teacher>
  {
    [ Teacher("1", "Budi Santoso", "198501012010011001"),
      Teacher("2", "Siti Nurhaliza", "198702152011012002"),
      Teacher("3", "Ahmad Wijaya", "198803252012011003") ]
  }

  function SeedSubjects(): seq<Subject>
  {
    [ Subject("1", "Matematika", "MAT"),
      Subject("2", "Bahasa Indonesia", "BIN"),
      Subject("3", "Fisika", "FIS"),
      Subject("4", "Kimia", "KIM"),
      Subject("5", "Bahasa Inggris", "ENG") ]
  }

  function SeedMappings(): (r: seq<Mapping>)
    ensures |r| == 3 && DistinctKeys(r, Pair)
  {
    [ Mapping("1", "1", "1", "Budi Santoso", "Matematika", "MAT"),
      Mapping("2", "1", "3", "Budi Santoso", "Fisika", "FIS"),
      Mapping("3", "2", "2", "Siti Nurhaliza", "Bahasa Indonesia", "BIN") ]
  }

  /** `teachers.find(t => t.id === id)`. */
  function FindTeacher(teachers: seq<Teacher>, id: string): (r: Option<Teacher>)
    ensures r.None? <==> forall i :: 0 <= i < |teachers| ==> teachers[i].id != id
    ensures r.Some? ==> r.value in teachers && r.value.id == id
  {
    Find(teachers, (t: Teacher) => t.id == id)
  }

  /** `subjects.find(s => s.id === id)`. */
  function FindSubject(subjects: seq<Subject>, id: string): (r: Option<Subject>)
    ensures r.None? <==> forall i :: 0 <= i < |subjects| ==> subjects[i].id != id
    ensures r.Some? ==> r.value in subjects && r.value.id == id
  {
    Find(subjects, (s: Subject) => s.id == id)
  }

  /** The duplicate check: some assignment already joins this teacher and
      this subject. */
  predicate PairTaken(mappings: seq<Mapping>, teacherId: string, subjectId: string)
    ensures PairTaken(mappings, teacherId, subjectId) <==>
              exists i :: 0 <= i < |mappings| && Pair(mappings[i]) == (teacherId, subjectId)
  {
    Find(mappings, (m: Mapping) => m.teacherId == teacherId && m.subjectId == subjectId).Some?
  }

  /** The assignment a successful submit appends. */
  function NewMapping(id: string, t: Teacher, s: Subject): (r: Mapping)
    ensures r.id == id && Pair(r) == (t.id, s.id)
    ensures r.teacherName == t.name && r.subjectName == s.name && r.subjectCode == s.code
  {
    Mapping(id, t.id, s.id, t.name, s.name, s.code)
  }

  /** `handleDelete`: exactly the assignments with another id, in order;
      no pair is duplicated afterwards if none was before. */
  function RemoveMapping(mappings: seq<Mapping>, id: string): (r: seq<Mapping>)
    ensures forall m :: m in r <==> m in mappings && m.id != id
    ensures IsSubsequence(r, mappings)
    ensures DistinctKeys(mappings, Pair) ==> DistinctKeys(r, Pair)
  {
    var keep := (m: Mapping) => m.id != id;
    FilterIsSubsequence(mappings, keep);
    if DistinctKeys(mappings, Pair) then
      FilterKeepsDistinct(mappings, keep, Pair);
      Filter(mappings, keep)
    else Filter(mappings, keep)
  }

  /** Which of the submit handler's branches was taken. The first two show
      an error toast, the last a success toast; an id that names no teacher
      or subject ends the handler silently. */
  datatype Outcome =
    | MissingSelection
    | Duplicate
    | UnknownSelection
    | Added(mapping: Mapping)

  /** The state of the `TeacherSubjectMapping` component. */
  class MappingStore {
    const teachers: seq<Teacher>
    const subjects: seq<Subject>
    var mappings: seq<Mapping>
    var dialogOpen: bool
    var selectedTeacher: string
    var selectedSubject: string

    /** No (teacher, subject) pair is assigned twice. */
    ghost predicate Valid()
      reads this
    {
      DistinctKeys(mappings, Pair)
    }

    constructor()
      ensures Valid()
      ensures teachers == SeedTeachers() && subjects == SeedSubjects() && mappings == SeedMappings()
      ensures !dialogOpen && selectedTeacher == "" && selectedSubject == ""
    {
      teachers := SeedTeachers();
      subjects := SeedSubjects();
      mappings := SeedMappings();
      dialogOpen := false;
      selectedTeacher := "";
      selectedSubject := "";
    }

    /** `handleSubmit`. `newId` stands for `Date.now().toString()`. */
    method Submit(newId: string) returns (outcome: Outcome)
      requires Valid()
      modifies this
      ensures Valid()
      ensures old(selectedTeacher) == "" || old(selectedSubject) == "" <==> outcome == MissingSelection
      ensures outcome == Duplicate <==>
                old(selectedTeacher) != "" && old(selectedSubject) != "" &&
                PairTaken(old(mappings), old(selectedTeacher), old(selectedSubject))
      ensures outcome == UnknownSelection <==>
                old(selectedTeacher) != "" && old(selectedSubject) != "" &&
                !PairTaken(old(mappings), old(selectedTeacher), old(selectedSubject)) &&
                (FindTeacher(teachers, old(selectedTeacher)).None? || FindSubject(subjects, old(selectedSubject)).None?)
      ensures !outcome.Added? ==>
                mappings == old(mappings) && dialogOpen == old(dialogOpen) &&
                selectedTeacher == old(selectedTeacher) && selectedSubject == old(selectedSubject)
      ensures outcome.Added? ==>
                outcome.mapping == NewMapping(newId, FindTeacher(teachers, old(selectedTeacher)).value,
                                              FindSubject(subjects, old(selectedSubject)).value) &&
                mappings == old(mappings) + [outcome.mapping] &&
                selectedTeacher == "" && selectedSubject == "" && !dialogOpen
    {
      if selectedTeacher == "" || selectedSubject == "" {
        return MissingSelection;
      }
      if PairTaken(mappings, selectedTeacher, selectedSubject) {
        return Duplicate;
      }
      var teacher := FindTeacher(teachers, selectedTeacher);
      var subject := FindSubject(subjects, selectedSubject);
      if teacher.None? || subject.None? {
        return UnknownSelection;
      }
      var m := NewMapping(newId, teacher.value, subject.value);
      AppendKeepsDistinct(mappings, m, Pair);
      mappings := mappings + [m];
      selectedTeacher := "";
      selectedSubject := "";
      dialogOpen := false;
      outcome := Added(m);
    }

    /** `handleDelete`. */
    method Delete(id: string)
      requires Valid()
      modifies this
      ensures Valid()
      ensures mappings == RemoveMapping(old(mappings), id)
      ensures dialogOpen == old(dialogOpen)
      ensures selectedTeacher == old(selectedTeacher) && selectedSubject == old(selectedSubject)
    {
      mappings := RemoveMapping(mappings, id);
    }

    /** `openAddDialog`: both selections cleared, dialog open. */
    method OpenAddDialog()
      modifies this
      ensures selectedTeacher == "" && selectedSubject == "" && dialogOpen
      ensures mappings == old(mappings)
    {
      selectedTeacher := "";
      selectedSubject := "";
      dialogOpen := true;
    }

    /** The dialog's `onOpenChange`; the cancel button closes it. */
    method SetDialogOpen(value: bool)
      modifies this
      ensures dialogOpen == value && mappings == old(mappings)
      ensures selectedTeacher == old(selectedTeacher) && selectedSubject == old(selectedSubject)
    {
      dialogOpen := value;
    }

    /** The teacher select's `onValueChange`. */
    method SelectTeacher(id: string)
      modifies this
      ensures selectedTeacher == id && selectedSubject == old(selectedSubject)
      ensures mappings == old(mappings) && dialogOpen == old(dialogOpen)
    {
      selectedTeacher := id;
    }

    /** The subject select's `onValueChange`. */
    method SelectSubject(id: string)
      modifies this
      ensures selectedSubject == id && selectedTeacher == old(selectedTeacher)
      ensures mappings == old(mappings) && dialogOpen == old(dialogOpen)
    {
      selectedSubject := id;
    }
  }
}
