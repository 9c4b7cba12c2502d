/**
 * The admin dashboard with one table and one modal form per entity kind
 * (frontend/src/components/Admindashboard1.js): students carry a name, an age
 * and a grade, teachers a name and a subject.
 */
module SplitDashboard {
  import opened Wrappers
  import opened Records

  /** The fields of the student schema. `age` is `None` when the input does not hold a number. */
  datatype StudentFields = StudentFields(name: string, age: Option<int>, grade: string)

  /** The fields of the teacher schema. */
  datatype TeacherFields = TeacherFields(name: string, subject: string)

  type Student = Record<StudentFields>
  type Teacher = Record<TeacherFields>

  /** The forms' `initialValues`, to which `resetForm` returns. */
  const EmptyStudentForm := StudentFields("", None, "")
  const EmptyTeacherForm := TeacherFields("", "")

  /** The mock data the tables start with. */
  const InitialStudents: seq<Student> :=
    [Record(1, StudentFields("John Doe", Some(20), "A")),
     Record(2, StudentFields("Jane Smith", Some(22), "B"))]
  const InitialTeachers: seq<Teacher> :=
    [Record(1, TeacherFields("Mr. Johnson", "Math")),
     Record(2, TeacherFields("Ms. Davis", "Science"))]

  const NameRequired := "Name is required"
  const AgeRequired := "Age is required"
  const AgePositive := "Age must be a positive number"
  const GradeRequired := "Grade is required"
  const SubjectRequired := "Subject is required"

  // ---------------------------------------------------------------------------
  // Validation schemas

  /**
   * The errors the student schema reports, keyed by field, as Formik collects
   * them: every violated field at once, the first failing test's message each.
   */
  function StudentErrors(v: StudentFields): (e: map<string, string>)
    ensures e.Keys <= {"name", "age", "grade"}
  {
    (if v.name == "" then map["name" := NameRequired] else map[])
    + (match v.age
       case None => map["age" := AgeRequired]
       case Some(n) => if n <= 0 then map["age" := AgePositive] else map[])
    + (if v.grade == "" then map["grade" := GradeRequired] else map[])
  }

  /** The errors the teacher schema reports, keyed by field. */
  function TeacherErrors(v: TeacherFields): (e: map<string, string>)
    ensures e.Keys <= {"name", "subject"}
  {
    (if v.name == "" then map["name" := NameRequired] else map[])
    + (if v.subject == "" then map["subject" := SubjectRequired] else map[])
  }

  /** Formik calls `onSubmit` only when the schema reports no error. */
  predicate StudentFormValid(v: StudentFields): (ok: bool)
    ensures ok <==> "name" !in StudentErrors(v) && "age" !in StudentErrors(v) && "grade" !in StudentErrors(v)
  {
    StudentErrors(v) == map[]
  }

  /** The teacher form's submit gate. */
  predicate TeacherFormValid(v: TeacherFields): (ok: bool)
    ensures ok <==> "name" !in TeacherErrors(v) && "subject" !in TeacherErrors(v)
  {
    TeacherErrors(v) == map[]
  }

  /** Each student field is reported with its own message exactly when it breaks its rule. */
  lemma StudentErrorsPerField(v: StudentFields)
    ensures "name" in StudentErrors(v) <==> v.name == ""
    ensures "name" in StudentErrors(v) ==> StudentErrors(v)["name"] == NameRequired
    ensures "age" in StudentErrors(v) <==> v.age.None? || v.age.value <= 0
    ensures "age" in StudentErrors(v) ==>
              StudentErrors(v)["age"] == if v.age.None? then AgeRequired else AgePositive
    ensures "grade" in StudentErrors(v) <==> v.grade == ""
    ensures "grade" in StudentErrors(v) ==> StudentErrors(v)["grade"] == GradeRequired
  {
  }

  /** A student form may be submitted iff the name is given, the age is a positive number and the grade is given. */
  lemma StudentFormValidIff(v: StudentFields)
    ensures StudentFormValid(v) <==> v.name != "" && v.age.Some? && v.age.value > 0 && v.grade != ""
  {
    StudentErrorsPerField(v);
    if !(v.name != "" && v.age.Some? && v.age.value > 0 && v.grade != "") {
      assert exists f :: f in StudentErrors(v);
    }
  }

  /** Each teacher field is reported with its own message exactly when it is empty. */
  lemma TeacherErrorsPerField(v: TeacherFields)
    ensures "name" in TeacherErrors(v) <==> v.name == ""
    ensures "name" in TeacherErrors(v) ==> TeacherErrors(v)["name"] == NameRequired
    ensures "subject" in TeacherErrors(v) <==> v.subject == ""
    ensures "subject" in TeacherErrors(v) ==> TeacherErrors(v)["subject"] == SubjectRequired
  {
  }

  /** A teacher form may be submitted iff the name and the subject are given. */
  lemma TeacherFormValidIff(v: TeacherFields)
    ensures TeacherFormValid(v) <==> v.name != "" && v.subject != ""
  {
    TeacherErrorsPerField(v);
    if !(v.name != "" && v.subject != "") {
      assert exists f :: f in TeacherErrors(v);
    }
  }

  /** The reset forms are not submittable: every required field is reported. */
  lemma EmptyFormsRejected()
    ensures StudentErrors(EmptyStudentForm).Keys == {"name", "age", "grade"}
    ensures TeacherErrors(EmptyTeacherForm).Keys == {"name", "subject"}
  {
    StudentErrorsPerField(EmptyStudentForm);
    TeacherErrorsPerField(EmptyTeacherForm);
  }

  // ---------------------------------------------------------------------------
  // The component's state and its event handlers

  class AdminDashboard {
    var students: seq<Student>
    var teachers: seq<Teacher>
    var isStudentModalVisible: bool
    var isTeacherModalVisible: bool
    var selectedStudent: Option<Student>
    var selectedTeacher: Option<Teacher>
    /** `studentFormik.values` and `teacherFormik.values`. */
    var studentValues: StudentFields
    var teacherValues: TeacherFields

    /** The component's first render: the mock tables, both modals closed, nothing selected, empty forms. */
    constructor ()
      ensures students == InitialStudents && teachers == InitialTeachers
      ensures !isStudentModalVisible && !isTeacherModalVisible
      ensures selectedStudent == None && selectedTeacher == None
      ensures studentValues == EmptyStudentForm && teacherValues == EmptyTeacherForm
    {
      students, teachers := InitialStudents, InitialTeachers;
      isStudentModalVisible, isTeacherModalVisible := false, false;
      selectedStudent, selectedTeacher := None, None;
      studentValues, teacherValues := EmptyStudentForm, EmptyTeacherForm;
    }

    /**
     * The student form's submit button. An invalid form changes nothing.
     * Otherwise the selected student is updated in place, or a new student
     * with id `freshId` (the clock reading) is appended; then the selection
     * is cleared, the form reset and the modal closed.
     */
    method SubmitStudent(freshId: int) returns (submitted: bool)
      modifies this
      ensures submitted == StudentFormValid(old(studentValues))
      ensures !submitted ==> unchanged(this)
      ensures submitted ==>
        students == (if old(selectedStudent).Some?
                     then UpdateById(old(students), old(selectedStudent).value.id, old(studentValues))
                     else Append(old(students), NewRecord(freshId, old(studentValues))))
      ensures submitted ==>
        selectedStudent == None && studentValues == EmptyStudentForm && !isStudentModalVisible
      ensures teachers == old(teachers) && selectedTeacher == old(selectedTeacher)
      ensures teacherValues == old(teacherValues) && isTeacherModalVisible == old(isTeacherModalVisible)
    {
      submitted := StudentFormValid(studentValues);
      if submitted {
        if selectedStudent.Some? {
          students := UpdateById(students, selectedStudent.value.id, studentValues);
          selectedStudent := None;
        } else {
          students := Append(students, NewRecord(freshId, studentValues));
        }
        studentValues := EmptyStudentForm;
        isStudentModalVisible := false;
      }
    }

    /** The teacher form's submit button; the student side is left as it was. */
    method SubmitTeacher(freshId: int) returns (submitted: bool)
      modifies this
      ensures submitted == TeacherFormValid(old(teacherValues))
      ensures !submitted ==> unchanged(this)
      ensures submitted ==>
        teachers == (if old(selectedTeacher).Some?
                     then UpdateById(old(teachers), old(selectedTeacher).value.id, old(teacherValues))
                     else Append(old(teachers), NewRecord(freshId, old(teacherValues))))
      ensures submitted ==>
        selectedTeacher == None && teacherValues == EmptyTeacherForm && !isTeacherModalVisible
      ensures students == old(students) && selectedStudent == old(selectedStudent)
      ensures studentValues == old(studentValues) && isStudentModalVisible == old(isStudentModalVisible)
    {
      submitted := TeacherFormValid(teacherValues);
      if submitted {
        if selectedTeacher.Some? {
          teachers := UpdateById(teachers, selectedTeacher.value.id, teacherValues);
          selectedTeacher := None;
        } else {
          teachers := Append(teachers, NewRecord(freshId, teacherValues));
        }
        teacherValues := EmptyTeacherForm;
        isTeacherModalVisible := false;
      }
    }

    /** A row's edit button: select the student, load its fields into the form, open the modal. */
    method EditStudent(student: Student)
      modifies this
      ensures selectedStudent == Some(student) && studentValues == student.fields && isStudentModalVisible
      ensures students == old(students) && teachers == old(teachers)
      ensures selectedTeacher == old(selectedTeacher) && teacherValues == old(teacherValues)
      ensures isTeacherModalVisible == old(isTeacherModalVisible)
    {
      selectedStudent := Some(student);
      studentValues := student.fields;
      isStudentModalVisible := true;
    }

    method EditTeacher(teacher: Teacher)
      modifies this
      ensures selectedTeacher == Some(teacher) && teacherValues == teacher.fields && isTeacherModalVisible
      ensures students == old(students) && teachers == old(teachers)
      ensures selectedStudent == old(selectedStudent) && studentValues == old(studentValues)
      ensures isStudentModalVisible == old(isStudentModalVisible)
    {
      selectedTeacher := Some(teacher);
      teacherValues := teacher.fields;
      isTeacherModalVisible := true;
    }

    /** A row's delete button: drop every student with that id; nothing else changes. */
    method DeleteStudent(studentId: int)
      modifies this`students
      ensures students == RemoveById(old(students), studentId)
    {
      students := RemoveById(students, studentId);
    }

    method DeleteTeacher(teacherId: int)
      modifies this`teachers
      ensures teachers == RemoveById(old(teachers), teacherId)
    {
      teachers := RemoveById(teachers, teacherId);
    }

    /** Typing into the student form's inputs (Formik's `handleChange`). */
    method ChangeStudentValues(v: StudentFields)
      modifies this`studentValues
      ensures studentValues == v
    {
      studentValues := v;
    }

    method ChangeTeacherValues(v: TeacherFields)
      modifies this`teacherValues
      ensures teacherValues == v
    {
      teacherValues := v;
    }

    /** The "Add Student" button only opens the modal; a selection left from an edit stays. */
    method AddStudent()
      modifies this`isStudentModalVisible
      ensures isStudentModalVisible
    {
      isStudentModalVisible := true;
    }

    method AddTeacher()
      modifies this`isTeacherModalVisible
      ensures isTeacherModalVisible
    {
      isTeacherModalVisible := true;
    }

    /** The student modal's close control (`onCancel`): clear the selection, close, reset the form. */
    method CancelStudentModal()
      modifies this`selectedStudent, this`isStudentModalVisible, this`studentValues
      ensures selectedStudent == None && !isStudentModalVisible && studentValues == EmptyStudentForm
    {
      selectedStudent := None;
      isStudentModalVisible := false;
      studentValues := EmptyStudentForm;
    }

    method CancelTeacherModal()
      modifies this`selectedTeacher, this`isTeacherModalVisible, this`teacherValues
      ensures selectedTeacher == None && !isTeacherModalVisible && teacherValues == EmptyTeacherForm
    {
      selectedTeacher := None;
      isTeacherModalVisible := false;
      teacherValues := EmptyTeacherForm;
    }

    /** The student modal's footer Cancel button only closes the modal; selection and form stay. */
    method CloseStudentModal()
      modifies this`isStudentModalVisible
      ensures !isStudentModalVisible
    {
      isStudentModalVisible := false;
    }

    method CloseTeacherModal()
      modifies this`isTeacherModalVisible
      ensures !isTeacherModalVisible
    {
      isTeacherModalVisible := false;
    }
  }

  /**
   * What a caller can conclude from the handlers' contracts alone: after an
   * edit is dismissed with the footer Cancel button, "Add Student" reopens the
   * same edit, and saving overwrites the selected student instead of adding one.
   */
  method StaleSelectionAfterFooterCancel(freshId: int) returns (students: seq<Student>)
    ensures students == [Record(1, StudentFields("John Roe", Some(21), "A")), InitialStudents[1]]
  {
    var d := new AdminDashboard();
    var john := InitialStudents[0];
    d.EditStudent(john);
    d.CloseStudentModal();
    d.AddStudent();
    d.ChangeStudentValues(StudentFields("John Roe", Some(21), "A"));
    StudentFormValidIff(d.studentValues);
    var ok := d.SubmitStudent(freshId);
    assert ok;
    assert |d.students| == 2;
    UpdateByIdAt(InitialStudents, 1, StudentFields("John Roe", Some(21), "A"), 0);
    assert d.students[0] == Record(1, StudentFields("John Roe", Some(21), "A"));
    UpdateByIdAt(InitialStudents, 1, StudentFields("John Roe", Some(21), "A"), 1);
    students := d.students;
  }
}
