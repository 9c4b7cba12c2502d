/**
 * The admin dashboard with one table and one modal form shared by students and
 * teachers (frontend/src/components/Admindashboard.js). Both kinds carry a
 * name and an email; which list a handler touches is decided by the currently
 * chosen kind, `selectedDataType`, which is `null` until a menu item is picked.
 */
module SharedDashboard {
  import opened Wrappers
  import opened Records

  /** The two values `selectedDataType` takes besides `null`: 'student' and 'teacher'. */
  datatype Kind = Student | Teacher

  /** The fields both schemas share. */
  datatype ContactFields = ContactFields(name: string, email: string)

  type Person = Record<ContactFields>

  /** The two validation schemas the form switches between. */
  datatype Schema = StudentSchema | TeacherSchema

  /** The form's `initialValues`, to which `resetForm` returns. */
  const EmptyForm := ContactFields("", "")

  /** The mock data the tables start with. */
  const InitialStudents: seq<Person> :=
    [Record(1, ContactFields("John Doe", "john@example.com")),
     Record(2, ContactFields("Jane Smith", "jane@example.com"))]
  const InitialTeachers: seq<Person> :=
    [Record(1, ContactFields("Michael Brown", "michael@example.com")),
     Record(2, ContactFields("Sarah Johnson", "sarah@example.com"))]

  const NameRequired := "Name is required"
  const EmailRequired := "Email is required"
  const EmailInvalid := "Invalid email address"

  // ---------------------------------------------------------------------------
  // Validation

  /** The schema the form validates with: the student schema iff the chosen kind is 'student'. */
  function SchemaFor(kind: Option<Kind>): (s: Schema)
    ensures s == StudentSchema <==> kind == Some(Student)
    ensures kind == None ==> s == TeacherSchema
  {
    if kind == Some(Student) then StudentSchema else TeacherSchema
  }

  /**
   * The errors a schema reports, keyed by field. `isEmail` is the validation
   * library's email-format test; it is not applied to an empty string, which
   * only the required test rejects.
   */
  function Errors(s: Schema, v: ContactFields, isEmail: string -> bool): (e: map<string, string>)
    ensures e.Keys <= {"name", "email"}
  {
    match s
    case StudentSchema =>
      (if v.name == "" then map["name" := NameRequired] else map[])
      + (if v.email == "" then map["email" := EmailRequired]
         else if !isEmail(v.email) then map["email" := EmailInvalid] else map[])
    case TeacherSchema =>
      (if v.name == "" then map["name" := NameRequired] else map[])
      + (if v.email == "" then map["email" := EmailRequired]
         else if !isEmail(v.email) then map["email" := EmailInvalid] else map[])
  }

  /** Formik calls `onSubmit` only when the schema reports no error. */
  predicate FormValid(s: Schema, v: ContactFields, isEmail: string -> bool): (ok: bool)
    ensures ok <==> "name" !in Errors(s, v, isEmail) && "email" !in Errors(s, v, isEmail)
  {
    Errors(s, v, isEmail) == map[]
  }

  /** Each field is reported with its own message exactly when it breaks its rule, under either schema. */
  lemma ErrorsPerField(s: Schema, v: ContactFields, isEmail: string -> bool)
    ensures "name" in Errors(s, v, isEmail) <==> v.name == ""
    ensures "name" in Errors(s, v, isEmail) ==> Errors(s, v, isEmail)["name"] == NameRequired
    ensures "email" in Errors(s, v, isEmail) <==> v.email == "" || !isEmail(v.email)
    ensures "email" in Errors(s, v, isEmail) ==>
              Errors(s, v, isEmail)["email"] == if v.email == "" then EmailRequired else EmailInvalid
  {
  }

  /** Under either schema a form may be submitted iff the name is given and the email is given and well formed. */
  lemma FormValidIff(s: Schema, v: ContactFields, isEmail: string -> bool)
    ensures FormValid(s, v, isEmail) <==> v.name != "" && v.email != "" && isEmail(v.email)
  {
    ErrorsPerField(s, v, isEmail);
    if !(v.name != "" && v.email != "" && isEmail(v.email)) {
      assert exists f :: f in Errors(s, v, isEmail);
    }
  }

  /** The two schemas are written alike, so the kind chosen never changes what the form accepts. */
  lemma SchemasAgree(v: ContactFields, isEmail: string -> bool)
    ensures Errors(StudentSchema, v, isEmail) == Errors(TeacherSchema, v, isEmail)
  {
  }

  /** The reset form is not submittable: both fields are reported as required. */
  lemma EmptyFormRejected(s: Schema, isEmail: string -> bool)
    ensures Errors(s, EmptyForm, isEmail) == map["name" := NameRequired, "email" := EmailRequired]
  {
    ErrorsPerField(s, EmptyForm, isEmail);
  }

  // ---------------------------------------------------------------------------
  // The component's state and its event handlers

  class AdminDashboard {
    var students: seq<Person>
    var teachers: seq<Person>
    var isModalVisible: bool
    var selectedData: Option<Person>
    var selectedDataType: Option<Kind>
    /** `formik.values`. */
    var values: ContactFields
    /** The validation library's email-format test. */
    const isEmail: string -> bool

    /** The component's first render: the mock tables, modal closed, nothing selected, no kind chosen. */
    constructor (isEmail: string -> bool)
      ensures students == InitialStudents && teachers == InitialTeachers
      ensures !isModalVisible && selectedData == None && selectedDataType == None
      ensures values == EmptyForm && this.isEmail == isEmail
    {
      students, teachers := InitialStudents, InitialTeachers;
      isModalVisible := false;
      selectedData, selectedDataType := None, None;
      values := EmptyForm;
      this.isEmail := isEmail;
    }

    /** The table's data source: the students iff the chosen kind is 'student', otherwise the teachers. */
    function DisplayedList(): (r: seq<Person>)
      reads this
      ensures selectedDataType == Some(Student) ==> r == students
      ensures selectedDataType != Some(Student) ==> r == teachers
    {
      if selectedDataType == Some(Student) then students else teachers
    }

    /**
     * The form's submit button. An invalid form (under the schema of the chosen
     * kind) changes nothing. Otherwise the selected record is updated in, or a
     * new record with id `freshId` (the clock reading) is appended to, the
     * students when the kind is 'student' and the teachers otherwise, which is
     * the list on display; the other list, the kind and the email test stay.
     */
    method Submit(freshId: int) returns (submitted: bool)
      modifies this
      ensures submitted == FormValid(SchemaFor(old(selectedDataType)), old(values), isEmail)
      ensures !submitted ==> unchanged(this)
      ensures submitted ==>
        DisplayedList() == (if old(selectedData).Some?
                            then UpdateById(old(DisplayedList()), old(selectedData).value.id, old(values))
                            else Append(old(DisplayedList()), NewRecord(freshId, old(values))))
      ensures old(selectedDataType) == Some(Student) ==> teachers == old(teachers)
      ensures old(selectedDataType) != Some(Student) ==> students == old(students)
      ensures submitted ==> selectedData == None && values == EmptyForm && !isModalVisible
      ensures selectedDataType == old(selectedDataType)
    {
      submitted := FormValid(SchemaFor(selectedDataType), values, isEmail);
      if submitted {
        if selectedData.Some? {
          if selectedDataType == Some(Student) {
            students := UpdateById(students, selectedData.value.id, values);
          } else {
            teachers := UpdateById(teachers, selectedData.value.id, values);
          }
          selectedData := None;
        } else {
          var newData := NewRecord(freshId, values);
          if selectedDataType == Some(Student) {
            students := Append(students, newData);
          } else {
            teachers := Append(teachers, newData);
          }
        }
        values := EmptyForm;
        isModalVisible := false;
      }
    }

    /** A row's edit button: select the record and the kind, load its fields into the form, open the modal. */
    method Edit(data: Person, dataType: Option<Kind>)
      modifies this
      ensures selectedData == Some(data) && selectedDataType == dataType
      ensures values == data.fields && isModalVisible
      ensures students == old(students) && teachers == old(teachers)
    {
      selectedData := Some(data);
      selectedDataType := dataType;
      values := data.fields;
      isModalVisible := true;
    }

    /** A row's delete button: filter the students when the kind is 'student', otherwise the teachers. */
    method Delete(dataId: int, dataType: Option<Kind>)
      modifies this`students, this`teachers
      ensures dataType == Some(Student) ==>
        students == RemoveById(old(students), dataId) && teachers == old(teachers)
      ensures dataType != Some(Student) ==>
        teachers == RemoveById(old(teachers), dataId) && students == old(students)
    {
      if dataType == Some(Student) {
        students := RemoveById(students, dataId);
      } else {
        teachers := RemoveById(teachers, dataId);
      }
    }

    /** The menu items "Students" and "Teachers": choose the kind shown and edited. */
    method SelectKind(kind: Kind)
      modifies this`selectedDataType
      ensures selectedDataType == Some(kind)
      ensures DisplayedList() == if kind == Student then students else teachers
    {
      selectedDataType := Some(kind);
    }

    /** Typing into the form's inputs (Formik's `handleChange`). */
    method ChangeValues(v: ContactFields)
      modifies this`values
      ensures values == v
    {
      values := v;
    }

    /** The "Add" button only opens the modal; selection and kind stay. */
    method Add()
      modifies this`isModalVisible
      ensures isModalVisible
    {
      isModalVisible := true;
    }

    /** The modal's close control (`onCancel`): clear the selection and the kind, close, reset the form. */
    method Cancel()
      modifies this`selectedData, this`selectedDataType, this`isModalVisible, this`values
      ensures selectedData == None && selectedDataType == None
      ensures !isModalVisible && values == EmptyForm
    {
      selectedData := None;
      selectedDataType := None;
      isModalVisible := false;
      values := EmptyForm;
    }

    /** The footer Cancel button only closes the modal. */
    method CloseModal()
      modifies this`isModalVisible
      ensures !isModalVisible
    {
      isModalVisible := false;
    }
  }

  /**
   * What a caller can conclude from the handlers' contracts alone: before any
   * menu item is picked the kind is null, so a new record goes to the teachers,
   * which is also the table on display.
   */
  method AddBeforeChoosingKind(freshId: int) returns (students: seq<Person>, teachers: seq<Person>)
    ensures students == InitialStudents
    ensures teachers == InitialTeachers + [Record(freshId, ContactFields("Ada Lovelace", "ada@example.com"))]
  {
    var d := new AdminDashboard(s => true);
    d.Add();
    d.ChangeValues(ContactFields("Ada Lovelace", "ada@example.com"));
    FormValidIff(TeacherSchema, d.values, d.isEmail);
    var ok := d.Submit(freshId);
    assert ok;
    assert d.students == InitialStudents;
    students, teachers := d.students, d.teachers;
  }
}
