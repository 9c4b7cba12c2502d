# Student/teacher admin dashboard: the in-memory record store

This project models the state logic of the two admin dashboard components of a
small React application that manages student and teacher records held in memory
(no backend, no persistence). Each component keeps ordered tables of records
plus editor state: which record is selected for editing, whether the modal form
is visible, and the form's current values. It reacts to a handful of events:
begin an edit, submit the form, delete a row, cancel, and add.

- `frontend/src/components/Admindashboard1.js` has a separate table, modal and
  form per kind. Students have a name, an age and a grade. Teachers have a name
  and a subject. This is `SplitDashboard.AdminDashboard` in `split_dashboard.dfy`.
- `frontend/src/components/Admindashboard.js` has one table, one modal and one
  form shared by both kinds (name and email). A chosen kind, `selectedDataType`,
  decides which list is shown and edited. This is
  `SharedDashboard.AdminDashboard` in `shared_dashboard.dfy`.

Each handler mutates component state through React setters, so each component
is a class whose methods are the handlers. Each method states its whole new
state, in terms of the old state and three pure list transforms. Those
transforms are `map` with an object spread, `[...list, x]` and `filter`. They
are functions on sequences in `records.dfy` (`UpdateById`, `Append`,
`RemoveById`), with lemmas for what the components rely on:
- length, ids and order are kept;
- only matching rows change;
- exactly the non-matching rows survive removal, in order;
- what happens when absent ids are used;
- idempotence;
- how the transforms combine (deleting after an edit or a create).

Validation is modelled the way Formik runs a Yup schema. A function gives the
errors map, one message per violated field. The form may be submitted iff that
map is empty. Lemmas state, field by field, when each message appears, and
state the resulting if-and-only-if condition on the fields.

Modelling choices:
- A record is `Record(id, fields)`. A form always holds every field of its
  schema. `handleEdit` loads a record into the form together with selecting it,
  and submit and `onCancel` reset both. So an `id` is in the form values only
  while that same record is selected. On every reachable state,
  `{ ...record, ...values }` is therefore `Record(record.id, values)`, and
  `{ id: Date.now(), ...values }` is `Record(freshId, values)`.
- `Date.now()` is the `freshId` parameter of the submit methods. Ids are not
  guaranteed unique: `CountId` and `RemoveByIdLength` describe tables with
  repeated ids too.
- A student's `age` is `Option<int>`. `None` stands for an input that does not
  hold a number.
- The email-format test of the validation library is `isEmail`, a function the
  shared dashboard receives at construction. The library does not apply it to
  an empty string: that string fails only the required test.
- `selectedDataType` is `Option<Kind>`: `None` is `null`, `Some(Student)` is
  `'student'`, `Some(Teacher)` is `'teacher'`.

The "Add Student", "Add Teacher" and "Add" buttons only make the modal visible
(Admindashboard1.js:187, 194; Admindashboard.js:139). They clear neither the
selection nor the form. Suppose an edit is dismissed with the footer Cancel button (which keeps the
selection). Then "Add" reopens that edit, and saving overwrites the selected
record. `SplitDashboard.StaleSelectionAfterFooterCancel`
derives this outcome from the handlers' contracts alone.
`SharedDashboard.AddBeforeChoosingKind` shows that a record created before any
menu item is picked goes to the teachers.

## Model

| member | source | states |
|---|---|---|
| `Records.Merge` | frontend/src/components/Admindashboard1.js:54 | `{ ...record, ...values }`: the merged row keeps the record's id and carries the form's fields |
| `Records.NewRecord` | frontend/src/components/Admindashboard1.js:60-63 | `{ id: Date.now(), ...values }`: the new row's id is the clock reading and its fields are the form's |
| `Records.UpdateById` | frontend/src/components/Admindashboard1.js:53-55 | the updated table has the same length as the old one |
| `Records.UpdateByIdAt` | frontend/src/components/Admindashboard1.js:53-55 | row k after the update is row k merged with the form values when its id matches the selected id, and row k unchanged otherwise |
| `Records.UpdateByIdRows` | frontend/src/components/Admindashboard1.js:53-55 | the update keeps length, ids and their order; matching rows get the form's fields; every other row is unchanged |
| `Records.UpdateByIdAbsent` | frontend/src/components/Admindashboard.js:51-53 | updating by an id no row carries leaves the table unchanged: saving an edit whose record was deleted meanwhile changes no row and does not re-add it |
| `Records.UpdateByIdIdempotent` | frontend/src/components/Admindashboard1.js:82-84 | applying the same update twice equals applying it once |
| `Records.UpdateByIdConcat` | frontend/src/components/Admindashboard.js:56-58 | the update works row by row: it distributes over concatenation |
| `Records.Append` | frontend/src/components/Admindashboard1.js:64 | the new table is one longer, its prefix is the old table and its last row is the new record |
| `Records.RemoveById` | frontend/src/components/Admindashboard1.js:109 | the result is no longer than the table and no remaining row carries the id |
| `Records.RemoveByIdConcat` | frontend/src/components/Admindashboard1.js:122 | filtering distributes over concatenation, so kept rows stay in their original order |
| `Records.RemoveByIdSingle` | frontend/src/components/Admindashboard.js:90 | a single row is kept exactly when its id differs |
| `Records.RemoveByIdMultiset` | frontend/src/components/Admindashboard.js:93 | each row with a different id occurs as often as before; rows with the id occur zero times |
| `Records.RemoveByIdMembers` | frontend/src/components/Admindashboard1.js:107-111 | a row is in the result iff it was in the table and its id differs |
| `Records.RemoveByIdLength` | frontend/src/components/Admindashboard1.js:120-124 | the table loses one row per row carrying the id |
| `Records.RemoveByIdAbsent` | frontend/src/components/Admindashboard.js:87-96 | the table shrinks iff some row carries the id |
| `Records.RemoveByIdUnchanged` | frontend/src/components/Admindashboard.js:89-91 | deleting an id no row carries returns the table itself |
| `Records.RemoveByIdIdempotent` | frontend/src/components/Admindashboard.js:92-94 | deleting by the same id twice equals deleting once |
| `Records.RemoveAfterUpdate` | frontend/src/components/Admindashboard1.js:51-56 | deleting a record after editing it gives the same table as deleting it unedited |
| `Records.RemoveAfterAppend` | frontend/src/components/Admindashboard1.js:58-64 | deleting the id of a just-appended record removes it again; when the id was new, the old table comes back |
| `Records.UpdateAfterAppend` | frontend/src/components/Admindashboard1.js:89-93 | updating after a create updates the old rows as before and the new row only when its id matches |
| `SplitDashboard.StudentErrors` | frontend/src/components/Admindashboard1.js:21-25 | the student schema reports errors only for name, age and grade |
| `SplitDashboard.TeacherErrors` | frontend/src/components/Admindashboard1.js:27-30 | the teacher schema reports errors only for name and subject |
| `SplitDashboard.StudentFormValid` | frontend/src/components/Admindashboard1.js:48 | the student submit gate opens iff none of name, age and grade carries an error |
| `SplitDashboard.TeacherFormValid` | frontend/src/components/Admindashboard1.js:77 | the teacher submit gate opens iff neither name nor subject carries an error |
| `SplitDashboard.StudentErrorsPerField` | frontend/src/components/Admindashboard1.js:22-24 | name is reported ("Name is required") iff empty; age is reported iff missing ("Age is required") or not positive ("Age must be a positive number"); grade is reported ("Grade is required") iff empty |
| `SplitDashboard.StudentFormValidIff` | frontend/src/components/Admindashboard1.js:48 | a student form can be submitted iff name is non-empty, age is present and strictly positive, and grade is non-empty |
| `SplitDashboard.TeacherErrorsPerField` | frontend/src/components/Admindashboard1.js:28-29 | name and subject are each reported with their own message iff empty |
| `SplitDashboard.TeacherFormValidIff` | frontend/src/components/Admindashboard1.js:77 | a teacher form can be submitted iff name and subject are non-empty |
| `SplitDashboard.EmptyFormsRejected` | frontend/src/components/Admindashboard1.js:43-47 | the reset student form reports every student field; the reset teacher form reports every teacher field |
| `SplitDashboard.AdminDashboard.constructor` | frontend/src/components/Admindashboard1.js:10-39 | starts with the mock tables, both modals closed, nothing selected and empty forms |
| `SplitDashboard.AdminDashboard.SubmitStudent` | frontend/src/components/Admindashboard1.js:49-68 | an invalid form changes nothing; a valid form updates the selected student in place (or appends `{id: freshId, ...values}` when none is selected), then clears the selection, resets the form and hides the modal; teacher state is untouched |
| `SplitDashboard.AdminDashboard.SubmitTeacher` | frontend/src/components/Admindashboard1.js:78-97 | the same for teachers; student state is untouched |
| `SplitDashboard.AdminDashboard.EditStudent` | frontend/src/components/Admindashboard1.js:100-105 | selects the student, loads its fields into the form and shows the modal; nothing else changes |
| `SplitDashboard.AdminDashboard.EditTeacher` | frontend/src/components/Admindashboard1.js:113-118 | selects the teacher, loads its fields into the form and shows the modal; nothing else changes |
| `SplitDashboard.AdminDashboard.DeleteStudent` | frontend/src/components/Admindashboard1.js:107-111 | the students become the old students without the rows carrying the id; nothing else changes |
| `SplitDashboard.AdminDashboard.DeleteTeacher` | frontend/src/components/Admindashboard1.js:120-124 | the teachers become the old teachers without the rows carrying the id; nothing else changes |
| `SplitDashboard.AdminDashboard.ChangeStudentValues` | frontend/src/components/Admindashboard1.js:230-264 | typing into the student inputs sets only the student form's values |
| `SplitDashboard.AdminDashboard.ChangeTeacherValues` | frontend/src/components/Admindashboard1.js:289-312 | typing into the teacher inputs sets only the teacher form's values |
| `SplitDashboard.AdminDashboard.AddStudent` | frontend/src/components/Admindashboard1.js:184-190 | only shows the student modal; an existing selection is kept |
| `SplitDashboard.AdminDashboard.AddTeacher` | frontend/src/components/Admindashboard1.js:191-198 | only shows the teacher modal |
| `SplitDashboard.AdminDashboard.CancelStudentModal` | frontend/src/components/Admindashboard1.js:210-215 | clears the student selection, hides the modal and resets the form; nothing else changes |
| `SplitDashboard.AdminDashboard.CancelTeacherModal` | frontend/src/components/Admindashboard1.js:269-274 | clears the teacher selection, hides the modal and resets the form; nothing else changes |
| `SplitDashboard.AdminDashboard.CloseStudentModal` | frontend/src/components/Admindashboard1.js:217 | the footer Cancel only hides the student modal; selection and form are kept |
| `SplitDashboard.AdminDashboard.CloseTeacherModal` | frontend/src/components/Admindashboard1.js:276 | the footer Cancel only hides the teacher modal |
| `SplitDashboard.StaleSelectionAfterFooterCancel` | frontend/src/components/Admindashboard1.js:184-217 | edit, footer Cancel, "Add Student", save: the selected student is overwritten in place and no row is added |
| `SharedDashboard.SchemaFor` | frontend/src/components/Admindashboard.js:45 | the schema is the student schema iff the kind is 'student'; a null kind gets the teacher schema |
| `SharedDashboard.Errors` | frontend/src/components/Admindashboard.js:21-29 | a schema reports errors only for name and email |
| `SharedDashboard.FormValid` | frontend/src/components/Admindashboard.js:45-46 | the submit gate opens iff neither name nor email carries an error under the schema in force |
| `SharedDashboard.ErrorsPerField` | frontend/src/components/Admindashboard.js:22-28 | under both schemas: name is reported iff empty; email is reported iff empty ("Email is required") or not well formed ("Invalid email address") |
| `SharedDashboard.FormValidIff` | frontend/src/components/Admindashboard.js:40-46 | under either schema the form can be submitted iff name is non-empty and email is non-empty and well formed |
| `SharedDashboard.SchemasAgree` | frontend/src/components/Admindashboard.js:21-29 | the student and teacher schemas report the same errors for every form |
| `SharedDashboard.EmptyFormRejected` | frontend/src/components/Admindashboard.js:41-44 | the reset form reports "Name is required" and "Email is required" |
| `SharedDashboard.AdminDashboard.constructor` | frontend/src/components/Admindashboard.js:10-37 | starts with the mock tables, modal closed, no selection, no kind chosen and an empty form |
| `SharedDashboard.AdminDashboard.DisplayedList` | frontend/src/components/Admindashboard.js:144-147 | the table shows the students iff the kind is 'student', otherwise the teachers |
| `SharedDashboard.AdminDashboard.Submit` | frontend/src/components/Admindashboard.js:46-76 | an invalid form changes nothing. A valid one either updates the selected record in place, or appends `{id: freshId, ...values}`. It does so in the students when the kind is 'student', else in the teachers: the list on display. The other list and the kind are kept. The selection is cleared, the form reset and the modal hidden |
| `SharedDashboard.AdminDashboard.Edit` | frontend/src/components/Admindashboard.js:79-85 | sets the selected record and the kind, loads the record's fields into the form and shows the modal; the lists are kept |
| `SharedDashboard.AdminDashboard.Delete` | frontend/src/components/Admindashboard.js:87-96 | filters by id the students when the kind argument is 'student', the teachers otherwise; the other list is kept |
| `SharedDashboard.AdminDashboard.SelectKind` | frontend/src/components/Admindashboard.js:126-131 | the menu items set the kind to 'student' or 'teacher', which selects the displayed list |
| `SharedDashboard.AdminDashboard.ChangeValues` | frontend/src/components/Admindashboard.js:173-196 | typing into the inputs sets only the form's values |
| `SharedDashboard.AdminDashboard.Add` | frontend/src/components/Admindashboard.js:136-142 | only shows the modal; selection and kind are kept |
| `SharedDashboard.AdminDashboard.Cancel` | frontend/src/components/Admindashboard.js:152-158 | clears the selection and the kind, hides the modal and resets the form; the lists are kept |
| `SharedDashboard.AdminDashboard.CloseModal` | frontend/src/components/Admindashboard.js:160 | the footer Cancel only hides the modal |
| `SharedDashboard.AddBeforeChoosingKind` | frontend/src/components/Admindashboard.js:62-73 | before any menu item is picked the kind is null: a new record is appended to the teachers and the students stay as they were |

## Left out

- Rendering: the JSX, antd's `Table`, `Modal`, `Input` and `Menu` components, column definitions, modal titles and button labels. All of this is presentation done by foreign libraries.
- The touched/blur bookkeeping. Errors are shown only for touched fields; this is display state and does not influence any list.
- Formik's `isSubmitting` flag.
- The email regular expression of the validation library. It is the `isEmail` parameter.
- The library's casting of the age input from text to a number. An age that is not a number is `None`, and its message is taken to be "Age is required". Ages are whole numbers: a fractional age such as "20.5", which the number schema accepts as positive, cannot be expressed.
- `Date.now()` is a clock reading. It is the `freshId` parameter, and nothing is claimed about its uniqueness.
- React's asynchronous, batched state updates and stale closures. Each handler is one synchronous state transition that reads the state as it was when the event arrived.
- An `id` carried in the form values. It appears only while that same record is selected (see above), so the spread merge is modelled as keeping the record's own id.
- `frontend/src/App.js` and `frontend/src/components/Navbar.js` are routing and menu glue, with no state logic. They are not part of this model.
