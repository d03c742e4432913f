/**
 * The single-row statements: `fetch_course_by_id`, `delete_course`,
 * `create_course` and `update_course`. Each executes one f-string whose
 * fields are all the placeholder; the f-string is `p.join(fields)` over its
 * fixed parts. Executing the statement is not part of this model.
 */
module CourseCommands {
  import opened Outcomes
  import opened SqlText
  import opened Backend
  import opened CourseQueries

  // The fixed parts of the four f-strings, written in pieces short enough for
  // the verifier to check character by character.

  function DetailSelect(): string {
    "\n        SELECT courses.name," + " courses.description," + " departments.name"
    + " AS department," + " course_types.type_name"
  }

  function DetailJoinDepartments(): string {
    "\n        JOIN departments" + " ON courses.department_id =" + " departments.id"
  }

  function DetailJoinCourseTypes(): string {
    "\n        JOIN course_types" + " ON courses.course_type_id =" + " course_types.id"
  }

  function DetailWhere(): string {
    "\n        WHERE courses.id = "
  }

  /** The parts of the `fetch_course_by_id` f-string around its one field. */
  function DetailFields(): seq<string> {
    [DetailSelect() + FromCourses() + DetailJoinDepartments() + DetailJoinCourseTypes() + DetailWhere(),
     "\n    "]
  }

  /** The parts of the `delete_course` f-string. */
  function DeleteFields(): seq<string> {
    ["DELETE FROM courses WHERE id = ", ""]
  }

  function InsertInto(): string {
    "\n                INSERT INTO courses" + " (name, description," + " department_id, course_type_id)"
  }

  function InsertValues(): string {
    "\n                VALUES ("
  }

  /** The parts of the `create_course` f-string around its four fields. */
  function InsertFields(): seq<string> {
    [InsertInto() + InsertValues(), ", ", ", ", ", ", ")\n            "]
  }

  function UpdateSet(): string {
    "\n                UPDATE courses" + "\n                SET name = "
  }

  function UpdateWhere(): string {
    "\n                WHERE id = "
  }

  /** The parts of the `update_course` f-string around its five fields. */
  function UpdateFields(): seq<string> {
    [UpdateSet(), ", description = ", ", department_id = ", ", course_type_id = ", UpdateWhere(), "\n            "]
  }

  lemma DetailSelectUnmarked()
    ensures Unmarked(DetailSelect())
  {
    var a, b, c := "\n        SELECT courses.name,", " courses.description,", " departments.name";
    var d, e := " AS department,", " course_types.type_name";
    assert Unmarked(a) && Unmarked(b) && Unmarked(c) && Unmarked(d) && Unmarked(e);
    UnmarkedAppend(a, b);
    UnmarkedAppend(a + b, c);
    UnmarkedAppend(a + b + c, d);
    UnmarkedAppend(a + b + c + d, e);
  }

  lemma DetailJoinDepartmentsUnmarked()
    ensures Unmarked(DetailJoinDepartments())
  {
    var a, b, c := "\n        JOIN departments", " ON courses.department_id =", " departments.id";
    assert Unmarked(a) && Unmarked(b) && Unmarked(c);
    UnmarkedAppend(a, b);
    UnmarkedAppend(a + b, c);
  }

  lemma DetailJoinCourseTypesUnmarked()
    ensures Unmarked(DetailJoinCourseTypes())
  {
    var a, b, c := "\n        JOIN course_types", " ON courses.course_type_id =", " course_types.id";
    assert Unmarked(a) && Unmarked(b) && Unmarked(c);
    UnmarkedAppend(a, b);
    UnmarkedAppend(a + b, c);
  }

  lemma DetailFieldsUnmarked()
    ensures forall k | 0 <= k < |DetailFields()| :: Unmarked(DetailFields()[k])
  {
    DetailSelectUnmarked();
    DetailJoinDepartmentsUnmarked();
    DetailJoinCourseTypesUnmarked();
    assert Unmarked(FromCourses()) && Unmarked(DetailWhere()) && Unmarked("\n    ");
    UnmarkedAppend(DetailSelect(), FromCourses());
    UnmarkedAppend(DetailSelect() + FromCourses(), DetailJoinDepartments());
    UnmarkedAppend(DetailSelect() + FromCourses() + DetailJoinDepartments(), DetailJoinCourseTypes());
    UnmarkedAppend(DetailSelect() + FromCourses() + DetailJoinDepartments() + DetailJoinCourseTypes(),
                   DetailWhere());
  }

  lemma InsertIntoUnmarked()
    ensures Unmarked(InsertInto())
  {
    var a, b, c := "\n                INSERT INTO courses", " (name, description,", " department_id, course_type_id)";
    assert Unmarked(a) && Unmarked(b) && Unmarked(c);
    UnmarkedAppend(a, b);
    UnmarkedAppend(a + b, c);
  }

  lemma InsertFieldsUnmarked()
    ensures forall k | 0 <= k < |InsertFields()| :: Unmarked(InsertFields()[k])
  {
    InsertIntoUnmarked();
    assert Unmarked(InsertValues());
    UnmarkedAppend(InsertInto(), InsertValues());
    assert Unmarked(", ") && Unmarked(")\n            ");
  }

  lemma UpdateSetUnmarked()
    ensures Unmarked(UpdateSet())
  {
    var a, b := "\n                UPDATE courses", "\n                SET name = ";
    assert Unmarked(a) && Unmarked(b);
    UnmarkedAppend(a, b);
  }

  lemma UpdateFieldsUnmarked()
    ensures forall k | 0 <= k < |UpdateFields()| :: Unmarked(UpdateFields()[k])
  {
    UpdateSetUnmarked();
    assert Unmarked(", description = ") && Unmarked(", department_id = ") && Unmarked(", course_type_id = ");
    assert Unmarked(UpdateWhere()) && Unmarked("\n            ");
  }

  /** The statement `fetch_course_by_id` executes, or the error it raises. */
  function CourseByIdStatement(databaseType: string, courseId: int): (r: Result<Statement>)
    ensures r.Err? <==> !Supported(databaseType)
    ensures r.Err? ==> r.message == UnsupportedDatabaseType
    ensures r.Ok? ==> r.value.params == [Int(courseId)]
  {
    match Placeholder(databaseType)
    case Err(e) => Err(e)
    case Ok(p) => Ok(Statement(Join(p, DetailFields()), [Int(courseId)]))
  }

  /** The statement `delete_course` executes, or the error it raises. */
  function DeleteStatement(databaseType: string, courseId: int): (r: Result<Statement>)
    ensures r.Err? <==> !Supported(databaseType)
    ensures r.Err? ==> r.message == UnsupportedDatabaseType
    ensures r.Ok? ==> r.value.params == [Int(courseId)]
  {
    match Placeholder(databaseType)
    case Err(e) => Err(e)
    case Ok(p) => Ok(Statement(Join(p, DeleteFields()), [Int(courseId)]))
  }

  /** The statement `create_course` executes, or the error it raises. */
  function CreateStatement(databaseType: string, name: string, description: string,
                           departmentId: int, courseTypeId: int): (r: Result<Statement>)
    ensures r.Err? <==> !Supported(databaseType)
    ensures r.Err? ==> r.message == UnsupportedDatabaseType
    ensures r.Ok? ==> r.value.params == [Text(name), Text(description), Int(departmentId), Int(courseTypeId)]
  {
    match Placeholder(databaseType)
    case Err(e) => Err(e)
    case Ok(p) =>
      Ok(Statement(Join(p, InsertFields()),
                   [Text(name), Text(description), Int(departmentId), Int(courseTypeId)]))
  }

  /** The statement `update_course` executes, or the error it raises. */
  function UpdateStatement(databaseType: string, courseId: int, name: string, description: string,
                           departmentId: int, courseTypeId: int): (r: Result<Statement>)
    ensures r.Err? <==> !Supported(databaseType)
    ensures r.Err? ==> r.message == UnsupportedDatabaseType
    ensures r.Ok? ==> r.value.params == [Text(name), Text(description), Int(departmentId), Int(courseTypeId), Int(courseId)]
  {
    match Placeholder(databaseType)
    case Err(e) => Err(e)
    case Ok(p) =>
      Ok(Statement(Join(p, UpdateFields()),
                   [Text(name), Text(description), Int(departmentId), Int(courseTypeId), Int(courseId)]))
  }

  /** `fetch_course_by_id` and `delete_course` each open one slot, for their one parameter. */
  lemma SingleRowSlotsMatchParams(databaseType: string, courseId: int)
    requires Supported(databaseType)
    ensures var p := Placeholder(databaseType).value;
            && Slots(CourseByIdStatement(databaseType, courseId).value.sql, p) == 1
            && Slots(DeleteStatement(databaseType, courseId).value.sql, p) == 1
  {
    var p := Placeholder(databaseType).value;
    DetailFieldsUnmarked();
    JoinSlots(DetailFields(), p);
    assert Unmarked("DELETE FROM courses WHERE id = ") && Unmarked("");
    JoinSlots(DeleteFields(), p);
  }

  /** `create_course` opens four slots, one for each value of its tuple. */
  lemma CreateSlotsMatchParams(databaseType: string, name: string, description: string,
                               departmentId: int, courseTypeId: int)
    requires Supported(databaseType)
    ensures Slots(CreateStatement(databaseType, name, description, departmentId, courseTypeId).value.sql,
                  Placeholder(databaseType).value) == 4
  {
    InsertFieldsUnmarked();
    JoinSlots(InsertFields(), Placeholder(databaseType).value);
  }

  /** `update_course` opens five slots, one for each value of its tuple. */
  lemma UpdateSlotsMatchParams(databaseType: string, courseId: int, name: string, description: string,
                               departmentId: int, courseTypeId: int)
    requires Supported(databaseType)
    ensures Slots(UpdateStatement(databaseType, courseId, name, description, departmentId, courseTypeId).value.sql,
                  Placeholder(databaseType).value) == 5
  {
    UpdateFieldsUnmarked();
    JoinSlots(UpdateFields(), Placeholder(databaseType).value);
  }

  /**
   * In `update_course` the four SET values take the first four slots and the
   * course id, last in the tuple, takes the fifth slot, the one right after
   * `WHERE id = `.
   */
  lemma UpdateBindsIdInWhere(databaseType: string, courseId: int, name: string, description: string,
                             departmentId: int, courseTypeId: int)
    requires Supported(databaseType)
    ensures var p := Placeholder(databaseType).value;
            var s := UpdateStatement(databaseType, courseId, name, description, departmentId, courseTypeId).value;
            var setPart := Join(p, UpdateFields()[..5]);
            && s.sql == setPart + p + "\n            "
            && Slots(setPart, p) == 4
            && |setPart| >= |UpdateWhere()| && setPart[|setPart| - |UpdateWhere()|..] == UpdateWhere()
            && s.params[4] == Int(courseId)
  {
    var p := Placeholder(databaseType).value;
    var fields := UpdateFields();
    assert fields == fields[..5] + [fields[5]];
    JoinSnoc(p, fields[..5], fields[5]);
    UpdateFieldsUnmarked();
    JoinSlots(fields[..5], p);
    assert fields[..5] == fields[..4] + [fields[4]];
    JoinSnoc(p, fields[..4], fields[4]);
  }
}
