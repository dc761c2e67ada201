/**
 * The "Add New Class" and "Edit Class" modals (ClassCreate.jsx,
 * ClassUpdate.jsx). Only the class name is validated; the class teacher
 * comes from a select that is watched and submitted as a number.
 */
module ClassForms {
  import opened Js
  import opened Validation

  const CreateSchema: Schema := [FieldRule("name", MinLen(2))]

  const CreateDefaults: Form := map["name" := Str(""), "teacherId" := Int(0)]

  /** `onSubmit` of the create modal: the parsed name plus `teacherId: Number(teacherId)`. */
  function CreateRequest(form: Form, isEmail: string -> bool): (r: Option<Form>)
    ensures r.Some? <==> Check(MinLen(2), Field(form, "name"), isEmail)
    ensures r.Some? ==> r.value == map["name" := form["name"], "teacherId" := WatchedNumber(form, "teacherId")]
  {
    match Validate(CreateSchema, form, isEmail)
    case Valid(data) =>
      assert CreateSchema[0].name == "name";
      assert data.Keys == {"name"};
      Some(data["teacherId" := WatchedNumber(form, "teacherId")])
    case Invalid(_) => None
  }

  /** The reset form is rejected for its empty name. */
  lemma CreateDefaultsRejected(isEmail: string -> bool)
    ensures Validate(CreateSchema, CreateDefaults, isEmail) == Invalid({"name"})
  {
    assert !Check(CreateSchema[0].rule, Field(CreateDefaults, CreateSchema[0].name), isEmail);
  }

  /**
   * The teacher is not validated: a class named but left without a chosen
   * teacher is created with teacher 0, and choosing one (its option value is
   * the teacher's id) submits that id.
   */
  lemma TeacherSubmitted(name: string, c: int, isEmail: string -> bool)
    requires |name| >= 2
    ensures CreateRequest(map["name" := Str(name), "teacherId" := Int(0)], isEmail) ==
      Some(map["name" := Str(name), "teacherId" := Int(0)])
    ensures CreateRequest(map["name" := Str(name), "teacherId" := Str(IntToString(c))], isEmail) ==
      Some(map["name" := Str(name), "teacherId" := Int(c)])
  {
  }

  const UpdateSchema: Schema := [FieldRule("name", MinLen(2)), FieldRule("id", OptionalNumber)]

  const UpdateFallbacks: Form := map["id" := Int(0), "name" := Str(""), "teacherId" := Int(0)]

  /**
   * The edit modal's submit: the parsed name and id plus the watched
   * teacher, then PATCH `/class/<id>` with everything but the id.
   */
  function UpdateSubmit(form: Form, isEmail: string -> bool): (r: Option<Patch>)
    ensures r.Some? <==> Check(MinLen(2), Field(form, "name"), isEmail) && Check(OptionalNumber, Field(form, "id"), isEmail)
    ensures r.Some? ==> r.value.path == "/class/" + Render(Field(form, "id"))
    ensures r.Some? ==> r.value.body == map["name" := form["name"], "teacherId" := WatchedNumber(form, "teacherId")]
  {
    assert UpdateSchema[0] == FieldRule("name", MinLen(2)) && UpdateSchema[1] == FieldRule("id", OptionalNumber);
    match Validate(UpdateSchema, form, isEmail)
    case Valid(data) =>
      assert data == Known(form, UpdateSchema);
      assert Names(UpdateSchema) == {"name", "id"};
      Some(SplitId("/class/", data["teacherId" := WatchedNumber(form, "teacherId")]))
    case Invalid(_) => None
  }

  /**
   * Opening the edit modal on a class record with an integer id and teacher
   * and saving it untouched patches `/class/<its id>` with its name and
   * teacher.
   */
  lemma UntouchedUpdate(id: int, name: string, teacher: int, isEmail: string -> bool)
    requires |name| >= 2
    ensures var cls := Obj(map["id" := Int(id), "name" := Str(name), "teacherId" := Int(teacher)]);
      UpdateSubmit(DefaultsFrom(cls, UpdateFallbacks), isEmail) ==
      Some(Patch("/class/" + IntToString(id), map["name" := Str(name), "teacherId" := Int(teacher)]))
  {
    var cls := Obj(map["id" := Int(id), "name" := Str(name), "teacherId" := Int(teacher)]);
    var d := DefaultsFrom(cls, UpdateFallbacks);
    assert d["id"] == Int(id) && d["name"] == Str(name) && d["teacherId"] == Int(teacher);
    assert WatchedNumber(d, "teacherId") == Int(teacher);
    var r := UpdateSubmit(d, isEmail);
    assert r.Some? && r.value.path == "/class/" + IntToString(id);
    assert r.value.body == map["name" := Str(name), "teacherId" := Int(teacher)];
  }
}
