/**
 * The "Add New Teacher" and "Edit Teacher" modals (TeacherCreate.jsx,
 * TeacherUpdate.jsx): both check the two names and the phone number; the
 * edit modal also carries the teacher's id, which selects the PATCH target.
 */
module TeacherForms {
  import opened Js
  import opened Validation

  const CreateSchema: Schema := [
    FieldRule("first_name", MinLen(2)),
    FieldRule("last_name", MinLen(2)),
    FieldRule("phone", PhoneString)
  ]

  const CreateDefaults: Form := map["first_name" := Str(""), "last_name" := Str(""), "phone" := Str("")]

  /** `onSubmit` of the create modal posts the parsed data unchanged. */
  function CreateRequest(form: Form, isEmail: string -> bool): (r: Option<Form>)
    ensures r.Some? <==> Validate(CreateSchema, form, isEmail).Valid?
    ensures r.Some? ==> r.value.Keys == form.Keys * {"first_name", "last_name", "phone"}
    ensures r.Some? ==> forall k :: k in r.value ==> r.value[k] == form[k]
  {
    CreateNames();
    match Validate(CreateSchema, form, isEmail)
    case Valid(data) => Some(data)
    case Invalid(_) => None
  }

  lemma CreateNames()
    ensures Names(CreateSchema) == {"first_name", "last_name", "phone"}
  {
    var s := CreateSchema;
    assert s[0].name == "first_name" && s[1].name == "last_name" && s[2].name == "phone";
  }

  lemma CreateValidIff(form: Form, isEmail: string -> bool)
    ensures Validate(CreateSchema, form, isEmail).Valid? <==>
      && Check(MinLen(2), Field(form, "first_name"), isEmail)
      && Check(MinLen(2), Field(form, "last_name"), isEmail)
      && Check(PhoneString, Field(form, "phone"), isEmail)
  {
    var s := CreateSchema;
    assert s[0] == FieldRule("first_name", MinLen(2));
    assert s[1] == FieldRule("last_name", MinLen(2));
    assert s[2] == FieldRule("phone", PhoneString);
  }

  /** The reset form is rejected on all three fields. */
  lemma CreateDefaultsRejected(isEmail: string -> bool)
    ensures Validate(CreateSchema, CreateDefaults, isEmail) == Invalid({"first_name", "last_name", "phone"})
  {
    var d := CreateDefaults;
    assert !Check(CreateSchema[0].rule, Field(d, CreateSchema[0].name), isEmail);
    assert !Check(CreateSchema[1].rule, Field(d, CreateSchema[1].name), isEmail);
    assert !Check(CreateSchema[2].rule, Field(d, CreateSchema[2].name), isEmail);
    assert Violations(CreateSchema, d, isEmail) == {"first_name", "last_name", "phone"};
  }

  const UpdateSchema: Schema := [
    FieldRule("id", OptionalNumber),
    FieldRule("first_name", MinLen(2)),
    FieldRule("last_name", MinLen(2)),
    FieldRule("phone", PhoneString)
  ]

  /** The fallbacks of `reset`: 0 for the id, the empty string for the names and the phone. */
  const UpdateFallbacks: Form := BlankFallbacks(UpdateSchema)

  lemma UpdateNames()
    ensures Names(UpdateSchema) == {"id", "first_name", "last_name", "phone"}
  {
    var s := UpdateSchema;
    assert s[0].name == "id" && s[1].name == "first_name" && s[2].name == "last_name" && s[3].name == "phone";
  }

  /** The edit modal's submit: PATCH `/teacher/<id>` with the names and the phone. */
  function UpdateSubmit(form: Form, isEmail: string -> bool): (r: Option<Patch>)
    ensures r.Some? <==> Validate(UpdateSchema, form, isEmail).Valid?
    ensures r.Some? ==> r.value.path == "/teacher/" + Render(Field(form, "id"))
    ensures r.Some? ==> r.value.body.Keys == form.Keys * {"first_name", "last_name", "phone"}
    ensures r.Some? ==> forall k :: k in r.value.body ==> r.value.body[k] == form[k]
  {
    UpdateNames();
    assert Names(UpdateSchema) - {"id"} == {"first_name", "last_name", "phone"};
    assert (form.Keys * Names(UpdateSchema)) - {"id"} == form.Keys * {"first_name", "last_name", "phone"};
    SubmitPatch("/teacher/", UpdateSchema, form, isEmail)
  }

  lemma UpdateValidIff(form: Form, isEmail: string -> bool)
    ensures UpdateSubmit(form, isEmail).Some? <==>
      && Check(OptionalNumber, Field(form, "id"), isEmail)
      && Check(MinLen(2), Field(form, "first_name"), isEmail)
      && Check(MinLen(2), Field(form, "last_name"), isEmail)
      && Check(PhoneString, Field(form, "phone"), isEmail)
  {
    var s := UpdateSchema;
    assert s[0] == FieldRule("id", OptionalNumber);
    assert s[1] == FieldRule("first_name", MinLen(2));
    assert s[2] == FieldRule("last_name", MinLen(2));
    assert s[3] == FieldRule("phone", PhoneString);
  }

  /**
   * Opening the edit modal on a valid teacher record and saving it untouched
   * patches `/teacher/<its id>` with the record's other fields.
   */
  lemma UntouchedUpdate(teacher: map<string, Value>, id: int, isEmail: string -> bool)
    requires teacher.Keys == Names(UpdateSchema) && Field(teacher, "id") == Int(id)
    requires Check(MinLen(2), Field(teacher, "first_name"), isEmail) && Check(MinLen(2), Field(teacher, "last_name"), isEmail)
    requires Check(PhoneString, Field(teacher, "phone"), isEmail)
    ensures UpdateSubmit(DefaultsFrom(Obj(teacher), UpdateFallbacks), isEmail) ==
      Some(Patch("/teacher/" + IntToString(id), teacher - {"id"}))
  {
    var s := UpdateSchema;
    forall i | 0 <= i < |s| ensures Check(s[i].rule, teacher[s[i].name], isEmail) {
      if i == 0 {} else if i == 1 {} else if i == 2 {} else {}
    }
    ResubmitPatch("/teacher/", s, UpdateFallbacks, teacher, id, isEmail);
  }
}
