/**
 * The "Add New User" and "Edit User" modals (UserCreate.jsx,
 * UserUpdate.jsx). Creating a user sets a password; the edit modal's schema
 * has no password field, so an edit never sends one.
 */
module UserForms {
  import opened Js
  import opened Validation

  const Roles: seq<string> := ["ADMIN", "USER"]

  // `role`'s refine repeats what the enum already demands, so it adds no rule.
  const CreateSchema: Schema := [
    FieldRule("name", MinLen(1)),
    FieldRule("password", MinLen(1)),
    FieldRule("email", EmailString),
    FieldRule("role", OneOf(Roles)),
    FieldRule("activeStatus", Boolean)
  ]

  const CreateDefaults: Form := map[
    "name" := Str(""),
    "email" := Str(""),
    "password" := Str(""),
    "role" := Str("USER"),
    "activeStatus" := Bool(false)
  ]

  /** `onSubmit` of the create modal posts the parsed data unchanged. */
  function CreateRequest(form: Form, isEmail: string -> bool): (r: Option<Form>)
    ensures r.Some? <==> Validate(CreateSchema, form, isEmail).Valid?
    ensures r.Some? ==> r.value.Keys == form.Keys * {"name", "password", "email", "role", "activeStatus"}
    ensures r.Some? ==> forall k :: k in r.value ==> r.value[k] == form[k]
  {
    CreateNames();
    match Validate(CreateSchema, form, isEmail)
    case Valid(data) => Some(data)
    case Invalid(_) => None
  }

  lemma CreateNames()
    ensures Names(CreateSchema) == {"name", "password", "email", "role", "activeStatus"}
  {
    var s := CreateSchema;
    assert s[0].name == "name" && s[1].name == "password" && s[2].name == "email";
    assert s[3].name == "role" && s[4].name == "activeStatus";
  }

  /**
   * The reset form is rejected for the name, the password and the email (zod
   * rejects the empty address); the role and the inactive status pass.
   */
  lemma CreateDefaultsRejected(isEmail: string -> bool)
    requires !isEmail("")
    ensures Validate(CreateSchema, CreateDefaults, isEmail) == Invalid({"name", "password", "email"})
  {
    var d := CreateDefaults;
    assert !Check(CreateSchema[0].rule, Field(d, CreateSchema[0].name), isEmail);
    assert !Check(CreateSchema[1].rule, Field(d, CreateSchema[1].name), isEmail);
    assert !Check(CreateSchema[2].rule, Field(d, CreateSchema[2].name), isEmail);
    assert Check(CreateSchema[3].rule, Field(d, CreateSchema[3].name), isEmail);
    assert Check(CreateSchema[4].rule, Field(d, CreateSchema[4].name), isEmail);
    assert Violations(CreateSchema, d, isEmail) == {"name", "password", "email"};
  }

  const UpdateSchema: Schema := [
    FieldRule("id", OptionalNumber),
    FieldRule("name", MinLen(1)),
    FieldRule("email", EmailString),
    FieldRule("role", OneOf(Roles)),
    FieldRule("activeStatus", Boolean)
  ]

  const UpdateFallbacks: Form := map[
    "id" := Int(0),
    "name" := Str(""),
    "email" := Str(""),
    "role" := Str("USER"),
    "activeStatus" := Bool(false)
  ]

  lemma UpdateNames()
    ensures Names(UpdateSchema) == {"id", "name", "email", "role", "activeStatus"}
  {
    var s := UpdateSchema;
    assert s[0].name == "id" && s[1].name == "name" && s[2].name == "email";
    assert s[3].name == "role" && s[4].name == "activeStatus";
  }

  /** The edit modal's submit: PATCH `/user/<id>` with the name, email, role and status. */
  function UpdateSubmit(form: Form, isEmail: string -> bool): (r: Option<Patch>)
    ensures r.Some? <==> Validate(UpdateSchema, form, isEmail).Valid?
    ensures r.Some? ==> r.value.path == "/user/" + Render(Field(form, "id"))
    ensures r.Some? ==> r.value.body.Keys == form.Keys * {"name", "email", "role", "activeStatus"}
    ensures r.Some? ==> forall k :: k in r.value.body ==> r.value.body[k] == form[k]
  {
    UpdateNames();
    assert Names(UpdateSchema) - {"id"} == {"name", "email", "role", "activeStatus"};
    assert (form.Keys * Names(UpdateSchema)) - {"id"} == form.Keys * {"name", "email", "role", "activeStatus"};
    SubmitPatch("/user/", UpdateSchema, form, isEmail)
  }

  /** Whatever the form holds, including a password, an edit never sends one. */
  lemma UpdateNeverSendsPassword(form: Form, isEmail: string -> bool)
    ensures UpdateSubmit(form, isEmail).Some? ==> "password" !in UpdateSubmit(form, isEmail).value.body
  {
    assert "password" !in Names(UpdateSchema) by { UpdateNames(); }
    var r := SubmitPatch("/user/", UpdateSchema, form, isEmail);
    assert r.Some? ==> r.value.body.Keys <= Names(UpdateSchema);
  }

  /**
   * Opening the edit modal on a valid user record and saving it untouched
   * patches `/user/<its id>` with the record's other fields.
   */
  lemma UntouchedUpdate(user: map<string, Value>, id: int, isEmail: string -> bool)
    requires user.Keys == {"id", "name", "email", "role", "activeStatus"} && Field(user, "id") == Int(id)
    requires Check(MinLen(1), Field(user, "name"), isEmail) && Check(EmailString, Field(user, "email"), isEmail)
    requires Check(OneOf(Roles), Field(user, "role"), isEmail) && Check(Boolean, Field(user, "activeStatus"), isEmail)
    ensures UpdateSubmit(DefaultsFrom(Obj(user), UpdateFallbacks), isEmail) ==
      Some(Patch("/user/" + IntToString(id), user - {"id"}))
  {
    UpdateNames();
    var s := UpdateSchema;
    forall i | 0 <= i < |s| ensures Check(s[i].rule, user[s[i].name], isEmail) {
      if i == 0 {} else if i == 1 {} else if i == 2 {} else if i == 3 {} else {}
    }
    ResubmitPatch("/user/", s, UpdateFallbacks, user, id, isEmail);
  }
}
