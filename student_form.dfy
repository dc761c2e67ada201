/**
 * The "Add New Student" modal (StudentCreate.jsx): its schema, the values it
 * resets to, and the request it posts. The class select is watched and
 * submitted, but the schema does not check it.
 */
module StudentForm {
  import opened Js
  import opened Validation

  const Genders: seq<string> := ["MALE", "FEMALE"]

  // `gender`'s refine repeats what the enum already demands, so it adds no rule.
  const CreateSchema: Schema := [
    FieldRule("first_name", MinLen(2)),
    FieldRule("last_name", MinLen(2)),
    FieldRule("dob", IsDate),
    FieldRule("feeAmount", NonNegative),
    FieldRule("guardianName", MinLen(2)),
    FieldRule("guardianPhone", PhoneString),
    FieldRule("gender", OneOf(Genders))
  ]

  const CreateDefaults: Form := map[
    "first_name" := Str(""),
    "last_name" := Str(""),
    "dob" := Str(""),
    "classId" := Int(0),
    "gender" := Str("MALE"),
    "feeAmount" := Int(0),
    "guardianName" := Str(""),
    "guardianPhone" := Str("")
  ]

  /** `onSubmit` after the resolver: the parsed fields plus `classId: Number(classId)`. */
  function CreateRequest(form: Form, isEmail: string -> bool): (r: Option<Form>)
    ensures r.Some? <==> Validate(CreateSchema, form, isEmail).Valid?
    ensures r.Some? ==> r.value.Keys == Known(form, CreateSchema).Keys + {"classId"}
    ensures r.Some? ==> forall k :: k in r.value && k != "classId" ==> r.value[k] == form[k]
    ensures r.Some? ==> r.value["classId"] == WatchedNumber(form, "classId")
  {
    match Validate(CreateSchema, form, isEmail)
    case Valid(data) => Some(data["classId" := WatchedNumber(form, "classId")])
    case Invalid(_) => None
  }

  /** The student form is accepted exactly when each of its seven fields meets its rule. */
  lemma CreateValidIff(form: Form, isEmail: string -> bool)
    ensures Validate(CreateSchema, form, isEmail).Valid? <==>
      && Check(MinLen(2), Field(form, "first_name"), isEmail)
      && Check(MinLen(2), Field(form, "last_name"), isEmail)
      && Check(IsDate, Field(form, "dob"), isEmail)
      && Check(NonNegative, Field(form, "feeAmount"), isEmail)
      && Check(MinLen(2), Field(form, "guardianName"), isEmail)
      && Check(PhoneString, Field(form, "guardianPhone"), isEmail)
      && Check(OneOf(Genders), Field(form, "gender"), isEmail)
  {
    var s := CreateSchema;
    assert s[0] == FieldRule("first_name", MinLen(2));
    assert s[1] == FieldRule("last_name", MinLen(2));
    assert s[2] == FieldRule("dob", IsDate);
    assert s[3] == FieldRule("feeAmount", NonNegative);
    assert s[4] == FieldRule("guardianName", MinLen(2));
    assert s[5] == FieldRule("guardianPhone", PhoneString);
    assert s[6] == FieldRule("gender", OneOf(Genders));
  }

  /** The reset form is rejected for the names, the birth date, the guardian's name and phone. */
  lemma CreateDefaultsRejected(isEmail: string -> bool)
    ensures Validate(CreateSchema, CreateDefaults, isEmail) ==
      Invalid({"first_name", "last_name", "dob", "guardianName", "guardianPhone"})
  {
    var d := CreateDefaults;
    assert !Check(CreateSchema[0].rule, Field(d, CreateSchema[0].name), isEmail);
    assert !Check(CreateSchema[1].rule, Field(d, CreateSchema[1].name), isEmail);
    assert !Check(CreateSchema[2].rule, Field(d, CreateSchema[2].name), isEmail);
    assert Check(CreateSchema[3].rule, Field(d, CreateSchema[3].name), isEmail);
    assert !Check(CreateSchema[4].rule, Field(d, CreateSchema[4].name), isEmail);
    assert !Check(CreateSchema[5].rule, Field(d, CreateSchema[5].name), isEmail);
    assert Check(CreateSchema[6].rule, Field(d, CreateSchema[6].name), isEmail);
    assert Violations(CreateSchema, d, isEmail) == {"first_name", "last_name", "dob", "guardianName", "guardianPhone"};
  }

  /**
   * The class is not validated: whatever the select holds, the form's
   * acceptance is unchanged, so leaving it on "Select class" submits class 0.
   */
  lemma ClassNotValidated(form: Form, v: Value, isEmail: string -> bool)
    ensures Validate(CreateSchema, form["classId" := v], isEmail) == Validate(CreateSchema, form, isEmail)
    ensures Validate(CreateSchema, form, isEmail).Valid? && (v == Int(0) || v == Str("0")) ==>
      CreateRequest(form["classId" := v], isEmail) == Some(Validate(CreateSchema, form, isEmail).data["classId" := Int(0)])
  {
    assert "classId" !in Names(CreateSchema);
    ValidateIgnoresOthers(CreateSchema, form, "classId", v, isEmail);
    if v == Str("0") {
      assert Str("0") == Str(IntToString(0));
    }
  }

  /** Choosing a class from the select (its option value is the class id) submits that id as a number. */
  lemma SelectedClassSubmitted(form: Form, c: int, isEmail: string -> bool)
    requires Validate(CreateSchema, form, isEmail).Valid?
    requires Field(form, "classId") == Str(IntToString(c))
    ensures CreateRequest(form, isEmail).value["classId"] == Int(c)
  {
  }
}
