/**
 * The "Edit School" modal (SchoolUpdate.jsx): the school's contact and
 * payment details. Two phone numbers are checked against the shared phone
 * pattern; the three payment fields are optional.
 */
module SchoolForm {
  import opened Js
  import opened Validation

  const UpdateSchema: Schema := [
    FieldRule("id", OptionalNumber),
    FieldRule("name", MinLen(2)),
    FieldRule("email", EmailString),
    FieldRule("phone", PhoneString),
    FieldRule("phone2", PhoneString),
    FieldRule("address", MinLen(2)),
    FieldRule("mpesaInfo", OptionalString),
    FieldRule("bankName", OptionalString),
    FieldRule("bankAcc", OptionalString),
    FieldRule("address2", MinLen(2)),
    FieldRule("town", MinLen(2)),
    FieldRule("school_motto", MinLen(2))
  ]

  /** The fallbacks of `reset`: 0 for the id, the empty string for every other field. */
  const UpdateFallbacks: Form := BlankFallbacks(UpdateSchema)

  /** The fields the edit sends, besides the id that selects the school. */
  const Details: set<string> := {"name", "email", "phone", "phone2", "address", "mpesaInfo", "bankName",
    "bankAcc", "address2", "town", "school_motto"}

  lemma UpdateNames()
    ensures Names(UpdateSchema) == Details + {"id"}
  {
    var s := UpdateSchema;
    assert s[0].name == "id" && s[1].name == "name" && s[2].name == "email" && s[3].name == "phone";
    assert s[4].name == "phone2" && s[5].name == "address" && s[6].name == "mpesaInfo" && s[7].name == "bankName";
    assert s[8].name == "bankAcc" && s[9].name == "address2" && s[10].name == "town" && s[11].name == "school_motto";
  }

  /** The modal's submit: PATCH `/school/update/<id>` with every other field of the schema. */
  function UpdateSubmit(form: Form, isEmail: string -> bool): (r: Option<Patch>)
    ensures r.Some? <==> Validate(UpdateSchema, form, isEmail).Valid?
    ensures r.Some? ==> r.value.path == "/school/update/" + Render(Field(form, "id"))
    ensures r.Some? ==> r.value.body.Keys == form.Keys * Details
    ensures r.Some? ==> forall k :: k in r.value.body ==> r.value.body[k] == form[k]
  {
    UpdateNames();
    assert Names(UpdateSchema) - {"id"} == Details;
    assert (form.Keys * Names(UpdateSchema)) - {"id"} == form.Keys * Details;
    SubmitPatch("/school/update/", UpdateSchema, form, isEmail)
  }

  /**
   * The payment details never block saving when the school record leaves
   * them out: `reset` fills them with empty strings, which the optional
   * rules accept.
   */
  lemma MissingPaymentDetailsAccepted(objData: Value, isEmail: string -> bool)
    requires forall k :: k in {"mpesaInfo", "bankName", "bankAcc"} ==> Nullish(Get(objData, k))
    ensures Check(OptionalString, Field(DefaultsFrom(objData, UpdateFallbacks), "mpesaInfo"), isEmail)
    ensures Check(OptionalString, Field(DefaultsFrom(objData, UpdateFallbacks), "bankName"), isEmail)
    ensures Check(OptionalString, Field(DefaultsFrom(objData, UpdateFallbacks), "bankAcc"), isEmail)
  {
    assert Nullish(Get(objData, "mpesaInfo")) && Nullish(Get(objData, "bankName")) && Nullish(Get(objData, "bankAcc"));
  }

  /**
   * Opening the modal on a school record that has exactly the schema's
   * fields, all valid, and saving it untouched patches
   * `/school/update/<its id>` with the record's other fields.
   */
  lemma UntouchedUpdate(school: map<string, Value>, id: int, isEmail: string -> bool)
    requires school.Keys == Names(UpdateSchema) && Field(school, "id") == Int(id)
    requires forall i :: 0 <= i < |UpdateSchema| ==> Check(UpdateSchema[i].rule, school[UpdateSchema[i].name], isEmail)
    requires forall k :: k in school ==> !Nullish(school[k])
    ensures UpdateSubmit(DefaultsFrom(Obj(school), UpdateFallbacks), isEmail) ==
      Some(Patch("/school/update/" + IntToString(id), school - {"id"}))
  {
    ResubmitPatch("/school/update/", UpdateSchema, UpdateFallbacks, school, id, isEmail);
  }
}
