/**
 * The payment modals: creating a fee payment (PaymentCreate.jsx) and
 * editing one (PaymentUpdate.jsx). Both derive the class and the displayed
 * fee balance from the selected student; neither submits that balance.
 */
module PaymentForms {
  import opened Js
  import opened Validation

  const Modes: seq<string> := ["MPESA", "CASH", "BANK", "CHEQUE"]

  /** What the read-only "Amount Due" box shows. */
  datatype AmountDueText =
    | Grouped(amount: Value)   // `KES ${new Intl.NumberFormat().format(amount)}`
    | NoAmount                 // 'KES 0.00'

  /**
   * The student whose id equals `Number(studentId)`: nothing while the list
   * is not loaded or when no student has that id, otherwise the first one
   * that has it.
   */
  function SelectedStudent(students: Option<seq<Value>>, studentId: Value): (r: Option<Value>)
    ensures r.None? <==> students.None? || NoMatch(students.value, "id", Number(ToNumber(studentId)))
    ensures forall j: nat :: students.Some? && FirstMatch(students.value, "id", Number(ToNumber(studentId)), j) ==>
      r == Some(students.value[j])
    ensures r.Some? ==> StrictEq(Get(r.value, "id"), Number(ToNumber(studentId))) && Truthy(r.value)
  {
    Find(students, "id", Number(ToNumber(studentId)))
  }

  /** `feeAmountDue`: the selected student's `feeBalance`, undefined when none is selected. */
  function FeeAmountDue(students: Option<seq<Value>>, studentId: Value): (due: Value)
    ensures students.None? || NoMatch(students.value, "id", Number(ToNumber(studentId))) ==> due == Undefined
    ensures forall j: nat :: students.Some? && FirstMatch(students.value, "id", Number(ToNumber(studentId)), j) ==>
      due == Get(students.value[j], "feeBalance")
  {
    match SelectedStudent(students, studentId)
    case Some(st) => Get(st, "feeBalance")
    case None => Undefined
  }

  /**
   * Choosing, in the student select, the student whose integer id is `n`
   * (the select holds the id as a string) shows that student's balance,
   * provided the loaded students have distinct ids.
   */
  lemma AmountDueOfChosenStudent(students: seq<Value>, j: nat, n: int)
    requires UniqueIds(students) && j < |students| && Get(students[j], "id") == Int(n)
    ensures FeeAmountDue(Some(students), Str(Render(Int(n)))) == Get(students[j], "feeBalance")
  {
    NumberOfRenderedInt(n);
    UniqueMatchIsFirst(students, Number(ToNumber(Str(Render(Int(n))))), j);
  }

  function AmountDueDisplay(due: Value): (t: AmountDueText)
    ensures t.NoAmount? <==> !Truthy(due)
    ensures t.Grouped? ==> t.amount == due
  {
    if Truthy(due) then Grouped(due) else NoAmount
  }

  // ---------------------------------------------------------------------------
  // Create

  const CreateSchema: Schema := [
    FieldRule("classId", MinLen(1)),
    FieldRule("studentId", MinLen(1)),
    FieldRule("amount", NonNegative),
    FieldRule("reference", MinLen(1)),
    FieldRule("payment_mode", OneOf(Modes))
  ]

  /** The values `reset` installs when the create modal mounts. */
  const CreateDefaults: Form := map[
    "classId" := Str(""),
    "studentId" := Str(""),
    "amount" := Str(""),
    "reference" := Str(""),
    "payment_mode" := Str("MPESA")
  ]

  /** The create form is accepted exactly when every field meets its rule. */
  lemma CreateValidIff(form: Form, isEmail: string -> bool)
    ensures Validate(CreateSchema, form, isEmail).Valid? <==>
      && Field(form, "classId").Str? && |Field(form, "classId").s| >= 1
      && Field(form, "studentId").Str? && |Field(form, "studentId").s| >= 1
      && Field(form, "amount").Number? && Field(form, "amount").num.Fin? && Field(form, "amount").num.n >= 0
      && Field(form, "reference").Str? && |Field(form, "reference").s| >= 1
      && Field(form, "payment_mode").Str? && Field(form, "payment_mode").s in Modes
  {
    var r := Validate(CreateSchema, form, isEmail);
    if r.Valid? {
      assert Check(CreateSchema[0].rule, Field(form, CreateSchema[0].name), isEmail);
      assert Check(CreateSchema[1].rule, Field(form, CreateSchema[1].name), isEmail);
      assert Check(CreateSchema[2].rule, Field(form, CreateSchema[2].name), isEmail);
      assert Check(CreateSchema[3].rule, Field(form, CreateSchema[3].name), isEmail);
      assert Check(CreateSchema[4].rule, Field(form, CreateSchema[4].name), isEmail);
    }
  }

  /** The freshly reset form is rejected: ids, amount and reference are all still missing. */
  lemma CreateDefaultsRejected(isEmail: string -> bool)
    ensures Validate(CreateSchema, CreateDefaults, isEmail) ==
      Invalid({"classId", "studentId", "amount", "reference"})
  {
    var v := Violations(CreateSchema, CreateDefaults, isEmail);
    assert !Check(CreateSchema[0].rule, Field(CreateDefaults, CreateSchema[0].name), isEmail);
    assert !Check(CreateSchema[1].rule, Field(CreateDefaults, CreateSchema[1].name), isEmail);
    assert !Check(CreateSchema[2].rule, Field(CreateDefaults, CreateSchema[2].name), isEmail);
    assert !Check(CreateSchema[3].rule, Field(CreateDefaults, CreateSchema[3].name), isEmail);
    assert Check(CreateSchema[4].rule, Field(CreateDefaults, CreateSchema[4].name), isEmail);
    assert v == {"classId", "studentId", "amount", "reference"};
  }

  /** A cleared amount box (NaN) or a negative amount keeps the form from submitting. */
  lemma BadAmountRejected(form: Form, x: Num, isEmail: string -> bool)
    requires x.NaN? || x.n < 0
    ensures Validate(CreateSchema, form["amount" := Number(x)], isEmail).Invalid?
    ensures "amount" in Validate(CreateSchema, form["amount" := Number(x)], isEmail).errors
  {
    var f := form["amount" := Number(x)];
    assert !Check(CreateSchema[2].rule, Field(f, CreateSchema[2].name), isEmail);
  }

  /**
   * The selection effect of the create form: when a student matches
   * `Number(studentId)`, `classId` becomes the student's class rendered as a
   * string; otherwise the form is untouched.
   */
  function CreateSyncClass(form: Form, students: Option<seq<Value>>): (f: Form)
    ensures SelectedStudent(students, Coalesce(Field(form, "studentId"), Str("0"))).None? ==> f == form
    ensures var sel := SelectedStudent(students, Coalesce(Field(form, "studentId"), Str("0")));
      sel.Some? ==> f == form["classId" := Str(Render(Get(sel.value, "classId")))]
  {
    match SelectedStudent(students, Coalesce(Field(form, "studentId"), Str("0")))
    case Some(st) => form["classId" := Str(Render(Get(st, "classId")))]
    case None => form
  }

  /** `onSubmit`: the validated data with `classId` and `studentId` replaced by their numbers. */
  function CreateRequest(data: Form, form: Form): (req: Form)
    ensures req.Keys == data.Keys + {"classId", "studentId"}
    ensures req["classId"] == WatchedNumber(form, "classId") && req["studentId"] == WatchedNumber(form, "studentId")
    ensures forall k :: k in data && k != "classId" && k != "studentId" ==> req[k] == data[k]
  {
    data["classId" := WatchedNumber(form, "classId")]["studentId" := WatchedNumber(form, "studentId")]
  }

  /** The fee balance shown in the form never travels with the payment. */
  lemma CreateRequestOmitsAmountDue(form: Form, isEmail: string -> bool)
    requires Validate(CreateSchema, form, isEmail).Valid?
    ensures var req := CreateRequest(Validate(CreateSchema, form, isEmail).data, form);
      req.Keys <= {"classId", "studentId", "amount", "reference", "payment_mode"}
  {
  }

  /**
   * Selecting a student whose class id is an integer makes the submitted
   * `classId` exactly that integer: the string the selection effect writes
   * reads back as the same number.
   */
  lemma SubmittedClassIsStudentsClass(form: Form, students: Option<seq<Value>>, data: Form, c: int)
    requires SelectedStudent(students, Coalesce(Field(form, "studentId"), Str("0"))).Some?
    requires Get(SelectedStudent(students, Coalesce(Field(form, "studentId"), Str("0"))).value, "classId") == Int(c)
    ensures CreateRequest(data, CreateSyncClass(form, students))["classId"] == Int(c)
  {
    var synced := CreateSyncClass(form, students);
    assert synced["classId"] == Str(IntToString(c));
    StringToNumberOfIntToString(c);
  }

  /** The create modal: its form store and the highlighted payment-mode radio. */
  class CreateModal {
    const store: FormStore
    var paymentMode: string

    constructor ()
      ensures fresh(store) && store.values == map[] && paymentMode == "Cash"
    {
      store := new FormStore();
      paymentMode := "Cash";
    }

    /** The mount effect: `reset` with the create defaults. */
    method ResetForm()
      modifies store
      ensures store.values == CreateDefaults
    {
      store.Reset(CreateDefaults);
    }

    /** The `selectedClass` memo, run when the student list or the chosen student changes. */
    method OnStudentChange(students: Option<seq<Value>>)
      modifies store
      ensures store.values == CreateSyncClass(old(store.values), students)
    {
      var studentId := Coalesce(store.Watch("studentId"), Str("0"));
      var selected := SelectedStudent(students, studentId);
      if selected.Some? {
        store.SetValue("classId", Str(Render(Get(selected.value, "classId"))));
      }
    }

    /** A payment-mode radio's `onChange`: highlight it and set the form field to exactly that mode. */
    method ChooseMode(mode: string)
      requires mode in Modes
      modifies this, store
      ensures paymentMode == mode
      ensures store.values == old(store.values)["payment_mode" := Str(mode)]
    {
      paymentMode := mode;
      store.SetValue("payment_mode", Str(mode));
    }

    /** The amount input's `onChange`: the field takes `valueAsNumber`, NaN when the box is cleared. */
    method EnterAmount(valueAsNumber: Num)
      modifies store
      ensures store.values == old(store.values)["amount" := Number(valueAsNumber)]
    {
      store.SetValue("amount", Number(valueAsNumber));
    }

    /** `onSubmit`, reached only once the resolver has accepted the form. */
    method Submit(isEmail: string -> bool) returns (req: Option<Form>)
      ensures req.Some? <==> Validate(CreateSchema, store.values, isEmail).Valid?
      ensures req.Some? ==> req.value == CreateRequest(Validate(CreateSchema, store.values, isEmail).data, store.values)
    {
      var parsed := Validate(CreateSchema, store.values, isEmail);
      if parsed.Valid? {
        req := Some(CreateRequest(parsed.data, store.values));
      } else {
        req := None;
      }
    }
  }

  /** Whether the radio for `mode` is drawn highlighted (`paymentMode === mode`). */
  predicate Highlighted(paymentMode: string, mode: string) { paymentMode == mode }

  /**
   * Before any radio is clicked the form holds 'MPESA' (its radio is the one
   * checked by default) while no radio is highlighted: the initial 'Cash'
   * matches none of the four upper-case modes.
   */
  lemma InitialModeHighlightsNone()
    ensures CreateDefaults["payment_mode"] == Str("MPESA")
    ensures forall m :: m in Modes ==> !Highlighted("Cash", m)
  {
  }

  // ---------------------------------------------------------------------------
  // Update

  const UpdateSchema: Schema := [FieldRule("id", OptionalNumber)]

  /** The fallbacks of the update modal's `reset`, used where the edited row lacks a field. */
  const UpdateFallbacks: Form := map[
    "id" := Int(0),
    "classId" := Int(0),
    "studentId" := Int(0),
    "amount" := Int(0),
    "reference" := Str(""),
    "payment_mode" := Str("MPESA")
  ]

  /** The values `reset` installs from the row being edited (`objData`). */
  function UpdateDefaults(objData: Value): (f: Form)
    ensures f.Keys == {"id", "classId", "studentId", "amount", "reference", "payment_mode"}
    ensures forall k :: k in f ==> f[k] == Coalesce(Get(objData, k), UpdateFallbacks[k])
  {
    DefaultsFrom(objData, UpdateFallbacks)
  }

  /** The update schema only looks at `id`: it must be a number or absent. */
  lemma UpdateValidIff(form: Form, isEmail: string -> bool)
    ensures Validate(UpdateSchema, form, isEmail).Valid? <==>
      (Field(form, "id").Undefined? || (Field(form, "id").Number? && Field(form, "id").num.Fin?))
  {
    if Validate(UpdateSchema, form, isEmail).Valid? {
      assert Check(UpdateSchema[0].rule, Field(form, UpdateSchema[0].name), isEmail);
    }
  }

  /** `onSubmit` of the update form: built from the watched values, each with its fallback. */
  function UpdateRequest(form: Form): (req: Form)
    ensures req.Keys == {"id", "classId", "studentId", "amount", "reference", "payment_mode"}
    ensures req["id"] == Coalesce(Field(form, "id"), Int(0))
    ensures req["reference"] == Coalesce(Field(form, "reference"), Str(""))
    ensures req["payment_mode"] == Coalesce(Field(form, "payment_mode"), Str("MPESA"))
    ensures req["classId"] == WatchedNumber(form, "classId") && req["studentId"] == WatchedNumber(form, "studentId")
    ensures req["amount"] == WatchedNumber(form, "amount")
  {
    map[
      "id" := Coalesce(Field(form, "id"), Int(0)),
      "classId" := WatchedNumber(form, "classId"),
      "studentId" := WatchedNumber(form, "studentId"),
      // `Number(watch('amount') ?? 0)` coerces exactly as `?? '0'` does
      "amount" := WatchedNumber(form, "amount"),
      "reference" := Coalesce(Field(form, "reference"), Str("")),
      "payment_mode" := Coalesce(Field(form, "payment_mode"), Str("MPESA"))
    ]
  }

  /** The PATCH of the update form: `/fee-payments/<id>` with everything but the id. */
  function UpdatePatch(form: Form): (p: Patch)
    ensures p.path == "/fee-payments/" + Render(Coalesce(Field(form, "id"), Int(0)))
    ensures p.body.Keys == {"classId", "studentId", "amount", "reference", "payment_mode"}
    ensures p.body["classId"] == WatchedNumber(form, "classId") && p.body["studentId"] == WatchedNumber(form, "studentId")
    ensures p.body["amount"] == WatchedNumber(form, "amount")
    ensures p.body["reference"] == Coalesce(Field(form, "reference"), Str(""))
    ensures p.body["payment_mode"] == Coalesce(Field(form, "payment_mode"), Str("MPESA"))
  {
    SplitId("/fee-payments/", UpdateRequest(form))
  }

  /**
   * Saving an untouched form for a payment whose ids and amount are integers
   * patches that payment with exactly its own fields.
   */
  lemma UntouchedUpdateResubmits(objData: Value, id: int, classId: int, studentId: int, amount: int, reference: string, mode: string)
    requires Get(objData, "id") == Int(id) && Get(objData, "classId") == Int(classId)
    requires Get(objData, "studentId") == Int(studentId) && Get(objData, "amount") == Int(amount)
    requires Get(objData, "reference") == Str(reference) && Get(objData, "payment_mode") == Str(mode)
    ensures UpdatePatch(UpdateDefaults(objData)) == Patch("/fee-payments/" + IntToString(id), map[
      "classId" := Int(classId), "studentId" := Int(studentId), "amount" := Int(amount),
      "reference" := Str(reference), "payment_mode" := Str(mode)])
  {
  }

  /** The selection effect of the update form: `classId` takes the student's class id as it is. */
  function UpdateSyncClass(form: Form, students: Option<seq<Value>>): (f: Form)
    ensures SelectedStudent(students, Coalesce(Field(form, "studentId"), Str("0"))).None? ==> f == form
    ensures var sel := SelectedStudent(students, Coalesce(Field(form, "studentId"), Str("0")));
      sel.Some? ==> f == form["classId" := Get(sel.value, "classId")]
  {
    match SelectedStudent(students, Coalesce(Field(form, "studentId"), Str("0")))
    case Some(st) => form["classId" := Get(st, "classId")]
    case None => form
  }

  /** After selecting a student with an integer class id, the update submits that class id. */
  lemma UpdateSubmitsStudentsClass(form: Form, students: Option<seq<Value>>, c: int)
    requires SelectedStudent(students, Coalesce(Field(form, "studentId"), Str("0"))).Some?
    requires Get(SelectedStudent(students, Coalesce(Field(form, "studentId"), Str("0"))).value, "classId") == Int(c)
    ensures UpdateRequest(UpdateSyncClass(form, students))["classId"] == Int(c)
  {
  }

  /** The update modal's form store. */
  class UpdateModal {
    const store: FormStore
    var paymentMode: string

    constructor ()
      ensures fresh(store) && store.values == map[] && paymentMode == "Cash"
    {
      store := new FormStore();
      paymentMode := "Cash";
    }

    /** The effect run when `objData` changes. */
    method ResetFrom(objData: Value)
      modifies store
      ensures store.values == UpdateDefaults(objData)
    {
      store.Reset(UpdateDefaults(objData));
    }

    method OnStudentChange(students: Option<seq<Value>>)
      modifies store
      ensures store.values == UpdateSyncClass(old(store.values), students)
    {
      var studentId := Coalesce(store.Watch("studentId"), Str("0"));
      var selected := SelectedStudent(students, studentId);
      if selected.Some? {
        store.SetValue("classId", Get(selected.value, "classId"));
      }
    }

    method ChooseMode(mode: string)
      requires mode in Modes
      modifies this, store
      ensures paymentMode == mode
      ensures store.values == old(store.values)["payment_mode" := Str(mode)]
    {
      paymentMode := mode;
      store.SetValue("payment_mode", Str(mode));
    }

    /** `onSubmit` followed by the mutation's id split. */
    method Submit(isEmail: string -> bool) returns (patch: Option<Patch>)
      ensures patch.Some? <==> Validate(UpdateSchema, store.values, isEmail).Valid?
      ensures patch.Some? ==> patch.value == UpdatePatch(store.values)
    {
      if Validate(UpdateSchema, store.values, isEmail).Valid? {
        patch := Some(UpdatePatch(store.values));
      } else {
        patch := None;
      }
    }
  }
}
