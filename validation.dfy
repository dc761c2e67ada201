/**
 * The form schemas of the create/update modals, as declarative per-field
 * rules read by one generic validator (the part of `z.object({...})` with
 * `zodResolver` that the modals use), and the react-hook-form store that
 * holds a modal's values.
 */
module Validation {
  import opened Js
  import Phone

  /** One zod field constraint, as the modals write them. */
  datatype Rule =
    | MinLen(n: nat)           // z.string().min(n); z.string() is MinLen(0)
    | OptionalString           // z.string().optional()
    | PhoneString              // z.string().regex(/^(\+?\d{2,3})?0?\d{9}$/)
    | EmailString              // z.string().email()
    | NonNegative              // z.number().refine((value) => value >= 0)
    | OptionalNumber           // z.number().optional()
    | OneOf(options: seq<string>)  // z.enum([...])
    | Boolean                  // z.boolean()
    | IsDate                   // z.date()

  datatype FieldRule = FieldRule(name: string, rule: Rule)

  type Schema = seq<FieldRule>

  /** A form's values: the object react-hook-form holds. */
  type Form = map<string, Value>

  /**
   * Whether value `v` passes `rule`. zod's email grammar is not modelled:
   * `isEmail` stands for it. `z.number()` rejects NaN.
   */
  predicate Check(rule: Rule, v: Value, isEmail: string -> bool)
    ensures Check(rule, v, isEmail) && Nullish(v) ==> v.Undefined? && (rule.OptionalString? || rule.OptionalNumber?)
    ensures Check(rule, v, isEmail) && v.Number? ==> v.num.Fin?
  {
    match rule
    case MinLen(n) => v.Str? && |v.s| >= n
    case OptionalString => v.Undefined? || v.Str?
    case PhoneString => v.Str? && Phone.IsPhone(v.s)
    case EmailString => v.Str? && isEmail(v.s)
    case NonNegative => v.Number? && v.num.Fin? && v.num.n >= 0
    case OptionalNumber => v.Undefined? || (v.Number? && v.num.Fin?)
    case OneOf(options) => v.Str? && v.s in options
    case Boolean => v.Bool?
    case IsDate => v.Date?
  }

  /** The field names a schema mentions. */
  function Names(schema: Schema): (ns: set<string>)
    ensures forall i :: 0 <= i < |schema| ==> schema[i].name in ns
  {
    set i | 0 <= i < |schema| :: schema[i].name
  }

  lemma NamesCons(schema: Schema)
    requires schema != []
    ensures Names(schema) == {schema[0].name} + Names(schema[1..])
  {
    var tail := schema[1..];
    forall n | n in Names(schema) ensures n == schema[0].name || n in Names(tail) {
      var i :| 0 <= i < |schema| && schema[i].name == n;
      if i > 0 { assert tail[i - 1] == schema[i]; }
    }
    forall n | n in Names(tail) ensures n in Names(schema) {
      var i :| 0 <= i < |tail| && tail[i].name == n;
      assert schema[i + 1] == tail[i];
    }
  }

  /** The fields of `schema` that `form` violates. */
  ghost function Violations(schema: Schema, form: Form, isEmail: string -> bool): set<string> {
    set i | 0 <= i < |schema| && !Check(schema[i].rule, Field(form, schema[i].name), isEmail) :: schema[i].name
  }

  /**
   * zod's parse of the form against the schema: the fields of the schema
   * that the form has (unknown keys are stripped), or the set of field
   * names whose rule fails.
   */
  datatype Parsed = Valid(data: Form) | Invalid(errors: set<string>)

  function Validate(schema: Schema, form: Form, isEmail: string -> bool): (r: Parsed)
    ensures r.Valid? <==> forall i :: 0 <= i < |schema| ==> Check(schema[i].rule, Field(form, schema[i].name), isEmail)
    ensures r.Valid? ==> r.data == Known(form, schema)
    ensures r.Invalid? ==> r.errors == Violations(schema, form, isEmail) && r.errors != {}
  {
    if schema == [] then Valid(map[])
    else
      var f := schema[0];
      var ok := Check(f.rule, Field(form, f.name), isEmail);
      var rest := Validate(schema[1..], form, isEmail);
      ViolationsCons(schema, form, isEmail);
      KnownCons(schema, form);
      match rest
      case Valid(d) =>
        if ok then Valid(if f.name in form then d[f.name := form[f.name]] else d)
        else Invalid({f.name})
      case Invalid(e) => Invalid(if ok then e else {f.name} + e)
  }

  /** The form's values for the schema's fields: what zod keeps of the object. */
  function Known(form: Form, schema: Schema): Form {
    map k | k in form && k in Names(schema) :: form[k]
  }

  lemma KnownCons(schema: Schema, form: Form)
    requires schema != []
    ensures Known(form, schema) ==
      (var d := Known(form, schema[1..]); var n := schema[0].name;
       if n in form then d[n := form[n]] else d)
  {
    NamesCons(schema);
  }

  lemma ViolationsCons(schema: Schema, form: Form, isEmail: string -> bool)
    requires schema != []
    ensures Violations(schema, form, isEmail) ==
      (if Check(schema[0].rule, Field(form, schema[0].name), isEmail) then {} else {schema[0].name})
      + Violations(schema[1..], form, isEmail)
  {
    var tail := schema[1..];
    forall n | n in Violations(schema, form, isEmail)
      ensures n == schema[0].name || n in Violations(tail, form, isEmail)
    {
      var i :| 0 <= i < |schema| && !Check(schema[i].rule, Field(form, schema[i].name), isEmail) && schema[i].name == n;
      if i > 0 {
        assert tail[i - 1] == schema[i];
      }
    }
    forall n | n in Violations(tail, form, isEmail)
      ensures n in Violations(schema, form, isEmail)
    {
      var i :| 0 <= i < |tail| && !Check(tail[i].rule, Field(form, tail[i].name), isEmail) && tail[i].name == n;
      assert schema[i + 1] == tail[i];
    }
  }

  /** A field the schema does not mention has no effect on the parse. */
  lemma ValidateIgnoresOthers(schema: Schema, form: Form, k: string, v: Value, isEmail: string -> bool)
    requires k !in Names(schema)
    ensures Validate(schema, form[k := v], isEmail) == Validate(schema, form, isEmail)
  {
    var f := form[k := v];
    forall i | 0 <= i < |schema| ensures Field(f, schema[i].name) == Field(form, schema[i].name) {
    }
    assert Violations(schema, f, isEmail) == Violations(schema, form, isEmail);
    assert Known(f, schema) == Known(form, schema);
  }

  /** The form store of react-hook-form: `reset`, `setValue` and `watch`. */
  class FormStore {
    var values: Form

    constructor ()
      ensures values == map[]
    {
      values := map[];
    }

    /** `reset(defaults)` */
    method Reset(defaults: Form)
      modifies this
      ensures values == defaults
    {
      values := defaults;
    }

    /** `setValue(name, v)` */
    method SetValue(name: string, v: Value)
      modifies this
      ensures values == old(values)[name := v]
    {
      values := values[name := v];
    }

    /** `watch(name)` */
    function Watch(name: string): (v: Value)
      reads this
      ensures name !in values ==> v == Undefined
    {
      Field(values, name)
    }
  }

  /**
   * An update modal's `reset` values: `objData?.k ?? d` for each field `k`
   * whose fallback is `d`.
   */
  function DefaultsFrom(objData: Value, fallbacks: Form): (f: Form)
    ensures f.Keys == fallbacks.Keys
    ensures forall k :: k in f && objData.Obj? && k in objData.fields && !Nullish(objData.fields[k]) ==>
      f[k] == objData.fields[k]
    ensures forall k :: k in f && (!objData.Obj? || k !in objData.fields || Nullish(objData.fields[k])) ==>
      f[k] == fallbacks[k]
  {
    map k | k in fallbacks :: Coalesce(Get(objData, k), fallbacks[k])
  }

  /**
   * `Number(watch(key) ?? '0')`: how the modals turn a select's value into
   * the number they submit. An unset field gives 0, a number stays itself
   * and a decimal string gives its value.
   */
  function WatchedNumber(form: Form, key: string): (r: Value)
    ensures r.Number?
    ensures Nullish(Field(form, key)) ==> r == Int(0)
    ensures forall c: int :: Field(form, key) == Int(c) ==> r == Int(c)
    ensures forall c: int :: Field(form, key) == Str(IntToString(c)) ==> r == Int(c)
  {
    forall c: int ensures Field(form, key) == Str(IntToString(c)) ==> ToNumber(Field(form, key)) == Fin(c) {
      StringToNumberOfIntToString(c);
    }
    Number(ToNumber(Coalesce(Field(form, key), Str("0"))))
  }

  /**
   * Opening an update modal on a record whose every schema field is present
   * and valid, and saving it untouched, hands `onSubmit` exactly the
   * record's schema fields.
   */
  lemma ResubmitUnchanged(schema: Schema, fallbacks: Form, objData: Value, isEmail: string -> bool)
    requires objData.Obj? && Names(schema) <= fallbacks.Keys && Names(schema) <= objData.fields.Keys
    requires forall k :: k in Names(schema) ==> !Nullish(objData.fields[k])
    requires forall i :: 0 <= i < |schema| ==> Check(schema[i].rule, objData.fields[schema[i].name], isEmail)
    ensures Validate(schema, DefaultsFrom(objData, fallbacks), isEmail) ==
      Valid(map k | k in Names(schema) :: objData.fields[k])
  {
    var d := DefaultsFrom(objData, fallbacks);
    forall i | 0 <= i < |schema|
      ensures Check(schema[i].rule, Field(d, schema[i].name), isEmail)
    {
      assert Field(d, schema[i].name) == objData.fields[schema[i].name];
    }
    KnownOfDefaults(schema, fallbacks, objData);
  }

  lemma KnownOfDefaults(schema: Schema, fallbacks: Form, objData: Value)
    requires objData.Obj? && Names(schema) <= fallbacks.Keys && Names(schema) <= objData.fields.Keys
    requires forall k :: k in Names(schema) ==> !Nullish(objData.fields[k])
    ensures Known(DefaultsFrom(objData, fallbacks), schema) == map k | k in Names(schema) :: objData.fields[k]
  {
    var d := DefaultsFrom(objData, fallbacks);
    forall k | k in Names(schema) ensures k in d && d[k] == objData.fields[k] {
    }
    assert Known(d, schema).Keys == Names(schema);
  }

  /**
   * An update modal's PATCH: `const { id, ...postData } = data` followed by
   * a request to `<prefix><id>` carrying `postData`.
   */
  datatype Patch = Patch(path: string, body: Form)

  function SplitId(prefix: string, data: Form): (p: Patch)
    ensures "id" !in p.body
    ensures forall k :: k in data && k != "id" ==> k in p.body && p.body[k] == data[k]
    ensures p.body.Keys == data.Keys - {"id"}
    ensures p.path == prefix + Render(Field(data, "id"))
  {
    Patch(prefix + Render(Field(data, "id")), data - {"id"})
  }

  /** Splitting the id off and putting it back gives the submitted data. */
  lemma SplitIdRoundTrip(prefix: string, data: Form)
    requires "id" in data
    ensures SplitId(prefix, data).body["id" := data["id"]] == data
  {
  }

  /**
   * `handleSubmit(onSubmit)` of an update modal whose `onSubmit` hands the
   * parsed data to the mutation: nothing is sent unless the parse succeeds,
   * and then the PATCH carries the parsed fields other than the id.
   */
  function SubmitPatch(prefix: string, schema: Schema, form: Form, isEmail: string -> bool): (r: Option<Patch>)
    ensures r.Some? <==> Validate(schema, form, isEmail).Valid?
    ensures r.Some? ==> r.value.body.Keys == (form.Keys * Names(schema)) - {"id"}
    ensures r.Some? ==> forall k :: k in r.value.body ==> r.value.body[k] == form[k]
    ensures r.Some? && "id" in Names(schema) ==> r.value.path == prefix + Render(Field(form, "id"))
    ensures r.Some? && "id" !in Names(schema) ==> r.value.path == prefix + "undefined"
  {
    match Validate(schema, form, isEmail)
    case Valid(data) =>
      assert "id" in Names(schema) ==> Field(data, "id") == Field(form, "id");
      Some(SplitId(prefix, data))
    case Invalid(_) => None
  }

  /**
   * An untouched update of a valid record patches `<prefix><record id>` with
   * the record's other fields: opening an edit modal on a record whose
   * fields are exactly the schema's, all present and valid, and saving it
   * without changes sends that record back as it was.
   */
  lemma ResubmitPatch(prefix: string, schema: Schema, fallbacks: Form, record: map<string, Value>, id: int, isEmail: string -> bool)
    requires record.Keys == Names(schema) && Names(schema) <= fallbacks.Keys && Field(record, "id") == Int(id)
    requires forall k :: k in record ==> !Nullish(record[k])
    requires forall i :: 0 <= i < |schema| ==> Check(schema[i].rule, record[schema[i].name], isEmail)
    ensures SubmitPatch(prefix, schema, DefaultsFrom(Obj(record), fallbacks), isEmail) ==
      Some(Patch(prefix + IntToString(id), record - {"id"}))
  {
    assert Render(record["id"]) == IntToString(id);
    var form := DefaultsFrom(Obj(record), fallbacks);
    ResubmitUnchanged(schema, fallbacks, Obj(record), isEmail);
    var data := map k | k in Names(schema) :: record[k];
    assert Validate(schema, form, isEmail) == Valid(data);
    SplitRecord(prefix, Names(schema), record);
    assert SubmitPatch(prefix, schema, form, isEmail) == Some(SplitId(prefix, data));
    assert (map k | k in Names(schema) - {"id"} :: record[k]) == record - {"id"};
  }

  /** The `reset` fallbacks of the edit modals that use 0 for the id and the empty string elsewhere. */
  function BlankFallbacks(schema: Schema): (f: Form)
    ensures f.Keys == Names(schema)
    ensures "id" in f ==> f["id"] == Int(0)
    ensures forall k :: k in f && k != "id" ==> f[k] == Str("")
  {
    map k | k in Names(schema) :: if k == "id" then Int(0) else Str("")
  }

  lemma SplitRecord(prefix: string, names: set<string>, fields: map<string, Value>)
    requires "id" in names && names <= fields.Keys
    ensures SplitId(prefix, map k | k in names :: fields[k]) ==
      Patch(prefix + Render(fields["id"]), map k | k in names - {"id"} :: fields[k])
  {
    var data := map k | k in names :: fields[k];
    assert SplitId(prefix, data).body == map k | k in names - {"id"} :: fields[k];
  }

  /** An integer id yields the path `<prefix><decimal id>`, from which the id can be read back. */
  lemma SplitIdPath(prefix: string, data: Form, id: int)
    requires Field(data, "id") == Int(id)
    ensures SplitId(prefix, data).path == prefix + IntToString(id)
    ensures StringToNumber(SplitId(prefix, data).path[|prefix|..]) == Fin(id)
  {
    var p := SplitId(prefix, data).path;
    assert p[|prefix|..] == IntToString(id);
    StringToNumberOfIntToString(id);
  }
}
