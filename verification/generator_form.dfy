/** The generator dialog: its schema, the edit reset and the submission. */
module GeneratorForm {
  import opened JsValues
  import opened FormRules

  /** The fields of `generatorSchema`. */
  const Fields: Schema := [
    ("name", StringRule.(required := true)),
    ("assignedTo", NumberRule.(nullable := true)),
    ("fuelTypeOid", NumberRule.(nullable := true)),
    ("engineCapacity", NumberRule.(positive := true, nullable := true)),
    ("vehicleNum", StringRule)
  ]

  /** `generatorSchema`. */
  predicate Valid(values: Obj)
  {
    SchemaPasses(values, Fields)
  }

  /** A number field that may be left out or null. */
  predicate OptionalNumber(v: Js)
  {
    v == Undefined || v == Null || v.Num?
  }

  /** What the schema asks, field by field: a name; the assignment and fuel
    * type may be null; a capacity, when given, is positive; the vehicle
    * number is an optional string. */
  predicate FieldsMeet(values: Obj)
  {
    var engine := Prop(values, "engineCapacity");
    Prop(values, "name").Str? && Prop(values, "name").s != "" &&
    OptionalNumber(Prop(values, "assignedTo")) && OptionalNumber(Prop(values, "fuelTypeOid")) &&
    OptionalNumber(engine) && (engine.Num? ==> engine.n > 0.0) &&
    (Prop(values, "vehicleNum") == Undefined || Prop(values, "vehicleNum").Str?)
  }

  /** The schema holds exactly when every field meets its rule. */
  lemma ValidMeans(values: Obj)
    ensures Valid(values) <==> FieldsMeet(values)
  {
    if FieldsMeet(values) {
      forall i | 0 <= i < |Fields| ensures Passes(Prop(values, Fields[i].0), Fields[i].1) {
        assert i == 0 || i == 1 || i == 2 || i == 3 || i == 4;
      }
    }
    if Valid(values) {
      assert Passes(Prop(values, Fields[0].0), Fields[0].1);
      assert Passes(Prop(values, Fields[1].0), Fields[1].1);
      assert Passes(Prop(values, Fields[2].0), Fields[2].1);
      assert Passes(Prop(values, Fields[3].0), Fields[3].1);
      assert Passes(Prop(values, Fields[4].0), Fields[4].1);
    }
  }

  /** The values of a new generator. */
  const Defaults: Obj := map[
    "name" := Str(""), "assignedTo" := Null, "fuelTypeOid" := Null, "engineCapacity" := Null, "vehicleNum" := Str("")]

  /** A new generator cannot be submitted untouched: it has no name. */
  lemma DefaultsInvalid()
    ensures !Valid(Defaults)
  {
    ValidMeans(Defaults);
  }

  /** The values an edit starts from: truthy fields are copied, a falsy name
    * or vehicle number becomes '' and a falsy number null. */
  function EditValues(generator: Obj): (r: Obj)
    ensures CopiedOr(r, generator, "name", Str("")) && CopiedOr(r, generator, "vehicleNum", Str(""))
    ensures CopiedOr(r, generator, "assignedTo", Null) && CopiedOr(r, generator, "fuelTypeOid", Null)
    ensures CopiedOr(r, generator, "engineCapacity", Null)
  {
    map[
      "name" := Or(Prop(generator, "name"), Str("")),
      "assignedTo" := Or(Prop(generator, "assignedTo"), Null),
      "fuelTypeOid" := Or(Prop(generator, "fuelTypeOid"), Null),
      "engineCapacity" := Or(Prop(generator, "engineCapacity"), Null),
      "vehicleNum" := Or(Prop(generator, "vehicleNum"), Str(""))]
  }

  /** A stored generator that met the schema still meets it after the edit
    * reset. */
  lemma EditKeepsValid(generator: Obj)
    requires Valid(generator)
    ensures Valid(EditValues(generator))
  {
    ValidMeans(generator);
    ValidMeans(EditValues(generator));
  }

  /** `handleSubmit(handleFormSubmit)`: a form failing the schema is not
    * submitted; a passing one is, with the generator's oid when editing. */
  function Submit(values: Obj, editing: Option<Obj>): (r: Option<Obj>)
    ensures r.Some? <==> Valid(values)
    ensures r.Some? && editing.Some? ==> Prop(r.value, "oid") == OidOf(editing.value)
    ensures r.Some? && editing.None? ==> r.value == values
  {
    if Valid(values) then Some(SubmitPayload(values, editing)) else None
  }
}
