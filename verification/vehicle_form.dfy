/** The vehicle dialog: its schema, the edit reset and the submission. */
module VehicleForm {
  import opened JsValues
  import opened FormRules

  /** The fields of `vehicleSchema`; the model-year bound is fixed from the
    * year the page was loaded in. */
  function Fields(currentYear: int): Schema
  {
    [
      ("vehicleNum", StringRule.(required := true)),
      ("model", StringRule.(required := true)),
      ("modelYear", NumberRule.(min := Some(1980.0), max := Some((currentYear + 1) as real), nullable := true)),
      ("plateNum", StringRule),
      ("vinNum", StringRule),
      ("fuelTypeOid", NumberRule.(nullable := true)),
      ("engineCapacity", NumberRule.(positive := true, nullable := true)),
      ("tankCapacity", NumberRule.(positive := true, nullable := true)),
      ("odometer", NumberRule.(min := Some(0.0), nullable := true)),
      ("statusOid", NumberRule.(nullable := true)),
      ("assignedTo", NumberRule.(nullable := true))
    ]
  }

  /** `vehicleSchema`. */
  predicate Valid(values: Obj, currentYear: int)
  {
    SchemaPasses(values, Fields(currentYear))
  }

  /** A number field that may be left out or null. */
  predicate OptionalNumber(v: Js)
  {
    v == Undefined || v == Null || v.Num?
  }

  /** A string field that may be left out. */
  predicate OptionalString(v: Js)
  {
    v == Undefined || v.Str?
  }

  /** What the schema asks, field by field: a number and a model, a model
    * year between 1980 and next year when one is given, positive capacities
    * and a non-negative odometer when given, and the rest optional. */
  predicate FieldsMeet(values: Obj, currentYear: int)
  {
    var year := Prop(values, "modelYear");
    var engine := Prop(values, "engineCapacity");
    var tank := Prop(values, "tankCapacity");
    var odometer := Prop(values, "odometer");
    Prop(values, "vehicleNum").Str? && Prop(values, "vehicleNum").s != "" &&
    Prop(values, "model").Str? && Prop(values, "model").s != "" &&
    OptionalNumber(year) && (year.Num? ==> 1980.0 <= year.n <= (currentYear + 1) as real) &&
    OptionalString(Prop(values, "plateNum")) && OptionalString(Prop(values, "vinNum")) &&
    OptionalNumber(Prop(values, "fuelTypeOid")) &&
    OptionalNumber(engine) && (engine.Num? ==> engine.n > 0.0) &&
    OptionalNumber(tank) && (tank.Num? ==> tank.n > 0.0) &&
    OptionalNumber(odometer) && (odometer.Num? ==> odometer.n >= 0.0) &&
    OptionalNumber(Prop(values, "statusOid")) && OptionalNumber(Prop(values, "assignedTo"))
  }

  /** The schema holds exactly when every field meets its rule. */
  lemma ValidMeans(values: Obj, currentYear: int)
    ensures Valid(values, currentYear) <==> FieldsMeet(values, currentYear)
  {
    var fields := Fields(currentYear);
    if FieldsMeet(values, currentYear) {
      forall i | 0 <= i < |fields| ensures Passes(Prop(values, fields[i].0), fields[i].1) {
        assert i == 0 || i == 1 || i == 2 || i == 3 || i == 4 || i == 5 || i == 6 || i == 7 || i == 8 || i == 9 || i == 10;
      }
    }
    if Valid(values, currentYear) {
      assert Passes(Prop(values, fields[0].0), fields[0].1);
      assert Passes(Prop(values, fields[1].0), fields[1].1);
      assert Passes(Prop(values, fields[2].0), fields[2].1);
      assert Passes(Prop(values, fields[3].0), fields[3].1);
      assert Passes(Prop(values, fields[4].0), fields[4].1);
      assert Passes(Prop(values, fields[5].0), fields[5].1);
      assert Passes(Prop(values, fields[6].0), fields[6].1);
      assert Passes(Prop(values, fields[7].0), fields[7].1);
      assert Passes(Prop(values, fields[8].0), fields[8].1);
      assert Passes(Prop(values, fields[9].0), fields[9].1);
      assert Passes(Prop(values, fields[10].0), fields[10].1);
    }
  }

  /** The values of a new vehicle: empty strings and nulls. */
  const Defaults: Obj := map[
    "vehicleNum" := Str(""), "model" := Str(""), "modelYear" := Null, "plateNum" := Str(""),
    "vinNum" := Str(""), "fuelTypeOid" := Null, "engineCapacity" := Null, "tankCapacity" := Null,
    "odometer" := Null, "statusOid" := Null, "assignedTo" := Null]

  /** A new vehicle cannot be submitted untouched: it has no number. */
  lemma DefaultsInvalid(currentYear: int)
    ensures !Valid(Defaults, currentYear)
  {
    ValidMeans(Defaults, currentYear);
  }

  /** The fields an edit reset copies with a `|| ''` fallback. */
  const StringKeys := ["vehicleNum", "model", "plateNum", "vinNum"]

  /** The fields an edit reset copies with a `|| null` fallback. */
  const NumericKeys := ["modelYear", "fuelTypeOid", "engineCapacity", "tankCapacity", "odometer", "statusOid", "assignedTo"]

  /** The values an edit starts from: truthy fields are copied, falsy
    * strings become '' and falsy numbers, 0 included, become null. */
  function EditValues(vehicle: Obj): (r: Obj)
    ensures forall i :: 0 <= i < |StringKeys| ==> CopiedOr(r, vehicle, StringKeys[i], Str(""))
    ensures forall i :: 0 <= i < |NumericKeys| ==> CopiedOr(r, vehicle, NumericKeys[i], Null)
  {
    map[
      "vehicleNum" := Or(Prop(vehicle, "vehicleNum"), Str("")),
      "model" := Or(Prop(vehicle, "model"), Str("")),
      "modelYear" := Or(Prop(vehicle, "modelYear"), Null),
      "plateNum" := Or(Prop(vehicle, "plateNum"), Str("")),
      "vinNum" := Or(Prop(vehicle, "vinNum"), Str("")),
      "fuelTypeOid" := Or(Prop(vehicle, "fuelTypeOid"), Null),
      "engineCapacity" := Or(Prop(vehicle, "engineCapacity"), Null),
      "tankCapacity" := Or(Prop(vehicle, "tankCapacity"), Null),
      "odometer" := Or(Prop(vehicle, "odometer"), Null),
      "statusOid" := Or(Prop(vehicle, "statusOid"), Null),
      "assignedTo" := Or(Prop(vehicle, "assignedTo"), Null)]
  }

  /** A stored vehicle that met the schema still meets it after the edit
    * reset, although an odometer of 0 comes back as null. */
  lemma EditKeepsValid(vehicle: Obj, currentYear: int)
    requires Valid(vehicle, currentYear)
    ensures Valid(EditValues(vehicle), currentYear)
    ensures Prop(vehicle, "odometer") == Num(0.0) ==> Prop(EditValues(vehicle), "odometer") == Null
  {
    ValidMeans(vehicle, currentYear);
    var r := EditValues(vehicle);
    assert CopiedOr(r, vehicle, StringKeys[0], Str(""));
    assert CopiedOr(r, vehicle, StringKeys[1], Str(""));
    assert CopiedOr(r, vehicle, StringKeys[2], Str(""));
    assert CopiedOr(r, vehicle, StringKeys[3], Str(""));
    assert CopiedOr(r, vehicle, NumericKeys[0], Null);
    assert CopiedOr(r, vehicle, NumericKeys[1], Null);
    assert CopiedOr(r, vehicle, NumericKeys[2], Null);
    assert CopiedOr(r, vehicle, NumericKeys[3], Null);
    assert CopiedOr(r, vehicle, NumericKeys[4], Null);
    assert CopiedOr(r, vehicle, NumericKeys[5], Null);
    assert CopiedOr(r, vehicle, NumericKeys[6], Null);
    ValidMeans(r, currentYear);
  }

  /** `handleSubmit(handleFormSubmit)`: a form failing the schema is not
    * submitted; a passing one is, with the vehicle's oid when editing. */
  function Submit(values: Obj, editing: Option<Obj>, currentYear: int): (r: Option<Obj>)
    ensures r.Some? <==> Valid(values, currentYear)
    ensures r.Some? && editing.Some? ==> Prop(r.value, "oid") == OidOf(editing.value)
    ensures r.Some? && editing.None? ==> r.value == values
  {
    if Valid(values, currentYear) then Some(SubmitPayload(values, editing)) else None
  }
}
