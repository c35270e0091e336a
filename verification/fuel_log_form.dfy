/** The fuel-log dialog: its schema, the vehicle/generator switch, the edit
  * initialisation and the submission. The form keeps its values and the
  * chosen entity type as state. */
module FuelLogForm {
  import opened JsValues
  import opened FormRules

  /** The fields of `fuelLogSchema`. */
  const Fields: Schema := [
    ("vehOid", NumberRule.(nullable := true)),
    ("generatorOid", NumberRule.(nullable := true)),
    ("fillUpDate", DateRule.(required := true)),
    ("gallons", NumberRule.(positive := true, required := true)),
    ("odometer", NumberRule.(min := Some(0.0), nullable := true)),
    ("stationOid", NumberRule.(nullable := true)),
    ("fuelId", NumberRule.(nullable := true)),
    ("statusOid", NumberRule.(nullable := true)),
    ("note", StringRule)
  ]

  /** `fuelLogSchema`: the fields, then the `vehicle-or-generator` test. */
  predicate Valid(values: Obj)
  {
    SchemaPasses(values, Fields) && (Truthy(Prop(values, "vehOid")) || Truthy(Prop(values, "generatorOid")))
  }

  /** A number field that may be left out or null. */
  predicate OptionalNumber(v: Js)
  {
    v == Undefined || v == Null || v.Num?
  }

  /** What the fields ask, one by one: a fill-up date, a positive
    * quantity, a non-negative odometer when one is given, numbers or
    * nothing for the ids, and a string or nothing for the note. */
  predicate FieldsMeet(values: Obj)
  {
    OptionalNumber(Prop(values, "vehOid")) && OptionalNumber(Prop(values, "generatorOid")) &&
    Prop(values, "fillUpDate").Date? &&
    Prop(values, "gallons").Num? && Prop(values, "gallons").n > 0.0 &&
    OptionalNumber(Prop(values, "odometer")) &&
    (Prop(values, "odometer").Num? ==> Prop(values, "odometer").n >= 0.0) &&
    OptionalNumber(Prop(values, "stationOid")) && OptionalNumber(Prop(values, "fuelId")) &&
    OptionalNumber(Prop(values, "statusOid")) &&
    (Prop(values, "note") == Undefined || Prop(values, "note").Str?)
  }

  /** The schema holds exactly when the fields meet their rules and a
    * vehicle or a generator is chosen; nothing stops both. */
  lemma ValidMeans(values: Obj)
    ensures Valid(values) <==>
      FieldsMeet(values) && (Truthy(Prop(values, "vehOid")) || Truthy(Prop(values, "generatorOid")))
  {
    if FieldsMeet(values) {
      forall i | 0 <= i < |Fields| ensures Passes(Prop(values, Fields[i].0), Fields[i].1) {
        assert i == 0 || i == 1 || i == 2 || i == 3 || i == 4 || i == 5 || i == 6 || i == 7 || i == 8;
      }
    }
    if SchemaPasses(values, Fields) {
      assert Passes(Prop(values, Fields[0].0), Fields[0].1);
      assert Passes(Prop(values, Fields[1].0), Fields[1].1);
      assert Passes(Prop(values, Fields[2].0), Fields[2].1);
      assert Passes(Prop(values, Fields[3].0), Fields[3].1);
      assert Passes(Prop(values, Fields[4].0), Fields[4].1);
      assert Passes(Prop(values, Fields[5].0), Fields[5].1);
      assert Passes(Prop(values, Fields[6].0), Fields[6].1);
      assert Passes(Prop(values, Fields[7].0), Fields[7].1);
      assert Passes(Prop(values, Fields[8].0), Fields[8].1);
    }
  }

  /** A log naming both a vehicle and a generator passes. */
  lemma BothEntitiesPass(day: Instant)
    ensures Valid(map["vehOid" := Num(1.0), "generatorOid" := Num(2.0), "fillUpDate" := Date(day), "gallons" := Num(10.0)])
  {
    var values := map["vehOid" := Num(1.0), "generatorOid" := Num(2.0), "fillUpDate" := Date(day), "gallons" := Num(10.0)];
    ValidMeans(values);
  }

  /** The entity toggle. */
  datatype Entity = VehicleEntity | GeneratorEntity

  /** The values of a new log: everything empty, the date now. */
  function Defaults(now: Instant): Obj
  {
    map["vehOid" := Null, "generatorOid" := Null, "fillUpDate" := Date(now), "gallons" := Null,
        "odometer" := Null, "stationOid" := Null, "fuelId" := Null, "statusOid" := Null, "note" := Str("")]
  }

  /** A new log cannot be submitted untouched: it names neither a vehicle
    * nor a generator and has no quantity. */
  lemma DefaultsInvalid(now: Instant)
    ensures !Valid(Defaults(now))
  {
  }

  /** The numeric fields an edit reset copies with a `|| null` fallback. */
  const NumericKeys := ["vehOid", "generatorOid", "gallons", "odometer", "stationOid", "fuelId", "statusOid"]

  /** The values an edit starts from: truthy numbers are copied and falsy
    * ones, 0 included, become null; a missing note becomes ''; a set date is
    * parsed (`parse` stands for `new Date(…)`), a missing one becomes now. */
  function EditValues(log: Obj, now: Instant, parse: Js -> Instant): (r: Obj)
    ensures forall i :: 0 <= i < |NumericKeys| ==> CopiedOr(r, log, NumericKeys[i], Null)
    ensures CopiedOr(r, log, "note", Str(""))
    ensures "fillUpDate" in r && r["fillUpDate"].Date?
    ensures !Truthy(Prop(log, "fillUpDate")) ==> r["fillUpDate"] == Date(now)
  {
    map[
      "vehOid" := Or(Prop(log, "vehOid"), Null),
      "generatorOid" := Or(Prop(log, "generatorOid"), Null),
      "fillUpDate" := if Truthy(Prop(log, "fillUpDate")) then Date(parse(Prop(log, "fillUpDate"))) else Date(now),
      "gallons" := Or(Prop(log, "gallons"), Null),
      "odometer" := Or(Prop(log, "odometer"), Null),
      "stationOid" := Or(Prop(log, "stationOid"), Null),
      "fuelId" := Or(Prop(log, "fuelId"), Null),
      "statusOid" := Or(Prop(log, "statusOid"), Null),
      "note" := Or(Prop(log, "note"), Str(""))]
  }

  /** The entity type an edit starts with: vehicle iff the log has a vehicle. */
  function EntityOf(log: Obj): (e: Entity)
    ensures e == VehicleEntity <==> Truthy(Prop(log, "vehOid"))
  {
    if Truthy(Prop(log, "vehOid")) then VehicleEntity else GeneratorEntity
  }

  /** The entity-type effect: the vehicle side clears the generator; the
    * generator side clears the vehicle and the odometer. */
  function Cleared(values: Obj, e: Entity): (r: Obj)
    ensures e == VehicleEntity ==> Prop(r, "generatorOid") == Null && Prop(r, "vehOid") == Prop(values, "vehOid")
    ensures e == GeneratorEntity ==>
      Prop(r, "vehOid") == Null && Prop(r, "odometer") == Null && Prop(r, "generatorOid") == Prop(values, "generatorOid")
    ensures forall k :: k in values && k !in {"vehOid", "generatorOid", "odometer"} ==> k in r && r[k] == values[k]
  {
    match e
    case VehicleEntity => values["generatorOid" := Null]
    case GeneratorEntity => values["vehOid" := Null]["odometer" := Null]
  }

  /** A stored log that met the schema can be edited and resubmitted: the
    * edit reset followed by the entity effect still meets it. */
  lemma EditKeepsValid(log: Obj, now: Instant, parse: Js -> Instant)
    requires Valid(log)
    ensures Valid(Cleared(EditValues(log, now, parse), EntityOf(log)))
  {
    ValidMeans(log);
    var edited := EditValues(log, now, parse);
    var r := Cleared(edited, EntityOf(log));
    assert CopiedOr(edited, log, NumericKeys[0], Null);
    assert CopiedOr(edited, log, NumericKeys[1], Null);
    assert CopiedOr(edited, log, NumericKeys[2], Null);
    assert CopiedOr(edited, log, NumericKeys[3], Null);
    assert CopiedOr(edited, log, NumericKeys[4], Null);
    assert CopiedOr(edited, log, NumericKeys[5], Null);
    assert CopiedOr(edited, log, NumericKeys[6], Null);
    ValidMeans(r);
  }

  /** A stored log with a quantity of 0 comes back with no quantity, so it
    * cannot be resubmitted as it is. */
  lemma ZeroQuantityEditInvalid(log: Obj, now: Instant, parse: Js -> Instant)
    requires Prop(log, "gallons") == Num(0.0)
    ensures Prop(EditValues(log, now, parse), "gallons") == Null
    ensures !Valid(EditValues(log, now, parse))
  {
    var edited := EditValues(log, now, parse);
    assert CopiedOr(edited, log, NumericKeys[2], Null);
    ValidMeans(edited);
  }

  class FuelLogFormState {
    var values: Obj
    var entityType: Entity

    /** The form as first rendered: the defaults and the vehicle side. */
    constructor (now: Instant)
      ensures values == Defaults(now) && entityType == VehicleEntity
    {
      values := Defaults(now);
      entityType := VehicleEntity;
    }

    /** The reset effect: an edited log sets the entity type from the log
      * and the values from `EditValues`; no log resets to the defaults and
      * leaves the entity type alone. */
    method Reset(log: Option<Obj>, now: Instant, parse: Js -> Instant)
      modifies this`values, this`entityType
      ensures log.Some? ==> entityType == EntityOf(log.value) && values == EditValues(log.value, now, parse)
      ensures log.None? ==> entityType == old(entityType) && values == Defaults(now)
    {
      if log.Some? {
        entityType := EntityOf(log.value);
        values := EditValues(log.value, now, parse);
      } else {
        values := Defaults(now);
      }
    }

    /** The entity toggle. */
    method SetEntityType(e: Entity)
      modifies this`entityType
      ensures entityType == e
    {
      entityType := e;
    }

    /** The effect that runs when the entity type changes. */
    method ApplyEntityType()
      modifies this`values
      ensures values == Cleared(old(values), entityType)
    {
      if entityType == VehicleEntity {
        values := values["generatorOid" := Null];
      } else {
        values := values["vehOid" := Null];
        values := values["odometer" := Null];
      }
    }

    /** `handleSubmit(handleFormSubmit)`: the schema runs first and stops a
      * failing form; a passing one is handed on, with the edited log's oid
      * when editing. */
    method Submit(editing: Option<Obj>) returns (payload: Option<Obj>)
      ensures payload.Some? <==> Valid(values)
      ensures payload.Some? ==> payload.value == SubmitPayload(values, editing)
    {
      if Valid(values) {
        payload := Some(SubmitPayload(values, editing));
      } else {
        payload := None;
      }
    }
  }
}
