/** The invoice (gas bill) dialog: its schema, the running total, the edit
  * reset and the submission. */
module InvoiceForm {
  import opened JsValues
  import opened FormRules

  /** The fields of `invoiceSchema`. */
  const Fields: Schema := [
    ("gasStationOid", NumberRule.(nullable := true)),
    ("billNum", NumberRule.(positive := true, required := true)),
    ("billDate", DateRule.(required := true)),
    ("fuelTypeOid", NumberRule.(required := true)),
    ("quantity", NumberRule.(positive := true, required := true)),
    ("price", NumberRule.(positive := true, required := true)),
    ("note", StringRule)
  ]

  /** `invoiceSchema`. */
  predicate Valid(values: Obj)
  {
    SchemaPasses(values, Fields)
  }

  /** A set, positive number. */
  predicate PositiveNumber(v: Js)
  {
    v.Num? && v.n > 0.0
  }

  /** What the schema asks, field by field: a positive bill number, a date,
    * a fuel type, a positive quantity and price; the station and the note
    * may be left out. */
  predicate FieldsMeet(values: Obj)
  {
    var station := Prop(values, "gasStationOid");
    (station == Undefined || station == Null || station.Num?) &&
    PositiveNumber(Prop(values, "billNum")) &&
    Prop(values, "billDate").Date? &&
    Prop(values, "fuelTypeOid").Num? &&
    PositiveNumber(Prop(values, "quantity")) && PositiveNumber(Prop(values, "price")) &&
    (Prop(values, "note") == Undefined || Prop(values, "note").Str?)
  }

  /** The schema holds exactly when every field meets its rule. */
  lemma ValidMeans(values: Obj)
    ensures Valid(values) <==> FieldsMeet(values)
  {
    if FieldsMeet(values) {
      forall i | 0 <= i < |Fields| ensures Passes(Prop(values, Fields[i].0), Fields[i].1) {
        assert i == 0 || i == 1 || i == 2 || i == 3 || i == 4 || i == 5 || i == 6;
      }
    }
    if Valid(values) {
      assert Passes(Prop(values, Fields[0].0), Fields[0].1);
      assert Passes(Prop(values, Fields[1].0), Fields[1].1);
      assert Passes(Prop(values, Fields[2].0), Fields[2].1);
      assert Passes(Prop(values, Fields[3].0), Fields[3].1);
      assert Passes(Prop(values, Fields[4].0), Fields[4].1);
      assert Passes(Prop(values, Fields[5].0), Fields[5].1);
      assert Passes(Prop(values, Fields[6].0), Fields[6].1);
    }
  }

  /** The total shown under the form: `(quantity || 0) * (price || 0)`. */
  function TotalAmount(values: Obj): (t: real)
    ensures !Truthy(Prop(values, "quantity")) || !Truthy(Prop(values, "price")) ==> t == 0.0
    ensures Prop(values, "quantity").Num? && Prop(values, "price").Num? ==>
      t == Prop(values, "quantity").n * Prop(values, "price").n
  {
    OrZero(Prop(values, "quantity")) * OrZero(Prop(values, "price"))
  }

  /** A form that passes the schema shows a positive total. */
  lemma ValidTotalPositive(values: Obj)
    requires Valid(values)
    ensures TotalAmount(values) > 0.0
  {
    ValidMeans(values);
  }

  /** The values of a new invoice: nulls, an empty note and the date now. */
  function Defaults(now: Instant): Obj
  {
    map["gasStationOid" := Null, "billNum" := Null, "billDate" := Date(now), "fuelTypeOid" := Null,
        "quantity" := Null, "price" := Null, "note" := Str("")]
  }

  /** A new invoice cannot be submitted untouched, and shows a total of 0. */
  lemma DefaultsInvalid(now: Instant)
    ensures !Valid(Defaults(now))
    ensures TotalAmount(Defaults(now)) == 0.0
  {
    ValidMeans(Defaults(now));
  }

  /** The fields an edit reset copies with a `|| null` fallback. */
  const NumericKeys := ["gasStationOid", "billNum", "fuelTypeOid", "quantity", "price"]

  /** The values an edit starts from: truthy fields are copied, falsy
    * numbers become null, a missing note '' and a missing date now (`parse`
    * stands for `new Date(…)`). */
  function EditValues(invoice: Obj, now: Instant, parse: Js -> Instant): (r: Obj)
    ensures forall i :: 0 <= i < |NumericKeys| ==> CopiedOr(r, invoice, NumericKeys[i], Null)
    ensures CopiedOr(r, invoice, "note", Str(""))
    ensures "billDate" in r && r["billDate"].Date?
    ensures !Truthy(Prop(invoice, "billDate")) ==> r["billDate"] == Date(now)
  {
    map[
      "gasStationOid" := Or(Prop(invoice, "gasStationOid"), Null),
      "billNum" := Or(Prop(invoice, "billNum"), Null),
      "billDate" := if Truthy(Prop(invoice, "billDate")) then Date(parse(Prop(invoice, "billDate"))) else Date(now),
      "fuelTypeOid" := Or(Prop(invoice, "fuelTypeOid"), Null),
      "quantity" := Or(Prop(invoice, "quantity"), Null),
      "price" := Or(Prop(invoice, "price"), Null),
      "note" := Or(Prop(invoice, "note"), Str(""))]
  }

  /** An invoice whose fuel type id is 0 comes back with none: the reset
    * makes it null, which the required fuel type rejects, although 0 passed
    * the schema. */
  lemma ZeroFuelTypeEditInvalid(invoice: Obj, now: Instant, parse: Js -> Instant)
    requires Prop(invoice, "fuelTypeOid") == Num(0.0)
    ensures !Valid(EditValues(invoice, now, parse))
  {
    var r := EditValues(invoice, now, parse);
    assert CopiedOr(r, invoice, NumericKeys[2], Null);
    ValidMeans(r);
  }

  /** A stored invoice that met the schema with a non-zero fuel type still
    * meets it after the edit reset. */
  lemma EditKeepsValid(invoice: Obj, now: Instant, parse: Js -> Instant)
    requires Valid(invoice) && Prop(invoice, "fuelTypeOid") != Num(0.0)
    ensures Valid(EditValues(invoice, now, parse))
  {
    ValidMeans(invoice);
    var r := EditValues(invoice, now, parse);
    assert CopiedOr(r, invoice, NumericKeys[0], Null);
    assert CopiedOr(r, invoice, NumericKeys[1], Null);
    assert CopiedOr(r, invoice, NumericKeys[2], Null);
    assert CopiedOr(r, invoice, NumericKeys[3], Null);
    assert CopiedOr(r, invoice, NumericKeys[4], Null);
    ValidMeans(r);
  }

  /** `handleSubmit(handleFormSubmit)`: a form failing the schema is not
    * submitted; a passing one is, with the invoice's oid when editing. */
  function Submit(values: Obj, editing: Option<Obj>): (r: Option<Obj>)
    ensures r.Some? <==> Valid(values)
    ensures r.Some? && editing.Some? ==> Prop(r.value, "oid") == OidOf(editing.value)
    ensures r.Some? && editing.None? ==> r.value == values
  {
    if Valid(values) then Some(SubmitPayload(values, editing)) else None
  }
}
