/** Constant lookup and label enrichment. The CONSTANTS table is a soft enum:
  * each row has an `OID`, a `CNST_TYPE` tag and a display name `CNST_NAME`.
  * A record refers to a constant by id in one of five `*_OID` columns, and
  * `transformModelData` attaches the matching display names. */
module ConstantsHelper {
  import opened Values

  /** Whether a constants row is the one `where('CNST_TYPE', tag)->where('OID', id)` selects. */
  predicate IsConstant(c: Row, id: Value, tag: string)
  {
    SqlEquals(Get(c, "CNST_TYPE"), VStr(tag)) && SqlEquals(Get(c, "OID"), id)
  }

  /** Position of the first row with that tag and id. */
  function FirstConstant(constants: seq<Row>, id: Value, tag: string): (r: Option<nat>)
    ensures r.Some? ==> r.value < |constants| && IsConstant(constants[r.value], id, tag)
    ensures r.Some? ==> forall i :: 0 <= i < r.value ==> !IsConstant(constants[i], id, tag)
    ensures r.None? ==> forall i :: 0 <= i < |constants| ==> !IsConstant(constants[i], id, tag)
  {
    if constants == [] then None
    else if IsConstant(constants[0], id, tag) then Some(0)
    else
      match FirstConstant(constants[1..], id, tag)
      case None => None
      case Some(j) => Some(j + 1)
  }

  /** `getConstantName($id, $type)`: null for a falsy id (the table is not
    * consulted), otherwise the `CNST_NAME` of the first matching row, or null
    * when none matches. */
  function GetConstantName(constants: seq<Row>, id: Value, tag: string): (name: Value)
    ensures !Truthy(id) ==> name == VNull
    ensures Truthy(id) && FirstConstant(constants, id, tag).None? ==> name == VNull
    ensures Truthy(id) && FirstConstant(constants, id, tag).Some? ==>
      name == Get(constants[FirstConstant(constants, id, tag).value], "CNST_NAME")
  {
    if !Truthy(id) then VNull
    else
      match FirstConstant(constants, id, tag)
      case None => VNull
      case Some(i) => Get(constants[i], "CNST_NAME")
  }

  /** A falsy id gives null whatever the table holds. */
  lemma FalsyIdIgnoresTable(a: seq<Row>, b: seq<Row>, id: Value, tag: string)
    requires !Truthy(id)
    ensures GetConstantName(a, id, tag) == GetConstantName(b, id, tag) == VNull
  {
  }

  /** Rows before the first match, and rows after it, cannot change the name:
    * adding rows at the end of the table never changes a label that was found. */
  lemma {:induction false} AppendKeepsFoundName(constants: seq<Row>, more: seq<Row>, id: Value, tag: string)
    requires FirstConstant(constants, id, tag).Some?
    ensures GetConstantName(constants + more, id, tag) == GetConstantName(constants, id, tag)
    ensures FirstConstant(constants + more, id, tag) == FirstConstant(constants, id, tag)
  {
    if !IsConstant(constants[0], id, tag) {
      assert (constants + more)[1..] == constants[1..] + more;
      AppendKeepsFoundName(constants[1..], more, id, tag);
    }
  }

  /** One label: the id column it reads, the key it writes and the constant
    * type it looks up (the tags are case-sensitive and spelled as stored). */
  datatype LabelField = LabelField(source: string, target: string, tag: string)

  /** The five labels, by the key they write. */
  function LabelFor(target: string): Option<LabelField>
  {
    if target == "fuel_type_name" then Some(LabelField("FUEL_TYPE_OID", "fuel_type_name", "gas_type"))
    else if target == "status_name" then Some(LabelField("STATUS_OID", "status_name", "vehcile_status"))
    else if target == "type_name" then Some(LabelField("TYPE_OID", "type_name", "Vehcile_type"))
    else if target == "usage_type_name" then Some(LabelField("USAGE_TYPE_OID", "usage_type_name", "veh_type"))
    else if target == "vendor_name" then Some(LabelField("VENDOR_OID", "vendor_name", "Vendor"))
    else None
  }

  const Targets: set<string> := {"fuel_type_name", "status_name", "type_name", "usage_type_name", "vendor_name"}
  const Sources: set<string> := {"FUEL_TYPE_OID", "STATUS_OID", "TYPE_OID", "USAGE_TYPE_OID", "VENDOR_OID"}

  lemma LabelTable(target: string)
    ensures LabelFor(target).Some? <==> target in Targets
    ensures LabelFor(target).Some? ==>
      LabelFor(target).value.target == target && LabelFor(target).value.source in Sources
  {
  }

  /** Key `k` receives a label: it is one of the five and its source id is set. */
  predicate Labelled(data: Row, k: string)
  {
    LabelFor(k).Some? && IsSet(data, LabelFor(k).value.source)
  }

  /** The record with the labels among `done` attached: every input key keeps
    * its value except the labelled keys in `done`, which hold the looked-up name. */
  function EnrichedOver(data: Row, constants: seq<Row>, done: set<string>): (r: Row)
    ensures forall k :: k in r <==> k in data || (k in done && Labelled(data, k))
  {
    map k | k in data.Keys + done && (k in data || (k in done && Labelled(data, k))) ::
      if k in done && Labelled(data, k) then
        GetConstantName(constants, data[LabelFor(k).value.source], LabelFor(k).value.tag)
      else data[k]
  }

  /** Reference definition of the enriched record: all five labels attached. */
  function Enriched(data: Row, constants: seq<Row>): (r: Row)
    ensures forall k :: k in r <==> k in data || Labelled(data, k)
  {
    LabelTable("");
    forall k ensures Labelled(data, k) ==> k in Targets {
      LabelTable(k);
    }
    EnrichedOver(data, constants, Targets)
  }

  /** Attaching one more label: a map update when its source is set, nothing otherwise. */
  lemma AttachStep(data: Row, constants: seq<Row>, done: set<string>, target: string)
    requires target in Targets && target !in done
    ensures var l := LabelFor(target).value;
      EnrichedOver(data, constants, done + {target}) ==
        if IsSet(data, l.source)
        then EnrichedOver(data, constants, done)[target := GetConstantName(constants, data[l.source], l.tag)]
        else EnrichedOver(data, constants, done)
  {
    LabelTable(target);
  }

  /** `transformModelData($data)`: copies the record, then assigns each label
    * in turn when its source column is set. */
  method TransformModelData(data: Row, constants: seq<Row>) returns (transformed: Row)
    ensures transformed == Enriched(data, constants)
  {
    ghost var d0: set<string> := {};
    ghost var d1 := d0 + {"fuel_type_name"};
    ghost var d2 := d1 + {"status_name"};
    ghost var d3 := d2 + {"type_name"};
    ghost var d4 := d3 + {"usage_type_name"};
    ghost var d5 := d4 + {"vendor_name"};
    transformed := data;
    assert transformed == EnrichedOver(data, constants, d0);
    AttachStep(data, constants, d0, "fuel_type_name");
    if IsSet(data, "FUEL_TYPE_OID") {
      transformed := transformed["fuel_type_name" := GetConstantName(constants, data["FUEL_TYPE_OID"], "gas_type")];
    }
    assert transformed == EnrichedOver(data, constants, d1);
    AttachStep(data, constants, d1, "status_name");
    if IsSet(data, "STATUS_OID") {
      transformed := transformed["status_name" := GetConstantName(constants, data["STATUS_OID"], "vehcile_status")];
    }
    assert transformed == EnrichedOver(data, constants, d2);
    AttachStep(data, constants, d2, "type_name");
    if IsSet(data, "TYPE_OID") {
      transformed := transformed["type_name" := GetConstantName(constants, data["TYPE_OID"], "Vehcile_type")];
    }
    assert transformed == EnrichedOver(data, constants, d3);
    AttachStep(data, constants, d3, "usage_type_name");
    if IsSet(data, "USAGE_TYPE_OID") {
      transformed := transformed["usage_type_name" := GetConstantName(constants, data["USAGE_TYPE_OID"], "veh_type")];
    }
    assert transformed == EnrichedOver(data, constants, d4);
    AttachStep(data, constants, d4, "vendor_name");
    if IsSet(data, "VENDOR_OID") {
      transformed := transformed["vendor_name" := GetConstantName(constants, data["VENDOR_OID"], "Vendor")];
    }
    assert transformed == EnrichedOver(data, constants, d5);
    assert d5 == Targets;
  }

  /** Keys other than the five labels keep their key and value. */
  lemma EnrichedKeepsInput(data: Row, constants: seq<Row>, k: string)
    requires k in data && k !in Targets
    ensures k in Enriched(data, constants) && Enriched(data, constants)[k] == data[k]
  {
    LabelTable(k);
  }

  /** Only the five label keys can be added. */
  lemma EnrichedAddsOnlyLabels(data: Row, constants: seq<Row>)
    ensures Enriched(data, constants).Keys <= data.Keys + Targets
  {
    forall k | k in Enriched(data, constants) ensures k in data.Keys + Targets {
      LabelTable(k);
    }
  }

  /** A label key is written exactly when its source column is set (present and not null). */
  lemma LabelAddedIffSourceSet(data: Row, constants: seq<Row>, k: string)
    requires k in Targets && k !in data
    ensures k in Enriched(data, constants) <==> IsSet(data, LabelFor(k).value.source)
  {
    LabelTable(k);
  }

  /** Enrichment does not touch the source columns, so doing it twice with the
    * same table is the same as doing it once. */
  lemma EnrichedIdempotent(data: Row, constants: seq<Row>)
    ensures Enriched(Enriched(data, constants), constants) == Enriched(data, constants)
  {
    var e := Enriched(data, constants);
    forall s | s in Sources ensures Get(e, s) == Get(data, s) {
      LabelTable(s);
    }
    forall k ensures Labelled(e, k) <==> Labelled(data, k) {
      LabelTable(k);
      if LabelFor(k).Some? {
        assert Get(e, LabelFor(k).value.source) == Get(data, LabelFor(k).value.source);
      }
    }
    var ee := Enriched(e, constants);
    forall k | k in ee ensures k in e && ee[k] == e[k] {
      LabelTable(k);
    }
    assert ee.Keys == e.Keys;
  }
}
