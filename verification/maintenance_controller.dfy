/** The vehicle-maintenance resource: listing with four equality filters and
  * a date range, newest first, and the four write/read endpoints. */
module MaintenanceController {
  import opened Values
  import opened Query
  import opened Validation
  import opened Tables

  /** The VehicleMaintenance model's `$fillable` columns. */
  const Fillable: set<string> := {
    "VEHICLE_OID", "MNTC_TYPE_OID", "IS_ACCIDENTAL", "CURRENT_MILEAGE", "MNTC_DATE", "STATUS_OID",
    "FINISH_DATE", "NOTE", "ENTRY_USER", "MNTC_ID", "MNTC_YEAR", "RESPONSIBLE", "REPAIR_TIME", "DRIVER_OWNER"}

  ghost predicate IsMaintenanceTable(t: Table)
    reads t
  {
    t.Valid() && t.key == "OID" && t.fillable == Fillable
  }

  /** The four equality filters, each only when present. */
  function Filters(req: Request): seq<Criterion>
  {
    When("vehicle_oid" in req, Equals("VEHICLE_OID", Get(req, "vehicle_oid"))) +
    When("mntc_type_oid" in req, Equals("MNTC_TYPE_OID", Get(req, "mntc_type_oid"))) +
    When("status_oid" in req, Equals("STATUS_OID", Get(req, "status_oid"))) +
    When("is_accidental" in req, Equals("IS_ACCIDENTAL", Get(req, "is_accidental")))
  }

  /** The inclusive `MNTC_DATE` bounds. */
  function DateBounds(req: Request): seq<Criterion>
  {
    When("date_from" in req, AtLeast("MNTC_DATE", Get(req, "date_from"))) +
    When("date_to" in req, AtMost("MNTC_DATE", Get(req, "date_to")))
  }

  /** The conjunction `index` builds. */
  function Criteria(req: Request): seq<Criterion>
  {
    Filters(req) + DateBounds(req)
  }

  lemma FiltersMeaning(req: Request, row: Row)
    ensures MatchesAll(row, Filters(req)) <==>
      ("vehicle_oid" in req ==> SqlEquals(Get(row, "VEHICLE_OID"), req["vehicle_oid"])) &&
      ("mntc_type_oid" in req ==> SqlEquals(Get(row, "MNTC_TYPE_OID"), req["mntc_type_oid"])) &&
      ("status_oid" in req ==> SqlEquals(Get(row, "STATUS_OID"), req["status_oid"])) &&
      ("is_accidental" in req ==> SqlEquals(Get(row, "IS_ACCIDENTAL"), req["is_accidental"]))
  {
    var a := When("vehicle_oid" in req, Equals("VEHICLE_OID", Get(req, "vehicle_oid")));
    var b := When("mntc_type_oid" in req, Equals("MNTC_TYPE_OID", Get(req, "mntc_type_oid")));
    var c := When("status_oid" in req, Equals("STATUS_OID", Get(req, "status_oid")));
    var d := When("is_accidental" in req, Equals("IS_ACCIDENTAL", Get(req, "is_accidental")));
    MatchesAllConcat(row, a + b + c, d);
    MatchesAllConcat(row, a + b, c);
    MatchesAllConcat(row, a, b);
    MatchesWhen(row, "vehicle_oid" in req, Equals("VEHICLE_OID", Get(req, "vehicle_oid")));
    MatchesWhen(row, "mntc_type_oid" in req, Equals("MNTC_TYPE_OID", Get(req, "mntc_type_oid")));
    MatchesWhen(row, "status_oid" in req, Equals("STATUS_OID", Get(req, "status_oid")));
    MatchesWhen(row, "is_accidental" in req, Equals("IS_ACCIDENTAL", Get(req, "is_accidental")));
  }

  lemma DateBoundsMeaning(req: Request, row: Row)
    ensures MatchesAll(row, DateBounds(req)) <==>
      ("date_from" in req ==> SqlLe(req["date_from"], Get(row, "MNTC_DATE"))) &&
      ("date_to" in req ==> SqlLe(Get(row, "MNTC_DATE"), req["date_to"]))
  {
    MatchesAllConcat(row, When("date_from" in req, AtLeast("MNTC_DATE", Get(req, "date_from"))),
                          When("date_to" in req, AtMost("MNTC_DATE", Get(req, "date_to"))));
    MatchesWhen(row, "date_from" in req, AtLeast("MNTC_DATE", Get(req, "date_from")));
    MatchesWhen(row, "date_to" in req, AtMost("MNTC_DATE", Get(req, "date_to")));
  }

  /** A record is listed exactly when it passes each equality filter present
    * and its date lies within the bounds present. */
  lemma CriteriaMeaning(req: Request, row: Row)
    ensures MatchesAll(row, Criteria(req)) <==>
      ("vehicle_oid" in req ==> SqlEquals(Get(row, "VEHICLE_OID"), req["vehicle_oid"])) &&
      ("mntc_type_oid" in req ==> SqlEquals(Get(row, "MNTC_TYPE_OID"), req["mntc_type_oid"])) &&
      ("status_oid" in req ==> SqlEquals(Get(row, "STATUS_OID"), req["status_oid"])) &&
      ("is_accidental" in req ==> SqlEquals(Get(row, "IS_ACCIDENTAL"), req["is_accidental"])) &&
      ("date_from" in req ==> SqlLe(req["date_from"], Get(row, "MNTC_DATE"))) &&
      ("date_to" in req ==> SqlLe(Get(row, "MNTC_DATE"), req["date_to"]))
  {
    MatchesAllConcat(row, Filters(req), DateBounds(req));
    FiltersMeaning(req, row);
    DateBoundsMeaning(req, row);
  }

  /** The successive `where` calls of `index`. */
  method BuildCriteria(req: Request) returns (cs: seq<Criterion>)
    ensures cs == Criteria(req)
  {
    cs := AddWhen([], "vehicle_oid" in req, Equals("VEHICLE_OID", Get(req, "vehicle_oid")));
    assert cs == When("vehicle_oid" in req, Equals("VEHICLE_OID", Get(req, "vehicle_oid")));
    cs := AddWhen(cs, "mntc_type_oid" in req, Equals("MNTC_TYPE_OID", Get(req, "mntc_type_oid")));
    cs := AddWhen(cs, "status_oid" in req, Equals("STATUS_OID", Get(req, "status_oid")));
    cs := AddWhen(cs, "is_accidental" in req, Equals("IS_ACCIDENTAL", Get(req, "is_accidental")));
    assert cs == Filters(req);
    ghost var filters := cs;
    ghost var from := When("date_from" in req, AtLeast("MNTC_DATE", Get(req, "date_from")));
    ghost var to := When("date_to" in req, AtMost("MNTC_DATE", Get(req, "date_to")));
    cs := AddWhen(cs, "date_from" in req, AtLeast("MNTC_DATE", Get(req, "date_from")));
    cs := AddWhen(cs, "date_to" in req, AtMost("MNTC_DATE", Get(req, "date_to")));
    assert cs == (filters + from) + to;
    assert (filters + from) + to == filters + (from + to);
  }

  /** `index`: the matching records, latest maintenance date first, one page. */
  method Index(records: Table, req: Request) returns (reply: Reply<Page>)
    ensures reply == Reply(OK, true, Some(List(records.rows, Criteria(req), "MNTC_DATE", Desc, req)))
    ensures reply.data.value.total == |Filter(records.rows, Criteria(req))|
    ensures PerPageOf(req) > 0 ==> |reply.data.value.items| <= PerPageOf(req)
    ensures "per_page" !in req ==> |reply.data.value.items| <= 15
    ensures forall x :: x in reply.data.value.items ==> x in records.rows && MatchesAll(x, Criteria(req))
    ensures Sorted(reply.data.value.items, "MNTC_DATE", Desc)
  {
    var cs := BuildCriteria(req);
    reply := Reply(OK, true, Some(List(records.rows, cs, "MNTC_DATE", Desc, req)));
  }

  const StoreRules: seq<Rule> := [
    Rule("VEHICLE_OID", Required, false, Integer),
    Rule("MNTC_TYPE_OID", Required, false, Integer),
    Rule("CURRENT_MILEAGE", Required, false, Numeric(None)),
    Rule("MNTC_ID", Required, false, Integer),
    Rule("MNTC_YEAR", Required, false, Integer),
    Rule("IS_ACCIDENTAL", Optional, true, Integer),
    Rule("MNTC_DATE", Optional, true, Date),
    Rule("STATUS_OID", Optional, true, Integer),
    Rule("FINISH_DATE", Optional, true, Date),
    Rule("NOTE", Optional, true, Str(0, None)),
    Rule("ENTRY_USER", Optional, true, Str(0, None)),
    Rule("RESPONSIBLE", Optional, true, Str(0, None)),
    Rule("REPAIR_TIME", Optional, true, Integer),
    Rule("DRIVER_OWNER", Optional, true, Integer)]

  const UpdateRules: seq<Rule> := [
    Rule("VEHICLE_OID", Sometimes, false, Integer),
    Rule("MNTC_TYPE_OID", Sometimes, false, Integer),
    Rule("CURRENT_MILEAGE", Sometimes, false, Numeric(None)),
    Rule("IS_ACCIDENTAL", Optional, true, Integer),
    Rule("MNTC_DATE", Optional, true, Date),
    Rule("STATUS_OID", Optional, true, Integer),
    Rule("FINISH_DATE", Optional, true, Date),
    Rule("NOTE", Optional, true, Str(0, None)),
    Rule("RESPONSIBLE", Optional, true, Str(0, None)),
    Rule("REPAIR_TIME", Optional, true, Integer)]

  /** A stored record always names its vehicle, its type, its mileage, its
    * id and its year, with integer ids and a numeric mileage. */
  lemma StoreNeeds(req: Request)
    requires Validate(StoreRules, req).Some?
    ensures "VEHICLE_OID" in req && req["VEHICLE_OID"].VInt?
    ensures "MNTC_TYPE_OID" in req && req["MNTC_TYPE_OID"].VInt?
    ensures "CURRENT_MILEAGE" in req && IsNumber(req["CURRENT_MILEAGE"])
    ensures "MNTC_ID" in req && req["MNTC_ID"].VInt?
    ensures "MNTC_YEAR" in req && req["MNTC_YEAR"].VInt?
  {
    RequiredInteger(req, Rule("VEHICLE_OID", Required, false, Integer));
    RequiredInteger(req, Rule("MNTC_TYPE_OID", Required, false, Integer));
    var mileage := Rule("CURRENT_MILEAGE", Required, false, Numeric(None));
    RequiredPresent(StoreRules, req, mileage);
    KindHolds(StoreRules, req, mileage);
    RequiredInteger(req, Rule("MNTC_ID", Required, false, Integer));
    RequiredInteger(req, Rule("MNTC_YEAR", Required, false, Integer));
  }

  lemma RequiredInteger(req: Request, r: Rule)
    requires r in StoreRules && r.presence == Required && !r.nullable && r.kind == Integer
    requires Validate(StoreRules, req).Some?
    ensures r.field in req && req[r.field].VInt?
  {
    RequiredPresent(StoreRules, req, r);
    KindHolds(StoreRules, req, r);
  }

  /** The columns `update` has no rule for, so can never change. */
  const Fixed: set<string> := {"MNTC_ID", "MNTC_YEAR", "ENTRY_USER", "DRIVER_OWNER"}

  /** Whatever the request, an update leaves the record's id, year, entering
    * user and driver as they were. */
  lemma UpdateKeepsFixed(row: Row, req: Request, k: string)
    requires Validate(UpdateRules, req).Some? && k in Fixed
    ensures Get(Updated(row, Validate(UpdateRules, req).value, Fillable), k) == Get(row, k)
  {
    assert forall i :: 0 <= i < |UpdateRules| ==> UpdateRules[i].field != k;
    UnruledDropped(UpdateRules, req, k);
  }

  /** `store`: 201 with the created row, or 500 when validation fails. */
  method Store(records: Table, req: Request) returns (reply: Reply<Row>)
    requires IsMaintenanceTable(records)
    modifies records
    ensures IsMaintenanceTable(records)
    ensures Validate(StoreRules, req).None? ==>
      reply == Reply(SERVER_ERROR, false, None) && records.rows == old(records.rows)
    ensures Validate(StoreRules, req).Some? ==>
      var row := Created(Validate(StoreRules, req).value, Fillable, "OID", old(records.nextOid));
      reply == Reply(CREATED, true, Some(row)) && records.rows == old(records.rows) + [row]
  {
    assert Validate(StoreRules, req).Some? ==> Validate(StoreRules, req).value + map[] == Validate(StoreRules, req).value;
    reply := Tables.Store(records, StoreRules, req, map[]);
  }

  /** `show`: 200 with the record, or 404. */
  method Show(records: Table, id: int) returns (reply: Reply<Row>)
    ensures records.Find(id).Some? ==> reply == Reply(OK, true, Some(records.rows[records.Find(id).value]))
    ensures records.Find(id).None? ==> reply == Reply(NOT_FOUND, false, None)
  {
    reply := Tables.Show(records, id);
  }

  /** `update`: 500 for a missing record or a failed validation; otherwise
    * the supplied, validated columns are overwritten. */
  method Update(records: Table, id: int, req: Request) returns (reply: Reply<Row>)
    requires IsMaintenanceTable(records)
    modifies records
    ensures IsMaintenanceTable(records)
    ensures old(records.Find(id)).None? || Validate(UpdateRules, req).None? ==>
      reply == Reply(SERVER_ERROR, false, None) && records.rows == old(records.rows)
    ensures old(records.Find(id)).Some? && Validate(UpdateRules, req).Some? ==>
      var i := old(records.Find(id)).value;
      var row := Updated(old(records.rows)[i], Validate(UpdateRules, req).value, Fillable);
      reply == Reply(OK, true, Some(row)) && records.rows == old(records.rows)[i := row]
  {
    reply := Tables.Update(records, id, UpdateRules, req);
  }

  /** `destroy`: 500 for a missing record; otherwise its row is removed. */
  method Destroy(records: Table, id: int) returns (reply: Reply<Row>)
    requires IsMaintenanceTable(records)
    modifies records
    ensures IsMaintenanceTable(records)
    ensures old(records.Find(id)).None? ==> reply == Reply(SERVER_ERROR, false, None) && records.rows == old(records.rows)
    ensures old(records.Find(id)).Some? ==>
      var i := old(records.Find(id)).value;
      reply == Reply(OK, true, None) && records.rows == old(records.rows)[..i] + old(records.rows)[i + 1..]
    ensures records.Find(id).None?
  {
    reply := Tables.Destroy(records, id);
  }
}
