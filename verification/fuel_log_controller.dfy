/** The fuel-log resource: a filtered, dated listing and writes that stamp
  * the entry date and keep the log's identity fields fixed on update. */
module FuelLogController {
  import opened Values
  import opened Query
  import opened Validation
  import opened Tables

  /** The VehicleFuelLog model's `$fillable` columns. */
  const Fillable: set<string> := {
    "ENTRY_USER", "ENTRY_DATE", "VEH_OID", "FILL_UP_DATE", "GALLONS", "ODOMETER", "NOTE",
    "STATUS_OID", "FUEL_ID", "FUEL_YEAR", "GAS_TYPE", "GENERATOR_OID", "DIVERS", "CANCEL_DATE",
    "ODOMETER_LOWER", "ODOMETER3_UPPER", "ODOMETER_BIG", "ODOMETER_SMALL", "ODOMETER_SMALL2",
    "USER_CANCEL_OID", "APPROVAL_DATE", "STATION_OID"}

  ghost predicate IsFuelLogTable(t: Table)
    reads t
  {
    t.Valid() && t.key == "OID" && t.fillable == Fillable
  }

  /** The conjunction `index` builds: one equality per filter that is present,
    * then the inclusive `FILL_UP_DATE` bounds. */
  function Criteria(req: Request): seq<Criterion>
  {
    When("veh_oid" in req, Equals("VEH_OID", Get(req, "veh_oid"))) +
    When("station_oid" in req, Equals("STATION_OID", Get(req, "station_oid"))) +
    When("fuel_year" in req, Equals("FUEL_YEAR", Get(req, "fuel_year"))) +
    When("gas_type" in req, Equals("GAS_TYPE", Get(req, "gas_type"))) +
    When("date_from" in req, AtLeast("FILL_UP_DATE", Get(req, "date_from"))) +
    When("date_to" in req, AtMost("FILL_UP_DATE", Get(req, "date_to")))
  }

  /** A log is listed exactly when it passes each filter that is present and
    * its fill-up date lies within the bounds given. */
  lemma CriteriaMeaning(req: Request, row: Row)
    ensures MatchesAll(row, Criteria(req)) <==>
      ("veh_oid" in req ==> SqlEquals(Get(row, "VEH_OID"), req["veh_oid"])) &&
      ("station_oid" in req ==> SqlEquals(Get(row, "STATION_OID"), req["station_oid"])) &&
      ("fuel_year" in req ==> SqlEquals(Get(row, "FUEL_YEAR"), req["fuel_year"])) &&
      ("gas_type" in req ==> SqlEquals(Get(row, "GAS_TYPE"), req["gas_type"])) &&
      ("date_from" in req ==> SqlLe(req["date_from"], Get(row, "FILL_UP_DATE"))) &&
      ("date_to" in req ==> SqlLe(Get(row, "FILL_UP_DATE"), req["date_to"]))
  {
    var a := When("veh_oid" in req, Equals("VEH_OID", Get(req, "veh_oid")));
    var b := When("station_oid" in req, Equals("STATION_OID", Get(req, "station_oid")));
    var c := When("fuel_year" in req, Equals("FUEL_YEAR", Get(req, "fuel_year")));
    var d := When("gas_type" in req, Equals("GAS_TYPE", Get(req, "gas_type")));
    var e := When("date_from" in req, AtLeast("FILL_UP_DATE", Get(req, "date_from")));
    var f := When("date_to" in req, AtMost("FILL_UP_DATE", Get(req, "date_to")));
    MatchesAllConcat(row, a + b + c + d + e, f);
    MatchesAllConcat(row, a + b + c + d, e);
    MatchesAllConcat(row, a + b + c, d);
    MatchesAllConcat(row, a + b, c);
    MatchesAllConcat(row, a, b);
    MatchesWhen(row, "veh_oid" in req, Equals("VEH_OID", Get(req, "veh_oid")));
    MatchesWhen(row, "station_oid" in req, Equals("STATION_OID", Get(req, "station_oid")));
    MatchesWhen(row, "fuel_year" in req, Equals("FUEL_YEAR", Get(req, "fuel_year")));
    MatchesWhen(row, "gas_type" in req, Equals("GAS_TYPE", Get(req, "gas_type")));
    MatchesWhen(row, "date_from" in req, AtLeast("FILL_UP_DATE", Get(req, "date_from")));
    MatchesWhen(row, "date_to" in req, AtMost("FILL_UP_DATE", Get(req, "date_to")));
  }

  /** The successive `where` calls of `index`. */
  method BuildCriteria(req: Request) returns (cs: seq<Criterion>)
    ensures cs == Criteria(req)
  {
    cs := [];
    if "veh_oid" in req {
      cs := cs + [Equals("VEH_OID", req["veh_oid"])];
    }
    ghost var a := When("veh_oid" in req, Equals("VEH_OID", Get(req, "veh_oid")));
    assert cs == a;
    if "station_oid" in req {
      cs := cs + [Equals("STATION_OID", req["station_oid"])];
    }
    ghost var b := a + When("station_oid" in req, Equals("STATION_OID", Get(req, "station_oid")));
    assert cs == b;
    if "fuel_year" in req {
      cs := cs + [Equals("FUEL_YEAR", req["fuel_year"])];
    }
    ghost var c := b + When("fuel_year" in req, Equals("FUEL_YEAR", Get(req, "fuel_year")));
    assert cs == c;
    if "gas_type" in req {
      cs := cs + [Equals("GAS_TYPE", req["gas_type"])];
    }
    ghost var d := c + When("gas_type" in req, Equals("GAS_TYPE", Get(req, "gas_type")));
    assert cs == d;
    if "date_from" in req {
      cs := cs + [AtLeast("FILL_UP_DATE", req["date_from"])];
    }
    ghost var e := d + When("date_from" in req, AtLeast("FILL_UP_DATE", Get(req, "date_from")));
    assert cs == e;
    if "date_to" in req {
      cs := cs + [AtMost("FILL_UP_DATE", req["date_to"])];
    }
  }

  /** `index`: the matching logs, latest fill-up first, one page of them. */
  method Index(logs: Table, req: Request) returns (reply: Reply<Page>)
    ensures reply == Reply(OK, true, Some(List(logs.rows, Criteria(req), "FILL_UP_DATE", Desc, req)))
    ensures reply.data.value.total == |Filter(logs.rows, Criteria(req))|
    ensures PerPageOf(req) > 0 ==> |reply.data.value.items| <= PerPageOf(req)
    ensures forall x :: x in reply.data.value.items ==> x in logs.rows && MatchesAll(x, Criteria(req))
    ensures Sorted(reply.data.value.items, "FILL_UP_DATE", Desc)
  {
    var cs := BuildCriteria(req);
    reply := Reply(OK, true, Some(List(logs.rows, cs, "FILL_UP_DATE", Desc, req)));
  }

  /** `store`'s rules. */
  const StoreRules: seq<Rule> := [
    Rule("VEH_OID", Optional, true, Integer),
    Rule("ENTRY_USER", Required, false, Integer),
    Rule("FILL_UP_DATE", Required, false, Date),
    Rule("GALLONS", Required, false, Numeric(Some(0.0))),
    Rule("FUEL_ID", Required, false, Integer),
    Rule("FUEL_YEAR", Required, false, Integer),
    Rule("GAS_TYPE", Required, false, Integer),
    Rule("ODOMETER", Optional, true, Numeric(None)),
    Rule("STATION_OID", Optional, true, Integer),
    Rule("GENERATOR_OID", Optional, true, Integer),
    Rule("NOTE", Optional, true, Str(0, None))]

  /** `update`'s rules: the log's user, fuel id, year and gas type are not among them. */
  const UpdateRules: seq<Rule> := [
    Rule("VEH_OID", Sometimes, false, Integer),
    Rule("FILL_UP_DATE", Sometimes, false, Date),
    Rule("GALLONS", Sometimes, false, Numeric(Some(0.0))),
    Rule("ODOMETER", Optional, true, Numeric(None)),
    Rule("STATION_OID", Optional, true, Integer),
    Rule("GENERATOR_OID", Optional, true, Integer),
    Rule("NOTE", Optional, true, Str(0, None))]

  /** A stored log has an integer user, fuel id, year and gas type, a fill-up
    * date and a non-negative quantity. */
  lemma StoreNeeds(req: Request)
    requires Validate(StoreRules, req).Some?
    ensures "ENTRY_USER" in req && req["ENTRY_USER"].VInt?
    ensures "FILL_UP_DATE" in req && req["FILL_UP_DATE"].VDate?
    ensures "GALLONS" in req && IsNumber(req["GALLONS"]) && NumOf(req["GALLONS"]) >= 0.0
    ensures "FUEL_ID" in req && req["FUEL_ID"].VInt?
    ensures "FUEL_YEAR" in req && req["FUEL_YEAR"].VInt?
    ensures "GAS_TYPE" in req && req["GAS_TYPE"].VInt?
  {
    var user := Rule("ENTRY_USER", Required, false, Integer);
    var date := Rule("FILL_UP_DATE", Required, false, Date);
    var gallons := Rule("GALLONS", Required, false, Numeric(Some(0.0)));
    var fuelId := Rule("FUEL_ID", Required, false, Integer);
    var year := Rule("FUEL_YEAR", Required, false, Integer);
    var gasType := Rule("GAS_TYPE", Required, false, Integer);
    RequiredPresent(StoreRules, req, user);
    KindHolds(StoreRules, req, user);
    RequiredPresent(StoreRules, req, date);
    KindHolds(StoreRules, req, date);
    RequiredPresent(StoreRules, req, gallons);
    KindHolds(StoreRules, req, gallons);
    RequiredPresent(StoreRules, req, fuelId);
    KindHolds(StoreRules, req, fuelId);
    RequiredPresent(StoreRules, req, year);
    KindHolds(StoreRules, req, year);
    RequiredPresent(StoreRules, req, gasType);
    KindHolds(StoreRules, req, gasType);
  }

  /** Nothing ties `VEH_OID` to `GENERATOR_OID`: a log that validates still
    * validates when it also names a generator, whatever vehicle it names. */
  lemma VehicleAndGeneratorNotExclusive(req: Request, generator: int)
    requires Validate(StoreRules, req).Some?
    ensures Validate(StoreRules, req["GENERATOR_OID" := VInt(generator)]).Some?
  {
    assert forall i :: 0 <= i < |StoreRules| && StoreRules[i].field == "GENERATOR_OID" ==> i == 9;
    StillPasses(StoreRules, req, "GENERATOR_OID", VInt(generator));
  }

  /** The row `store` writes: the validated data with `ENTRY_DATE` set to the
    * current time, under a fresh key. */
  function Stored(validated: Row, now: DateTime, oid: int): (row: Row)
    ensures "ENTRY_DATE" in row && row["ENTRY_DATE"] == VDate(now) && "OID" in row && row["OID"] == VInt(oid)
    ensures forall k :: k in validated && k in Fillable && k != "ENTRY_DATE" ==> k in row && row[k] == validated[k]
  {
    Created(validated["ENTRY_DATE" := VDate(now)], Fillable, "OID", oid)
  }

  /** `store`: 201 with the created row, stamped with `now`, or 500 when
    * validation fails. */
  method Store(logs: Table, req: Request, now: DateTime) returns (reply: Reply<Row>)
    requires IsFuelLogTable(logs)
    modifies logs
    ensures IsFuelLogTable(logs)
    ensures Validate(StoreRules, req).None? ==>
      reply == Reply(SERVER_ERROR, false, None) && logs.rows == old(logs.rows)
    ensures Validate(StoreRules, req).Some? ==>
      var row := Stored(Validate(StoreRules, req).value, now, old(logs.nextOid));
      reply == Reply(CREATED, true, Some(row)) && logs.rows == old(logs.rows) + [row]
  {
    var stamp := map["ENTRY_DATE" := VDate(now)];
    var validated := Validate(StoreRules, req);
    if validated.Some? {
      StampIsUpdate(validated.value, now);
    }
    reply := Tables.Store(logs, StoreRules, req, stamp);
  }

  /** Overlaying the stamp sets `ENTRY_DATE` and nothing else. */
  lemma StampIsUpdate(validated: Row, now: DateTime)
    ensures validated + map["ENTRY_DATE" := VDate(now)] == validated["ENTRY_DATE" := VDate(now)]
  {
  }

  /** `show`: 200 with the log, or 404. */
  method Show(logs: Table, id: int) returns (reply: Reply<Row>)
    ensures logs.Find(id).Some? ==> reply == Reply(OK, true, Some(logs.rows[logs.Find(id).value]))
    ensures logs.Find(id).None? ==> reply == Reply(NOT_FOUND, false, None)
  {
    reply := Tables.Show(logs, id);
  }

  /** The columns `update` can never change. */
  const Fixed: set<string> := {"ENTRY_USER", "FUEL_ID", "FUEL_YEAR", "GAS_TYPE", "ENTRY_DATE"}

  /** Whatever the request, an update leaves the log's user, fuel id, year,
    * gas type and entry date as they were. */
  lemma UpdateKeepsFixed(row: Row, req: Request, k: string)
    requires Validate(UpdateRules, req).Some? && k in Fixed
    ensures Get(Updated(row, Validate(UpdateRules, req).value, Fillable), k) == Get(row, k)
  {
    assert forall i :: 0 <= i < |UpdateRules| ==> UpdateRules[i].field != k;
    UnruledDropped(UpdateRules, req, k);
  }

  /** `update`: 500 for a missing log or a failed validation; otherwise the
    * supplied, validated columns are overwritten. */
  method Update(logs: Table, id: int, req: Request) returns (reply: Reply<Row>)
    requires IsFuelLogTable(logs)
    modifies logs
    ensures IsFuelLogTable(logs)
    ensures old(logs.Find(id)).None? || Validate(UpdateRules, req).None? ==>
      reply == Reply(SERVER_ERROR, false, None) && logs.rows == old(logs.rows)
    ensures old(logs.Find(id)).Some? && Validate(UpdateRules, req).Some? ==>
      var i := old(logs.Find(id)).value;
      var row := Updated(old(logs.rows)[i], Validate(UpdateRules, req).value, Fillable);
      reply == Reply(OK, true, Some(row)) && logs.rows == old(logs.rows)[i := row]
  {
    reply := Tables.Update(logs, id, UpdateRules, req);
  }

  /** `destroy`: 500 for a missing log; otherwise its row is removed. */
  method Destroy(logs: Table, id: int) returns (reply: Reply<Row>)
    requires IsFuelLogTable(logs)
    modifies logs
    ensures IsFuelLogTable(logs)
    ensures old(logs.Find(id)).None? ==> reply == Reply(SERVER_ERROR, false, None) && logs.rows == old(logs.rows)
    ensures old(logs.Find(id)).Some? ==>
      var i := old(logs.Find(id)).value;
      reply == Reply(OK, true, None) && logs.rows == old(logs.rows)[..i] + old(logs.rows)[i + 1..]
    ensures logs.Find(id).None?
  {
    reply := Tables.Destroy(logs, id);
  }
}
