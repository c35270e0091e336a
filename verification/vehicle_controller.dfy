/** The vehicles resource: listing with filters, search and labels, the four
  * write/read endpoints, and per-vehicle fuel statistics. */
module VehicleController {
  import opened Values
  import opened Query
  import opened Validation
  import opened Tables
  import opened ConstantsHelper
  import VehicleModel

  /** The Vehicle model's `$fillable` columns. */
  const Fillable: set<string> := {
    "VENDOR_OID", "MODEL", "MODLE_YEAR", "INITIAL_PRICE", "VIN_NUM", "PLATE_NUM", "OLD_PLATE_NUM",
    "TOO_OLD_PLATE_NUM", "USAGE_TYPE_OID", "FUEL_TYPE_OID", "ENGINE_CAPACITY", "VEHICLE_WEIGHT",
    "PASSENGER_NUM", "LIC_END_DATE", "INS_END_DATE", "ASSIGNED_TO", "SERVICE_YEAR", "STATUS_OID",
    "DEPRECIATE_DATE", "NTOE", "ENTRY_DATE", "ENTRY_USER", "TANK_CAPACITY", "VEHICLE_NUM", "GPS_NUM",
    "LIC_START_DATE", "INS_START_DATE", "KELOMETER_PER_LITER", "ODOMETER", "USER_MODIFIED",
    "DATE_MODIFIED", "TYPE_OID"}

  /** The VEHICLE table: keyed by `OID`, mass-assignable through `Fillable`. */
  ghost predicate IsVehicleTable(t: Table)
    reads t
  {
    t.Valid() && t.key == "OID" && t.fillable == Fillable
  }

  /** The conjunction `index` builds: one equality per filter that is present,
    * and the search term over three columns. */
  function Criteria(req: Request): seq<Criterion>
  {
    When("status_oid" in req, Equals("STATUS_OID", Get(req, "status_oid"))) +
    When("fuel_type_oid" in req, Equals("FUEL_TYPE_OID", Get(req, "fuel_type_oid"))) +
    When("assigned_to" in req, Equals("ASSIGNED_TO", Get(req, "assigned_to"))) +
    When("search" in req, Search(["VEHICLE_NUM", "PLATE_NUM", "MODEL"], TermOf(Get(req, "search"))))
  }

  /** A vehicle is listed exactly when it passes each filter that is present
    * and, when searching, one of its three text columns contains the term. */
  lemma CriteriaMeaning(req: Request, row: Row)
    ensures MatchesAll(row, Criteria(req)) <==>
      ("status_oid" in req ==> SqlEquals(Get(row, "STATUS_OID"), req["status_oid"])) &&
      ("fuel_type_oid" in req ==> SqlEquals(Get(row, "FUEL_TYPE_OID"), req["fuel_type_oid"])) &&
      ("assigned_to" in req ==> SqlEquals(Get(row, "ASSIGNED_TO"), req["assigned_to"])) &&
      ("search" in req ==>
        var t := TermOf(req["search"]);
        Like(Get(row, "VEHICLE_NUM"), t) || Like(Get(row, "PLATE_NUM"), t) || Like(Get(row, "MODEL"), t))
  {
    var a := When("status_oid" in req, Equals("STATUS_OID", Get(req, "status_oid")));
    var b := When("fuel_type_oid" in req, Equals("FUEL_TYPE_OID", Get(req, "fuel_type_oid")));
    var c := When("assigned_to" in req, Equals("ASSIGNED_TO", Get(req, "assigned_to")));
    var cols := ["VEHICLE_NUM", "PLATE_NUM", "MODEL"];
    var d := When("search" in req, Search(cols, TermOf(Get(req, "search"))));
    MatchesAllConcat(row, a + b + c, d);
    MatchesAllConcat(row, a + b, c);
    MatchesAllConcat(row, a, b);
    MatchesWhen(row, "status_oid" in req, Equals("STATUS_OID", Get(req, "status_oid")));
    MatchesWhen(row, "fuel_type_oid" in req, Equals("FUEL_TYPE_OID", Get(req, "fuel_type_oid")));
    MatchesWhen(row, "assigned_to" in req, Equals("ASSIGNED_TO", Get(req, "assigned_to")));
    MatchesWhen(row, "search" in req, Search(cols, TermOf(Get(req, "search"))));
    SearchAny(row, cols, TermOf(Get(req, "search")));
  }

  /** `Station::find($id)->station_name`, or null when no station has that id. */
  function StationName(stations: seq<Row>, id: Value): (name: Value)
    ensures FirstWhere(stations, "OID", id).None? ==> name == VNull
    ensures FirstWhere(stations, "OID", id).Some? ==>
      name == Get(stations[FirstWhere(stations, "OID", id).value], "station_name")
  {
    match FirstWhere(stations, "OID", id)
    case None => VNull
    case Some(i) => Get(stations[i], "station_name")
  }

  /** One listed vehicle: its labels, and its station's name when `assigned_to` is truthy. */
  function View(row: Row, constants: seq<Row>, stations: seq<Row>): Row
  {
    var e := Enriched(row, constants);
    if Truthy(Get(e, "assigned_to")) then e["assigned_station_name" := StationName(stations, e["assigned_to"])]
    else e
  }

  function Views(items: seq<Row>, constants: seq<Row>, stations: seq<Row>): (r: seq<Row>)
    ensures |r| == |items|
    ensures forall k :: 0 <= k < |items| ==> r[k] == View(items[k], constants, stations)
  {
    seq(|items|, k requires 0 <= k < |items| => View(items[k], constants, stations))
  }

  /** What a listed vehicle shows: every column it had (other than the five
    * labels and the station name) unchanged, each label for a set id column,
    * and a station name exactly when `assigned_to` is truthy. */
  lemma ViewShows(row: Row, constants: seq<Row>, stations: seq<Row>)
    ensures var v := View(row, constants, stations);
      (forall k :: k in row && k !in Targets && k != "assigned_station_name" ==> k in v && v[k] == row[k]) &&
      (forall k :: k in Targets && IsSet(row, LabelFor(k).value.source) ==> k in v) &&
      v.Keys <= row.Keys + Targets + {"assigned_station_name"} &&
      (Truthy(Get(row, "assigned_to")) ==> v["assigned_station_name"] == StationName(stations, row["assigned_to"])) &&
      (!Truthy(Get(row, "assigned_to")) && "assigned_station_name" !in row ==> "assigned_station_name" !in v)
  {
    var e := Enriched(row, constants);
    EnrichedAddsOnlyLabels(row, constants);
    LabelTable("assigned_to");
    LabelTable("assigned_station_name");
    forall k | k in row && k !in Targets ensures k in e && e[k] == row[k] {
      EnrichedKeepsInput(row, constants, k);
    }
    forall k | k in Targets && IsSet(row, LabelFor(k).value.source) ensures k in e {
      LabelTable(k);
    }
  }

  /** The successive `where` calls of `index`. */
  method BuildCriteria(req: Request) returns (cs: seq<Criterion>)
    ensures cs == Criteria(req)
  {
    cs := [];
    if "status_oid" in req {
      cs := cs + [Equals("STATUS_OID", req["status_oid"])];
    }
    if "fuel_type_oid" in req {
      cs := cs + [Equals("FUEL_TYPE_OID", req["fuel_type_oid"])];
    }
    if "assigned_to" in req {
      cs := cs + [Equals("ASSIGNED_TO", req["assigned_to"])];
    }
    if "search" in req {
      cs := cs + [Search(["VEHICLE_NUM", "PLATE_NUM", "MODEL"], TermOf(req["search"]))];
    }
  }

  /** The body of the `transform` callback for one vehicle. */
  method ViewOf(row: Row, constants: seq<Row>, stations: seq<Row>) returns (v: Row)
    ensures v == View(row, constants, stations)
  {
    v := TransformModelData(row, constants);
    if Truthy(Get(v, "assigned_to")) {
      var s := FirstWhere(stations, "OID", v["assigned_to"]);
      v := v["assigned_station_name" := if s.Some? then Get(stations[s.value], "station_name") else VNull];
    }
  }

  /** `getCollection()->transform(...)`: every row of the page, in place. */
  method Transform(items: seq<Row>, constants: seq<Row>, stations: seq<Row>) returns (out: seq<Row>)
    ensures out == Views(items, constants, stations)
  {
    out := items;
    var i := 0;
    while i < |items|
      invariant 0 <= i <= |items| && |out| == |items|
      invariant forall k :: 0 <= k < i ==> out[k] == View(items[k], constants, stations)
      invariant forall k :: i <= k < |items| ==> out[k] == items[k]
    {
      var v := ViewOf(out[i], constants, stations);
      out := out[i := v];
      i := i + 1;
    }
  }

  /** `index`: the matching vehicles, newest `OID` first, one page of them,
    * each passed through `transformModelData` and given its station's name. */
  method Index(vehicles: Table, stations: Table, constants: Table, req: Request) returns (reply: Reply<Page>)
    ensures var p := List(vehicles.rows, Criteria(req), "OID", Desc, req);
      reply == Reply(OK, true, Some(p.(items := Views(p.items, constants.rows, stations.rows))))
  {
    var cs := BuildCriteria(req);
    var page := List(vehicles.rows, cs, "OID", Desc, req);
    var items := Transform(page.items, constants.rows, stations.rows);
    reply := Reply(OK, true, Some(page.(items := items)));
  }

  /** The listed page keeps the query's promises after enrichment: it counts
    * every matching vehicle, holds at most `per_page` of them, each listed
    * vehicle is the view of a matching one, and `OID`s are descending. */
  lemma IndexPage(vehicles: seq<Row>, constants: seq<Row>, stations: seq<Row>, req: Request)
    ensures var p := List(vehicles, Criteria(req), "OID", Desc, req);
      var items := Views(p.items, constants, stations);
      p.total == |Filter(vehicles, Criteria(req))| &&
      (PerPageOf(req) > 0 ==> |items| <= PerPageOf(req)) &&
      (forall k :: 0 <= k < |items| ==>
        p.items[k] in vehicles && MatchesAll(p.items[k], Criteria(req)) && items[k] == View(p.items[k], constants, stations)) &&
      Sorted(items, "OID", Desc)
  {
    var p := List(vehicles, Criteria(req), "OID", Desc, req);
    ViewsKeepOid(p.items, constants, stations);
    SortedByKey(p.items, Views(p.items, constants, stations), "OID", Desc);
  }

  lemma ViewsKeepOid(items: seq<Row>, constants: seq<Row>, stations: seq<Row>)
    ensures forall k :: 0 <= k < |items| ==> Get(Views(items, constants, stations)[k], "OID") == Get(items[k], "OID")
  {
    forall k | 0 <= k < |items| ensures Get(Views(items, constants, stations)[k], "OID") == Get(items[k], "OID") {
      ViewShows(items[k], constants, stations);
      LabelTable("OID");
    }
  }

  /** `store`'s rules. */
  const StoreRules: seq<Rule> := [
    Rule("VEHICLE_NUM", Required, false, Str(0, Some(100))),
    Rule("MODEL", Optional, true, Str(0, Some(100))),
    Rule("MODLE_YEAR", Optional, true, Integer),
    Rule("PLATE_NUM", Optional, true, Str(0, Some(100))),
    Rule("FUEL_TYPE_OID", Required, false, Integer),
    Rule("TYPE_OID", Required, false, Integer),
    Rule("ENGINE_CAPACITY", Optional, true, Numeric(None)),
    Rule("TANK_CAPACITY", Optional, true, Numeric(None)),
    Rule("ASSIGNED_TO", Optional, true, Integer),
    Rule("STATUS_OID", Optional, true, Integer)]

  /** `update`'s rules: the three required fields become `sometimes`, and `ODOMETER` is added. */
  const UpdateRules: seq<Rule> := [
    Rule("VEHICLE_NUM", Sometimes, false, Str(0, Some(100))),
    Rule("MODEL", Optional, true, Str(0, Some(100))),
    Rule("MODLE_YEAR", Optional, true, Integer),
    Rule("PLATE_NUM", Optional, true, Str(0, Some(100))),
    Rule("FUEL_TYPE_OID", Sometimes, false, Integer),
    Rule("TYPE_OID", Sometimes, false, Integer),
    Rule("ENGINE_CAPACITY", Optional, true, Numeric(None)),
    Rule("TANK_CAPACITY", Optional, true, Numeric(None)),
    Rule("ASSIGNED_TO", Optional, true, Integer),
    Rule("STATUS_OID", Optional, true, Integer),
    Rule("ODOMETER", Optional, true, Numeric(None))]

  /** A stored vehicle always has a non-blank number of at most 100
    * characters and integer fuel type and type ids. */
  lemma StoreNeeds(req: Request)
    requires Validate(StoreRules, req).Some?
    ensures "VEHICLE_NUM" in req && req["VEHICLE_NUM"].VStr? && |req["VEHICLE_NUM"].s| <= 100
    ensures !IsEmpty(req["VEHICLE_NUM"])
    ensures "FUEL_TYPE_OID" in req && req["FUEL_TYPE_OID"].VInt?
    ensures "TYPE_OID" in req && req["TYPE_OID"].VInt?
  {
    var number := Rule("VEHICLE_NUM", Required, false, Str(0, Some(100)));
    var fuelType := Rule("FUEL_TYPE_OID", Required, false, Integer);
    var vehicleType := Rule("TYPE_OID", Required, false, Integer);
    RequiredPresent(StoreRules, req, number);
    KindHolds(StoreRules, req, number);
    RequiredPresent(StoreRules, req, fuelType);
    KindHolds(StoreRules, req, fuelType);
    RequiredPresent(StoreRules, req, vehicleType);
    KindHolds(StoreRules, req, vehicleType);
  }

  /** `update` treats every field as optional: an empty body is accepted and
    * writes nothing. */
  lemma UpdateAllOptional(row: Row)
    ensures Validate(UpdateRules, map[]) == Some(map[])
    ensures Updated(row, map[], Fillable) == row
  {
    assert forall i :: 0 <= i < |UpdateRules| ==> Passes(UpdateRules[i], map[]);
    AcceptedAsIs(UpdateRules, map[]);
  }

  /** `store`: 201 with the created row, or 500 when validation fails. */
  method Store(vehicles: Table, req: Request) returns (reply: Reply<Row>)
    requires IsVehicleTable(vehicles)
    modifies vehicles
    ensures IsVehicleTable(vehicles)
    ensures Validate(StoreRules, req).None? ==>
      reply == Reply(SERVER_ERROR, false, None) && vehicles.rows == old(vehicles.rows)
    ensures Validate(StoreRules, req).Some? ==>
      var row := Created(Validate(StoreRules, req).value, Fillable, "OID", old(vehicles.nextOid));
      reply == Reply(CREATED, true, Some(row)) && vehicles.rows == old(vehicles.rows) + [row]
  {
    assert Validate(StoreRules, req).Some? ==> Validate(StoreRules, req).value + map[] == Validate(StoreRules, req).value;
    reply := Tables.Store(vehicles, StoreRules, req, map[]);
  }

  /** `show`: 200 with the vehicle, labels attached and its station's name, or 404. */
  method Show(vehicles: Table, stations: Table, constants: Table, id: int) returns (reply: Reply<Row>)
    ensures vehicles.Find(id).None? ==> reply == Reply(NOT_FOUND, false, None)
    ensures vehicles.Find(id).Some? ==>
      reply == Reply(OK, true, Some(View(vehicles.rows[vehicles.Find(id).value], constants.rows, stations.rows)))
  {
    var found := Tables.Show(vehicles, id);
    if found.data.None? {
      reply := found;
    } else {
      var v := ViewOf(found.data.value, constants.rows, stations.rows);
      reply := Reply(OK, true, Some(v));
    }
  }

  /** `update`: 500 for a missing vehicle or a failed validation; otherwise
    * the supplied, validated, fillable columns are overwritten. */
  method Update(vehicles: Table, id: int, req: Request) returns (reply: Reply<Row>)
    requires IsVehicleTable(vehicles)
    modifies vehicles
    ensures IsVehicleTable(vehicles)
    ensures old(vehicles.Find(id)).None? || Validate(UpdateRules, req).None? ==>
      reply == Reply(SERVER_ERROR, false, None) && vehicles.rows == old(vehicles.rows)
    ensures old(vehicles.Find(id)).Some? && Validate(UpdateRules, req).Some? ==>
      var i := old(vehicles.Find(id)).value;
      var row := Updated(old(vehicles.rows)[i], Validate(UpdateRules, req).value, Fillable);
      reply == Reply(OK, true, Some(row)) && vehicles.rows == old(vehicles.rows)[i := row]
  {
    reply := Tables.Update(vehicles, id, UpdateRules, req);
  }

  /** `destroy`: 500 for a missing vehicle; otherwise its row is removed. */
  method Destroy(vehicles: Table, id: int) returns (reply: Reply<Row>)
    requires IsVehicleTable(vehicles)
    modifies vehicles
    ensures IsVehicleTable(vehicles)
    ensures old(vehicles.Find(id)).None? ==> reply == Reply(SERVER_ERROR, false, None) && vehicles.rows == old(vehicles.rows)
    ensures old(vehicles.Find(id)).Some? ==>
      var i := old(vehicles.Find(id)).value;
      reply == Reply(OK, true, None) && vehicles.rows == old(vehicles.rows)[..i] + old(vehicles.rows)[i + 1..]
    ensures vehicles.Find(id).None?
  {
    reply := Tables.Destroy(vehicles, id);
  }

  /** The figures `fuelStats` reports. */
  datatype FuelStats = FuelStats(totalFuelLogs: nat, totalGallons: real, lastFuelDate: Value, currentOdometer: Value)

  /** `fuelStats`: 500 for a missing vehicle; otherwise the count of its
    * logs, their summed `GALLONS`, their latest `FILL_UP_DATE` (null when
    * none has one) and the vehicle's `ODOMETER`. */
  method FuelStatsOf(vehicles: Table, logs: Table, id: int) returns (reply: Reply<FuelStats>)
    ensures vehicles.Find(id).None? ==> reply == Reply(SERVER_ERROR, false, None)
    ensures vehicles.Find(id).Some? ==>
      var vehicle := vehicles.rows[vehicles.Find(id).value];
      var own := VehicleModel.FuelLogs(vehicle, logs.rows);
      reply.status == OK && reply.success && reply.data.Some? &&
      reply.data.value.totalFuelLogs == |own| &&
      reply.data.value.totalGallons == SumOf(own, "GALLONS") &&
      reply.data.value.currentOdometer == Get(vehicle, "ODOMETER") &&
      (reply.data.value.lastFuelDate == VNull <==> forall i :: 0 <= i < |own| ==> Get(own[i], "FILL_UP_DATE") == VNull) &&
      (forall i :: 0 <= i < |own| && Get(own[i], "FILL_UP_DATE") != VNull ==>
        Ordering.ValueLe(Get(own[i], "FILL_UP_DATE"), reply.data.value.lastFuelDate)) &&
      (reply.data.value.lastFuelDate != VNull ==>
        exists i :: 0 <= i < |own| && Get(own[i], "FILL_UP_DATE") == reply.data.value.lastFuelDate)
  {
    var i := vehicles.Find(id);
    if i.None? {
      reply := Reply(SERVER_ERROR, false, None);
    } else {
      var vehicle := vehicles.rows[i.value];
      var own := HasMany(logs.rows, "VEH_OID", Get(vehicle, "OID"));
      reply := Reply(OK, true, Some(FuelStats(|own|, SumOf(own, "GALLONS"), MaxOf(own, "FILL_UP_DATE"), Get(vehicle, "ODOMETER"))));
    }
  }
}
