/** The generators resource: listing, writes restricted by the model's
  * fillable list, listing by fuel type, statistics and a generator's fuel logs. */
module GeneratorController {
  import opened Values
  import opened Query
  import opened Validation
  import opened Tables

  /** The VehGenerator model's `$fillable` columns. */
  const Fillable: set<string> := {
    "NAME", "ASSIGNED_TO", "FUEL_TYPE_OID", "ENTRY_DATE", "ENTRY_USER", "VEHICLE_NUM", "NOTE",
    "ENGINE_CAPACITY", "TYPE_OID", "ESSENCE_OID"}

  ghost predicate IsGeneratorTable(t: Table)
    reads t
  {
    t.Valid() && t.key == "OID" && t.fillable == Fillable
  }

  /** The conjunction `index` builds: the search over `NAME` and
    * `DESCRIPTION`, then one equality per filter that is present. */
  function Criteria(req: Request): seq<Criterion>
  {
    When("search" in req, Search(["NAME", "DESCRIPTION"], TermOf(Get(req, "search")))) +
    When("fuel_type_oid" in req, Equals("FUEL_TYPE_OID", Get(req, "fuel_type_oid"))) +
    When("vehicle_oid" in req, Equals("VEHICLE_OID", Get(req, "vehicle_oid"))) +
    When("assigned_to" in req, Equals("ASSIGNED_TO", Get(req, "assigned_to"))) +
    When("location_oid" in req, Equals("LOCATION_OID", Get(req, "location_oid"))) +
    When("brand_oid" in req, Equals("BRAND_OID", Get(req, "brand_oid")))
  }

  /** A generator is listed exactly when, if searching, its name or
    * description contains the term, and it passes each filter that is present. */
  lemma CriteriaMeaning(req: Request, row: Row)
    ensures MatchesAll(row, Criteria(req)) <==>
      ("search" in req ==>
        Like(Get(row, "NAME"), TermOf(req["search"])) || Like(Get(row, "DESCRIPTION"), TermOf(req["search"]))) &&
      ("fuel_type_oid" in req ==> SqlEquals(Get(row, "FUEL_TYPE_OID"), req["fuel_type_oid"])) &&
      ("vehicle_oid" in req ==> SqlEquals(Get(row, "VEHICLE_OID"), req["vehicle_oid"])) &&
      ("assigned_to" in req ==> SqlEquals(Get(row, "ASSIGNED_TO"), req["assigned_to"])) &&
      ("location_oid" in req ==> SqlEquals(Get(row, "LOCATION_OID"), req["location_oid"])) &&
      ("brand_oid" in req ==> SqlEquals(Get(row, "BRAND_OID"), req["brand_oid"]))
  {
    var cols := ["NAME", "DESCRIPTION"];
    var a := When("search" in req, Search(cols, TermOf(Get(req, "search"))));
    var b := When("fuel_type_oid" in req, Equals("FUEL_TYPE_OID", Get(req, "fuel_type_oid")));
    var c := When("vehicle_oid" in req, Equals("VEHICLE_OID", Get(req, "vehicle_oid")));
    var d := When("assigned_to" in req, Equals("ASSIGNED_TO", Get(req, "assigned_to")));
    var e := When("location_oid" in req, Equals("LOCATION_OID", Get(req, "location_oid")));
    var f := When("brand_oid" in req, Equals("BRAND_OID", Get(req, "brand_oid")));
    MatchesAllConcat(row, a + b + c + d + e, f);
    MatchesAllConcat(row, a + b + c + d, e);
    MatchesAllConcat(row, a + b + c, d);
    MatchesAllConcat(row, a + b, c);
    MatchesAllConcat(row, a, b);
    MatchesWhen(row, "search" in req, Search(cols, TermOf(Get(req, "search"))));
    MatchesWhen(row, "fuel_type_oid" in req, Equals("FUEL_TYPE_OID", Get(req, "fuel_type_oid")));
    MatchesWhen(row, "vehicle_oid" in req, Equals("VEHICLE_OID", Get(req, "vehicle_oid")));
    MatchesWhen(row, "assigned_to" in req, Equals("ASSIGNED_TO", Get(req, "assigned_to")));
    MatchesWhen(row, "location_oid" in req, Equals("LOCATION_OID", Get(req, "location_oid")));
    MatchesWhen(row, "brand_oid" in req, Equals("BRAND_OID", Get(req, "brand_oid")));
    SearchAny(row, cols, TermOf(Get(req, "search")));
  }

  /** The successive `where` calls of `index`. */
  method BuildCriteria(req: Request) returns (cs: seq<Criterion>)
    ensures cs == Criteria(req)
  {
    cs := [];
    if "search" in req {
      cs := cs + [Search(["NAME", "DESCRIPTION"], TermOf(req["search"]))];
    }
    ghost var a := When("search" in req, Search(["NAME", "DESCRIPTION"], TermOf(Get(req, "search"))));
    assert cs == a;
    if "fuel_type_oid" in req {
      cs := cs + [Equals("FUEL_TYPE_OID", req["fuel_type_oid"])];
    }
    ghost var b := a + When("fuel_type_oid" in req, Equals("FUEL_TYPE_OID", Get(req, "fuel_type_oid")));
    assert cs == b;
    if "vehicle_oid" in req {
      cs := cs + [Equals("VEHICLE_OID", req["vehicle_oid"])];
    }
    ghost var c := b + When("vehicle_oid" in req, Equals("VEHICLE_OID", Get(req, "vehicle_oid")));
    assert cs == c;
    if "assigned_to" in req {
      cs := cs + [Equals("ASSIGNED_TO", req["assigned_to"])];
    }
    ghost var d := c + When("assigned_to" in req, Equals("ASSIGNED_TO", Get(req, "assigned_to")));
    assert cs == d;
    if "location_oid" in req {
      cs := cs + [Equals("LOCATION_OID", req["location_oid"])];
    }
    ghost var e := d + When("location_oid" in req, Equals("LOCATION_OID", Get(req, "location_oid")));
    assert cs == e;
    if "brand_oid" in req {
      cs := cs + [Equals("BRAND_OID", req["brand_oid"])];
    }
  }

  /** `index`: the matching generators, newest `OID` first, one page of them. */
  method Index(generators: Table, req: Request) returns (reply: Reply<Page>)
    ensures reply == Reply(OK, true, Some(List(generators.rows, Criteria(req), "OID", Desc, req)))
    ensures reply.data.value.total == |Filter(generators.rows, Criteria(req))|
    ensures PerPageOf(req) > 0 ==> |reply.data.value.items| <= PerPageOf(req)
    ensures forall x :: x in reply.data.value.items ==> x in generators.rows && MatchesAll(x, Criteria(req))
    ensures Sorted(reply.data.value.items, "OID", Desc)
  {
    var cs := BuildCriteria(req);
    reply := Reply(OK, true, Some(List(generators.rows, cs, "OID", Desc, req)));
  }

  const StoreRules: seq<Rule> := [
    Rule("NAME", Required, false, Str(0, Some(255))),
    Rule("ASSIGNED_TO", Required, false, Integer),
    Rule("FUEL_TYPE_OID", Required, false, Integer),
    Rule("VEHICLE_OID", Optional, true, Integer),
    Rule("LOCATION_OID", Optional, true, Integer),
    Rule("BRAND_OID", Optional, true, Integer),
    Rule("MODEL_OID", Optional, true, Integer),
    Rule("POWER_KW", Optional, true, Numeric(Some(0.0))),
    Rule("FUEL_CAPACITY_LITERS", Optional, true, Numeric(Some(0.0))),
    Rule("OPERATING_HOURS", Optional, true, Numeric(Some(0.0))),
    Rule("CONSUMPTION_LITERS_PER_HOUR", Optional, true, Numeric(Some(0.0))),
    Rule("DESCRIPTION", Optional, true, Str(0, Some(4000))),
    Rule("SERIAL_NUMBER", Optional, true, Str(0, Some(100))),
    Rule("MANUFACTURE_DATE", Optional, true, Date),
    Rule("LAST_MAINTENANCE_DATE", Optional, true, Date),
    Rule("NEXT_MAINTENANCE_DATE", Optional, true, Date)]

  /** `update`'s rules: `store`'s, with the three required fields made `sometimes`. */
  const UpdateRules: seq<Rule> := [
    Rule("NAME", Sometimes, false, Str(0, Some(255))),
    Rule("ASSIGNED_TO", Sometimes, false, Integer),
    Rule("FUEL_TYPE_OID", Sometimes, false, Integer),
    Rule("VEHICLE_OID", Optional, true, Integer),
    Rule("LOCATION_OID", Optional, true, Integer),
    Rule("BRAND_OID", Optional, true, Integer),
    Rule("MODEL_OID", Optional, true, Integer),
    Rule("POWER_KW", Optional, true, Numeric(Some(0.0))),
    Rule("FUEL_CAPACITY_LITERS", Optional, true, Numeric(Some(0.0))),
    Rule("OPERATING_HOURS", Optional, true, Numeric(Some(0.0))),
    Rule("CONSUMPTION_LITERS_PER_HOUR", Optional, true, Numeric(Some(0.0))),
    Rule("DESCRIPTION", Optional, true, Str(0, Some(4000))),
    Rule("SERIAL_NUMBER", Optional, true, Str(0, Some(100))),
    Rule("MANUFACTURE_DATE", Optional, true, Date),
    Rule("LAST_MAINTENANCE_DATE", Optional, true, Date),
    Rule("NEXT_MAINTENANCE_DATE", Optional, true, Date)]

  /** A stored generator has a non-blank name of at most 255 characters and
    * integer `ASSIGNED_TO` and `FUEL_TYPE_OID`; the four quantities are
    * non-negative numbers whenever supplied. */
  lemma StoreNeeds(req: Request)
    requires Validate(StoreRules, req).Some?
    ensures "NAME" in req && req["NAME"].VStr? && |req["NAME"].s| <= 255 && !IsEmpty(req["NAME"])
    ensures "ASSIGNED_TO" in req && req["ASSIGNED_TO"].VInt?
    ensures "FUEL_TYPE_OID" in req && req["FUEL_TYPE_OID"].VInt?
    ensures NonNegativeWhenSupplied(req, "POWER_KW")
    ensures NonNegativeWhenSupplied(req, "FUEL_CAPACITY_LITERS")
    ensures NonNegativeWhenSupplied(req, "OPERATING_HOURS")
    ensures NonNegativeWhenSupplied(req, "CONSUMPTION_LITERS_PER_HOUR")
  {
    var name := Rule("NAME", Required, false, Str(0, Some(255)));
    var assignedTo := Rule("ASSIGNED_TO", Required, false, Integer);
    var fuelType := Rule("FUEL_TYPE_OID", Required, false, Integer);
    RequiredPresent(StoreRules, req, name);
    KindHolds(StoreRules, req, name);
    RequiredPresent(StoreRules, req, assignedTo);
    KindHolds(StoreRules, req, assignedTo);
    RequiredPresent(StoreRules, req, fuelType);
    KindHolds(StoreRules, req, fuelType);
    if Supplied(req, "POWER_KW") {
      KindHolds(StoreRules, req, Rule("POWER_KW", Optional, true, Numeric(Some(0.0))));
    }
    if Supplied(req, "FUEL_CAPACITY_LITERS") {
      KindHolds(StoreRules, req, Rule("FUEL_CAPACITY_LITERS", Optional, true, Numeric(Some(0.0))));
    }
    if Supplied(req, "OPERATING_HOURS") {
      KindHolds(StoreRules, req, Rule("OPERATING_HOURS", Optional, true, Numeric(Some(0.0))));
    }
    if Supplied(req, "CONSUMPTION_LITERS_PER_HOUR") {
      KindHolds(StoreRules, req, Rule("CONSUMPTION_LITERS_PER_HOUR", Optional, true, Numeric(Some(0.0))));
    }
  }

  /** The thirteen validated columns the model does not list as fillable. */
  const Unfillable: set<string> := {
    "VEHICLE_OID", "LOCATION_OID", "BRAND_OID", "MODEL_OID", "POWER_KW", "FUEL_CAPACITY_LITERS",
    "OPERATING_HOURS", "CONSUMPTION_LITERS_PER_HOUR", "DESCRIPTION", "SERIAL_NUMBER",
    "MANUFACTURE_DATE", "LAST_MAINTENANCE_DATE", "NEXT_MAINTENANCE_DATE"}

  /** None of the thirteen is fillable. */
  lemma UnfillableDisjoint()
    ensures Unfillable * Fillable == {}
  {
  }

  /** Of everything `store` validates, only `NAME`, `ASSIGNED_TO` and
    * `FUEL_TYPE_OID` are fillable: the other thirteen never reach the table. */
  lemma StoreKeepsOnlyThree()
    ensures Fields(StoreRules) * Fillable <= {"NAME", "ASSIGNED_TO", "FUEL_TYPE_OID"}
  {
    UnfillableDisjoint();
    assert forall r :: r in StoreRules ==> r.field in Unfillable + {"NAME", "ASSIGNED_TO", "FUEL_TYPE_OID"};
  }

  /** The same holds for `update`. */
  lemma UpdateKeepsOnlyThree()
    ensures Fields(UpdateRules) * Fillable <= {"NAME", "ASSIGNED_TO", "FUEL_TYPE_OID"}
  {
    UnfillableDisjoint();
    assert forall r :: r in UpdateRules ==> r.field in Unfillable + {"NAME", "ASSIGNED_TO", "FUEL_TYPE_OID"};
  }

  /** `store`: 201 with the created row, or 500 when validation fails. */
  method Store(generators: Table, req: Request) returns (reply: Reply<Row>)
    requires IsGeneratorTable(generators)
    modifies generators
    ensures IsGeneratorTable(generators)
    ensures Validate(StoreRules, req).None? ==>
      reply == Reply(SERVER_ERROR, false, None) && generators.rows == old(generators.rows)
    ensures Validate(StoreRules, req).Some? ==>
      var row := Created(Validate(StoreRules, req).value, Fillable, "OID", old(generators.nextOid));
      reply == Reply(CREATED, true, Some(row)) && generators.rows == old(generators.rows) + [row]
  {
    assert Validate(StoreRules, req).Some? ==> Validate(StoreRules, req).value + map[] == Validate(StoreRules, req).value;
    reply := Tables.Store(generators, StoreRules, req, map[]);
  }

  /** `show`: 200 with the generator, or 404. */
  method Show(generators: Table, id: int) returns (reply: Reply<Row>)
    ensures generators.Find(id).Some? ==> reply == Reply(OK, true, Some(generators.rows[generators.Find(id).value]))
    ensures generators.Find(id).None? ==> reply == Reply(NOT_FOUND, false, None)
  {
    reply := Tables.Show(generators, id);
  }

  /** `update`: 500 for a missing generator or a failed validation; otherwise
    * the validated fillable columns are overwritten. */
  method Update(generators: Table, id: int, req: Request) returns (reply: Reply<Row>)
    requires IsGeneratorTable(generators)
    modifies generators
    ensures IsGeneratorTable(generators)
    ensures old(generators.Find(id)).None? || Validate(UpdateRules, req).None? ==>
      reply == Reply(SERVER_ERROR, false, None) && generators.rows == old(generators.rows)
    ensures old(generators.Find(id)).Some? && Validate(UpdateRules, req).Some? ==>
      var i := old(generators.Find(id)).value;
      var row := Updated(old(generators.rows)[i], Validate(UpdateRules, req).value, Fillable);
      reply == Reply(OK, true, Some(row)) && generators.rows == old(generators.rows)[i := row]
  {
    reply := Tables.Update(generators, id, UpdateRules, req);
  }

  /** `destroy`: 500 for a missing generator; otherwise its row is removed. */
  method Destroy(generators: Table, id: int) returns (reply: Reply<Row>)
    requires IsGeneratorTable(generators)
    modifies generators
    ensures IsGeneratorTable(generators)
    ensures old(generators.Find(id)).None? ==>
      reply == Reply(SERVER_ERROR, false, None) && generators.rows == old(generators.rows)
    ensures old(generators.Find(id)).Some? ==>
      var i := old(generators.Find(id)).value;
      reply == Reply(OK, true, None) && generators.rows == old(generators.rows)[..i] + old(generators.rows)[i + 1..]
    ensures generators.Find(id).None?
  {
    reply := Tables.Destroy(generators, id);
  }

  /** `getByFuelType`: the generators of that fuel type, ordered by `NAME`. */
  function ByFuelType(generators: seq<Row>, fuelType: Value): (r: seq<Row>)
    ensures forall x :: x in r <==> x in generators && SqlEquals(Get(x, "FUEL_TYPE_OID"), fuelType)
    ensures multiset(r) <= multiset(generators)
    ensures Sorted(r, "NAME", Asc)
  {
    var cs := [Equals("FUEL_TYPE_OID", fuelType)];
    assert forall x :: MatchesAll(x, cs) <==> SqlEquals(Get(x, "FUEL_TYPE_OID"), fuelType) by {
      forall x ensures MatchesAll(x, cs) <==> SqlEquals(Get(x, "FUEL_TYPE_OID"), fuelType) {
        assert cs[0] == Equals("FUEL_TYPE_OID", fuelType);
      }
    }
    FilterCompleteAll(generators, cs);
    var r := SortBy(Filter(generators, cs), "NAME", Asc);
    assert forall x :: x in r <==> x in multiset(r);
    r
  }

  /** The figures `stats` reports (the average is not modelled). */
  datatype Stats = Stats(totalGenerators: nat, totalPowerKw: real, totalOperatingHours: real,
                         generatorsWithVehicles: nat, generatorsByFuelType: map<Value, nat>)

  /** `stats`: counts and sums over all generators, the number that have a
    * vehicle, and the number per fuel type. */
  function StatsOf(generators: seq<Row>): (s: Stats)
    ensures s.totalGenerators == |generators|
    ensures s.totalPowerKw == SumOf(generators, "POWER_KW")
    ensures s.totalOperatingHours == SumOf(generators, "OPERATING_HOURS")
    ensures s.generatorsWithVehicles <= s.totalGenerators
    ensures forall x :: x in Filter(generators, [NotNull("VEHICLE_OID")]) <==> x in generators && Get(x, "VEHICLE_OID") != VNull
    ensures s.generatorsWithVehicles == |Filter(generators, [NotNull("VEHICLE_OID")])|
    ensures forall v :: v in s.generatorsByFuelType <==> exists i :: 0 <= i < |generators| && Get(generators[i], "FUEL_TYPE_OID") == v
    ensures forall v :: v in s.generatorsByFuelType ==>
      1 <= s.generatorsByFuelType[v] <= s.totalGenerators && s.generatorsByFuelType[v] == CountOf(generators, "FUEL_TYPE_OID", v)
  {
    var cs := [NotNull("VEHICLE_OID")];
    assert forall x :: MatchesAll(x, cs) <==> Get(x, "VEHICLE_OID") != VNull by {
      forall x ensures MatchesAll(x, cs) <==> Get(x, "VEHICLE_OID") != VNull {
        assert cs[0] == NotNull("VEHICLE_OID");
      }
    }
    FilterCompleteAll(generators, cs);
    Stats(|generators|, SumOf(generators, "POWER_KW"), SumOf(generators, "OPERATING_HOURS"),
          |Filter(generators, cs)|, GroupCounts(generators, "FUEL_TYPE_OID"))
  }

  /** What `fuelLogs` answers with: the generator and its logs. */
  datatype GeneratorLogs = GeneratorLogs(generator: Row, fuelLogs: seq<Row>)

  /** `fuelLogs($id)`: 500 when the generator is missing; otherwise the logs
    * whose `GENERATOR_OID` is the id, newest `FILL_UP_DATE` first. */
  method FuelLogs(generators: Table, logs: Table, id: int) returns (reply: Reply<GeneratorLogs>)
    ensures generators.Find(id).None? ==> reply == Reply(SERVER_ERROR, false, None)
    ensures generators.Find(id).Some? ==>
      reply.status == OK && reply.success && reply.data.Some? &&
      reply.data.value.generator == generators.rows[generators.Find(id).value] &&
      (forall x :: x in reply.data.value.fuelLogs <==> x in logs.rows && SqlEquals(Get(x, "GENERATOR_OID"), VInt(id))) &&
      multiset(reply.data.value.fuelLogs) <= multiset(logs.rows) &&
      Sorted(reply.data.value.fuelLogs, "FILL_UP_DATE", Desc)
  {
    var i := generators.Find(id);
    if i.None? {
      reply := Reply(SERVER_ERROR, false, None);
    } else {
      var own := HasMany(logs.rows, "GENERATOR_OID", VInt(id));
      var sorted := SortBy(own, "FILL_UP_DATE", Desc);
      assert forall x :: x in sorted <==> x in multiset(sorted);
      assert multiset(own) <= multiset(logs.rows) by {
        assert own == Filter(logs.rows, [Equals("GENERATOR_OID", VInt(id))]);
      }
      reply := Reply(OK, true, Some(GeneratorLogs(generators.rows[i.value], sorted)));
    }
  }

  /** `report`: not implemented; always 501 with `success` false. */
  function Report(req: Request): (reply: Reply<Row>)
    ensures reply.status == NOT_IMPLEMENTED && !reply.success && reply.data.None?
  {
    Reply(NOT_IMPLEMENTED, false, None)
  }
}
