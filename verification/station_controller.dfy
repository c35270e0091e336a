/** The stations resource: listing with search and a parent filter, ordered
  * by weight, the four write/read endpoints and the select-list options. */
module StationController {
  import opened Values
  import opened Ordering
  import opened Query
  import opened Validation
  import opened Tables
  import opened ConstantsHelper

  /** The Station model's `$fillable` columns. */
  const Fillable: set<string> := {"STATION_NAME", "STATION_ENAME", "STATION_WEIGHT", "PARENT_OID"}

  ghost predicate IsStationTable(t: Table)
    reads t
  {
    t.Valid() && t.key == "OID" && t.fillable == Fillable
  }

  /** The conjunction `index` builds: the search over both names, then the
    * parent filter, each only when present. */
  function Criteria(req: Request): seq<Criterion>
  {
    When("search" in req, Search(["STATION_NAME", "STATION_ENAME"], TermOf(Get(req, "search")))) +
    When("parent_oid" in req, Equals("PARENT_OID", Get(req, "parent_oid")))
  }

  /** A station is listed exactly when one of its names contains the search
    * term and its parent is the requested one. */
  lemma CriteriaMeaning(req: Request, row: Row)
    ensures MatchesAll(row, Criteria(req)) <==>
      ("search" in req ==>
        Like(Get(row, "STATION_NAME"), TermOf(req["search"])) || Like(Get(row, "STATION_ENAME"), TermOf(req["search"]))) &&
      ("parent_oid" in req ==> SqlEquals(Get(row, "PARENT_OID"), req["parent_oid"]))
  {
    var cols := ["STATION_NAME", "STATION_ENAME"];
    MatchesAllConcat(row, When("search" in req, Search(cols, TermOf(Get(req, "search")))),
                          When("parent_oid" in req, Equals("PARENT_OID", Get(req, "parent_oid"))));
    MatchesWhen(row, "search" in req, Search(cols, TermOf(Get(req, "search"))));
    SearchAny(row, cols, TermOf(Get(req, "search")));
    MatchesWhen(row, "parent_oid" in req, Equals("PARENT_OID", Get(req, "parent_oid")));
  }

  /** The successive `where` calls of `index`. */
  method BuildCriteria(req: Request) returns (cs: seq<Criterion>)
    ensures cs == Criteria(req)
  {
    cs := AddWhen([], "search" in req, Search(["STATION_NAME", "STATION_ENAME"], TermOf(Get(req, "search"))));
    assert cs == When("search" in req, Search(["STATION_NAME", "STATION_ENAME"], TermOf(Get(req, "search"))));
    cs := AddWhen(cs, "parent_oid" in req, Equals("PARENT_OID", Get(req, "parent_oid")));
  }

  /** A station row: none of the five id columns that receive labels. */
  predicate IsStationRow(row: Row)
  {
    row.Keys !! Sources
  }

  /** `transformModelData` on a station changes nothing, since no label
    * source column is present. */
  lemma StationsUnlabelled(row: Row, constants: seq<Row>)
    requires IsStationRow(row)
    ensures Enriched(row, constants) == row
  {
    var e := Enriched(row, constants);
    forall k | k in e ensures k in row {
      LabelTable(k);
    }
    forall k | k in row ensures e[k] == row[k] {
      LabelTable(k);
    }
  }

  /** Every row a station table can hold is a station row. */
  lemma StoredStationIsStationRow(validated: Row, oid: int)
    ensures IsStationRow(Created(validated, Fillable, "OID", oid))
  {
  }

  /** The page items after the per-row transform. */
  function Transformed(items: seq<Row>, constants: seq<Row>): (r: seq<Row>)
    ensures |r| == |items|
    ensures forall k :: 0 <= k < |items| ==> r[k] == Enriched(items[k], constants)
  {
    seq(|items|, k requires 0 <= k < |items| => Enriched(items[k], constants))
  }

  /** On station rows the per-row transform is the identity. */
  lemma TransformedUnchanged(items: seq<Row>, constants: seq<Row>)
    requires forall x :: x in items ==> IsStationRow(x)
    ensures Transformed(items, constants) == items
  {
    forall k | 0 <= k < |items| ensures Transformed(items, constants)[k] == items[k] {
      StationsUnlabelled(items[k], constants);
    }
  }

  /** `index`: the matching stations by ascending weight, one page of them,
    * each passed through the label transform, which leaves station rows as
    * they are. */
  method Index(stations: Table, constants: seq<Row>, req: Request) returns (reply: Reply<Page>)
    ensures var p := List(stations.rows, Criteria(req), "STATION_WEIGHT", Asc, req);
      reply == Reply(OK, true, Some(p.(items := Transformed(p.items, constants))))
    ensures reply.data.value.total == |Filter(stations.rows, Criteria(req))|
    ensures (forall x :: x in stations.rows ==> IsStationRow(x)) ==>
      reply.data.value == List(stations.rows, Criteria(req), "STATION_WEIGHT", Asc, req)
  {
    var cs := BuildCriteria(req);
    var p := List(stations.rows, cs, "STATION_WEIGHT", Asc, req);
    if forall x :: x in stations.rows ==> IsStationRow(x) {
      TransformedUnchanged(p.items, constants);
    }
    reply := Reply(OK, true, Some(p.(items := Transformed(p.items, constants))));
  }

  const StoreRules: seq<Rule> := [
    Rule("STATION_NAME", Required, false, Str(0, Some(4000))),
    Rule("STATION_ENAME", Optional, true, Str(0, Some(4000))),
    Rule("STATION_WEIGHT", Optional, true, Integer),
    Rule("PARENT_OID", Optional, true, Integer)]

  const UpdateRules: seq<Rule> := [
    Rule("STATION_NAME", Sometimes, false, Str(0, Some(4000))),
    Rule("STATION_ENAME", Optional, true, Str(0, Some(4000))),
    Rule("STATION_WEIGHT", Optional, true, Integer),
    Rule("PARENT_OID", Optional, true, Integer)]

  /** A stored station has a name of at most 4000 characters; a supplied
    * weight or parent is an integer. */
  lemma StoreNeeds(req: Request)
    requires Validate(StoreRules, req).Some?
    ensures Supplied(req, "STATION_NAME") && req["STATION_NAME"].VStr? && |req["STATION_NAME"].s| <= 4000
    ensures Supplied(req, "STATION_WEIGHT") ==> req["STATION_WEIGHT"].VInt?
    ensures Supplied(req, "PARENT_OID") ==> req["PARENT_OID"].VInt?
  {
    var name := Rule("STATION_NAME", Required, false, Str(0, Some(4000)));
    RequiredPresent(StoreRules, req, name);
    KindHolds(StoreRules, req, name);
    if Supplied(req, "STATION_WEIGHT") {
      KindHolds(StoreRules, req, Rule("STATION_WEIGHT", Optional, true, Integer));
    }
    if Supplied(req, "PARENT_OID") {
      KindHolds(StoreRules, req, Rule("PARENT_OID", Optional, true, Integer));
    }
  }

  /** `store`: 201 with the created row, or 500 when validation fails. */
  method Store(stations: Table, req: Request) returns (reply: Reply<Row>)
    requires IsStationTable(stations)
    modifies stations
    ensures IsStationTable(stations)
    ensures Validate(StoreRules, req).None? ==>
      reply == Reply(SERVER_ERROR, false, None) && stations.rows == old(stations.rows)
    ensures Validate(StoreRules, req).Some? ==>
      var row := Created(Validate(StoreRules, req).value, Fillable, "OID", old(stations.nextOid));
      reply == Reply(CREATED, true, Some(row)) && stations.rows == old(stations.rows) + [row]
  {
    assert Validate(StoreRules, req).Some? ==> Validate(StoreRules, req).value + map[] == Validate(StoreRules, req).value;
    reply := Tables.Store(stations, StoreRules, req, map[]);
  }

  /** `show`: 200 with the station passed through the label transform, or 404. */
  method Show(stations: Table, constants: seq<Row>, id: int) returns (reply: Reply<Row>)
    ensures stations.Find(id).Some? ==>
      reply == Reply(OK, true, Some(Enriched(stations.rows[stations.Find(id).value], constants)))
    ensures stations.Find(id).Some? && IsStationRow(stations.rows[stations.Find(id).value]) ==>
      reply.data.value == stations.rows[stations.Find(id).value]
    ensures stations.Find(id).None? ==> reply == Reply(NOT_FOUND, false, None)
  {
    var i := stations.Find(id);
    if i.Some? {
      var row := stations.rows[i.value];
      if IsStationRow(row) {
        StationsUnlabelled(row, constants);
      }
      reply := Reply(OK, true, Some(Enriched(row, constants)));
    } else {
      reply := Reply(NOT_FOUND, false, None);
    }
  }

  /** `update`: 500 for a missing station or a failed validation; otherwise
    * the supplied, validated columns are overwritten. */
  method Update(stations: Table, id: int, req: Request) returns (reply: Reply<Row>)
    requires IsStationTable(stations)
    modifies stations
    ensures IsStationTable(stations)
    ensures old(stations.Find(id)).None? || Validate(UpdateRules, req).None? ==>
      reply == Reply(SERVER_ERROR, false, None) && stations.rows == old(stations.rows)
    ensures old(stations.Find(id)).Some? && Validate(UpdateRules, req).Some? ==>
      var i := old(stations.Find(id)).value;
      var row := Updated(old(stations.rows)[i], Validate(UpdateRules, req).value, Fillable);
      reply == Reply(OK, true, Some(row)) && stations.rows == old(stations.rows)[i := row]
  {
    reply := Tables.Update(stations, id, UpdateRules, req);
  }

  /** `destroy`: 500 for a missing station; otherwise its row is removed. */
  method Destroy(stations: Table, id: int) returns (reply: Reply<Row>)
    requires IsStationTable(stations)
    modifies stations
    ensures IsStationTable(stations)
    ensures old(stations.Find(id)).None? ==> reply == Reply(SERVER_ERROR, false, None) && stations.rows == old(stations.rows)
    ensures old(stations.Find(id)).Some? ==>
      var i := old(stations.Find(id)).value;
      reply == Reply(OK, true, None) && stations.rows == old(stations.rows)[..i] + old(stations.rows)[i + 1..]
    ensures stations.Find(id).None?
  {
    reply := Tables.Destroy(stations, id);
  }

  /** `getStationOptions`: one `{value: OID, label: STATION_NAME}` per
    * station, by ascending name; every station appears. */
  function StationOptions(stations: seq<Row>): (r: seq<Choice>)
    ensures |r| == |stations|
    ensures forall i, j :: 0 <= i < j < |r| ==> ValueLe(r[i].name, r[j].name)
    ensures forall x :: x in stations ==> Choice(Get(x, "OID"), Get(x, "STATION_NAME")) in r
    ensures forall c :: c in r ==> exists x :: x in stations && c == Choice(Get(x, "OID"), Get(x, "STATION_NAME"))
  {
    var sorted := SortBy(stations, "STATION_NAME", Asc);
    var r := Options(sorted, "OID", "STATION_NAME");
    forall x | x in stations ensures Choice(Get(x, "OID"), Get(x, "STATION_NAME")) in r {
      assert x in multiset(sorted);
      var k :| 0 <= k < |sorted| && sorted[k] == x;
      assert r[k] == Choice(Get(x, "OID"), Get(x, "STATION_NAME"));
    }
    forall c | c in r ensures exists x :: x in stations && c == Choice(Get(x, "OID"), Get(x, "STATION_NAME")) {
      var k :| 0 <= k < |r| && r[k] == c;
      assert sorted[k] in multiset(stations);
    }
    forall i, j | 0 <= i < j < |r| ensures ValueLe(r[i].name, r[j].name) {
      assert InOrder(sorted[i], sorted[j], "STATION_NAME", Asc);
    }
    r
  }
}
