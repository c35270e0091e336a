/** The gas-bill (invoice) resource: a filtered, dated listing, writes in
  * which the entering user is fixed once stored, and a dated summary. */
module GasBillController {
  import opened Values
  import opened Query
  import opened Validation
  import opened Tables

  /** The VehGasBill model's `$fillable` columns. */
  const Fillable: set<string> := {
    "DONOR_NAME_OID", "GAS_STATION_OID", "PRICE", "QUANTITY", "BILL_TYPE_OID", "EN_DATE",
    "STATUS_OID", "ENTERY_USER_OID", "BILL_NUM", "FUEL_TYPE_OID", "NOTES", "BILL_DATE"}

  ghost predicate IsGasBillTable(t: Table)
    reads t
  {
    t.Valid() && t.key == "OID" && t.fillable == Fillable
  }

  /** The conjunction `index` builds: one equality per filter that is present,
    * the inclusive `BILL_DATE` bounds, then the bill number. */
  function Criteria(req: Request): seq<Criterion>
  {
    When("gas_station_oid" in req, Equals("GAS_STATION_OID", Get(req, "gas_station_oid"))) +
    When("entery_user_oid" in req, Equals("ENTERY_USER_OID", Get(req, "entery_user_oid"))) +
    When("fuel_type_oid" in req, Equals("FUEL_TYPE_OID", Get(req, "fuel_type_oid"))) +
    When("bill_type_oid" in req, Equals("BILL_TYPE_OID", Get(req, "bill_type_oid"))) +
    When("status_oid" in req, Equals("STATUS_OID", Get(req, "status_oid"))) +
    DateBounds(req) +
    When("bill_num" in req, Equals("BILL_NUM", Get(req, "bill_num")))
  }

  /** The inclusive `BILL_DATE` bounds, shared by `index` and `summary`. */
  function DateBounds(req: Request): seq<Criterion>
  {
    When("date_from" in req, AtLeast("BILL_DATE", Get(req, "date_from"))) +
    When("date_to" in req, AtMost("BILL_DATE", Get(req, "date_to")))
  }

  lemma DateBoundsMeaning(req: Request, row: Row)
    ensures MatchesAll(row, DateBounds(req)) <==>
      ("date_from" in req ==> SqlLe(req["date_from"], Get(row, "BILL_DATE"))) &&
      ("date_to" in req ==> SqlLe(Get(row, "BILL_DATE"), req["date_to"]))
  {
    MatchesAllConcat(row, When("date_from" in req, AtLeast("BILL_DATE", Get(req, "date_from"))),
                          When("date_to" in req, AtMost("BILL_DATE", Get(req, "date_to"))));
    MatchesWhen(row, "date_from" in req, AtLeast("BILL_DATE", Get(req, "date_from")));
    MatchesWhen(row, "date_to" in req, AtMost("BILL_DATE", Get(req, "date_to")));
  }

  /** A bill is listed exactly when it passes each filter that is present and
    * its bill date lies within the bounds given. */
  lemma CriteriaMeaning(req: Request, row: Row)
    ensures MatchesAll(row, Criteria(req)) <==>
      ("gas_station_oid" in req ==> SqlEquals(Get(row, "GAS_STATION_OID"), req["gas_station_oid"])) &&
      ("entery_user_oid" in req ==> SqlEquals(Get(row, "ENTERY_USER_OID"), req["entery_user_oid"])) &&
      ("fuel_type_oid" in req ==> SqlEquals(Get(row, "FUEL_TYPE_OID"), req["fuel_type_oid"])) &&
      ("bill_type_oid" in req ==> SqlEquals(Get(row, "BILL_TYPE_OID"), req["bill_type_oid"])) &&
      ("status_oid" in req ==> SqlEquals(Get(row, "STATUS_OID"), req["status_oid"])) &&
      ("date_from" in req ==> SqlLe(req["date_from"], Get(row, "BILL_DATE"))) &&
      ("date_to" in req ==> SqlLe(Get(row, "BILL_DATE"), req["date_to"])) &&
      ("bill_num" in req ==> SqlEquals(Get(row, "BILL_NUM"), req["bill_num"]))
  {
    var a := When("gas_station_oid" in req, Equals("GAS_STATION_OID", Get(req, "gas_station_oid")));
    var b := When("entery_user_oid" in req, Equals("ENTERY_USER_OID", Get(req, "entery_user_oid")));
    var c := When("fuel_type_oid" in req, Equals("FUEL_TYPE_OID", Get(req, "fuel_type_oid")));
    var d := When("bill_type_oid" in req, Equals("BILL_TYPE_OID", Get(req, "bill_type_oid")));
    var e := When("status_oid" in req, Equals("STATUS_OID", Get(req, "status_oid")));
    var f := DateBounds(req);
    var g := When("bill_num" in req, Equals("BILL_NUM", Get(req, "bill_num")));
    MatchesAllConcat(row, a + b + c + d + e + f, g);
    MatchesAllConcat(row, a + b + c + d + e, f);
    MatchesAllConcat(row, a + b + c + d, e);
    MatchesAllConcat(row, a + b + c, d);
    MatchesAllConcat(row, a + b, c);
    MatchesAllConcat(row, a, b);
    MatchesWhen(row, "gas_station_oid" in req, Equals("GAS_STATION_OID", Get(req, "gas_station_oid")));
    MatchesWhen(row, "entery_user_oid" in req, Equals("ENTERY_USER_OID", Get(req, "entery_user_oid")));
    MatchesWhen(row, "fuel_type_oid" in req, Equals("FUEL_TYPE_OID", Get(req, "fuel_type_oid")));
    MatchesWhen(row, "bill_type_oid" in req, Equals("BILL_TYPE_OID", Get(req, "bill_type_oid")));
    MatchesWhen(row, "status_oid" in req, Equals("STATUS_OID", Get(req, "status_oid")));
    DateBoundsMeaning(req, row);
    MatchesWhen(row, "bill_num" in req, Equals("BILL_NUM", Get(req, "bill_num")));
  }

  /** The successive `where` calls of `index`. */
  method BuildCriteria(req: Request) returns (cs: seq<Criterion>)
    ensures cs == Criteria(req)
  {
    cs := AddWhen([], "gas_station_oid" in req, Equals("GAS_STATION_OID", Get(req, "gas_station_oid")));
    assert cs == When("gas_station_oid" in req, Equals("GAS_STATION_OID", Get(req, "gas_station_oid")));
    cs := AddWhen(cs, "entery_user_oid" in req, Equals("ENTERY_USER_OID", Get(req, "entery_user_oid")));
    cs := AddWhen(cs, "fuel_type_oid" in req, Equals("FUEL_TYPE_OID", Get(req, "fuel_type_oid")));
    cs := AddWhen(cs, "bill_type_oid" in req, Equals("BILL_TYPE_OID", Get(req, "bill_type_oid")));
    cs := AddWhen(cs, "status_oid" in req, Equals("STATUS_OID", Get(req, "status_oid")));
    ghost var filters := cs;
    cs := AddWhen(cs, "date_from" in req, AtLeast("BILL_DATE", Get(req, "date_from")));
    cs := AddWhen(cs, "date_to" in req, AtMost("BILL_DATE", Get(req, "date_to")));
    assert cs == filters + DateBounds(req);
    cs := AddWhen(cs, "bill_num" in req, Equals("BILL_NUM", Get(req, "bill_num")));
  }

  /** `index`: the matching bills, latest bill date first, one page of them. */
  method Index(bills: Table, req: Request) returns (reply: Reply<Page>)
    ensures reply == Reply(OK, true, Some(List(bills.rows, Criteria(req), "BILL_DATE", Desc, req)))
    ensures reply.data.value.total == |Filter(bills.rows, Criteria(req))|
    ensures PerPageOf(req) > 0 ==> |reply.data.value.items| <= PerPageOf(req)
    ensures forall x :: x in reply.data.value.items ==> x in bills.rows && MatchesAll(x, Criteria(req))
    ensures Sorted(reply.data.value.items, "BILL_DATE", Desc)
  {
    var cs := BuildCriteria(req);
    reply := Reply(OK, true, Some(List(bills.rows, cs, "BILL_DATE", Desc, req)));
  }

  /** `store`'s rules. */
  const StoreRules: seq<Rule> := [
    Rule("DONOR_NAME_OID", Optional, true, Integer),
    Rule("GAS_STATION_OID", Required, false, Integer),
    Rule("PRICE", Optional, true, Numeric(Some(0.0))),
    Rule("QUANTITY", Required, false, Numeric(Some(0.0))),
    Rule("BILL_TYPE_OID", Required, false, Integer),
    Rule("EN_DATE", Optional, true, Date),
    Rule("STATUS_OID", Optional, true, Integer),
    Rule("ENTERY_USER_OID", Required, false, Integer),
    Rule("BILL_NUM", Optional, true, Integer),
    Rule("FUEL_TYPE_OID", Required, false, Integer),
    Rule("NOTES", Optional, true, Str(0, Some(4000))),
    Rule("BILL_DATE", Optional, true, Date)]

  /** `update`'s rules: `store`'s with the required fields made `sometimes`
    * and without `ENTERY_USER_OID`. */
  const UpdateRules: seq<Rule> := [
    Rule("DONOR_NAME_OID", Optional, true, Integer),
    Rule("GAS_STATION_OID", Sometimes, false, Integer),
    Rule("PRICE", Optional, true, Numeric(Some(0.0))),
    Rule("QUANTITY", Sometimes, false, Numeric(Some(0.0))),
    Rule("BILL_TYPE_OID", Sometimes, false, Integer),
    Rule("EN_DATE", Optional, true, Date),
    Rule("STATUS_OID", Optional, true, Integer),
    Rule("BILL_NUM", Optional, true, Integer),
    Rule("FUEL_TYPE_OID", Sometimes, false, Integer),
    Rule("NOTES", Optional, true, Str(0, Some(4000))),
    Rule("BILL_DATE", Optional, true, Date)]

  /** A stored bill has an integer station, bill type, entering user and fuel
    * type and a non-negative quantity; a price, when supplied, is a
    * non-negative number. */
  lemma StoreNeeds(req: Request)
    requires Validate(StoreRules, req).Some?
    ensures "GAS_STATION_OID" in req && req["GAS_STATION_OID"].VInt?
    ensures "QUANTITY" in req && IsNumber(req["QUANTITY"]) && NumOf(req["QUANTITY"]) >= 0.0
    ensures "BILL_TYPE_OID" in req && req["BILL_TYPE_OID"].VInt?
    ensures "ENTERY_USER_OID" in req && req["ENTERY_USER_OID"].VInt?
    ensures "FUEL_TYPE_OID" in req && req["FUEL_TYPE_OID"].VInt?
    ensures Supplied(req, "PRICE") ==> IsNumber(req["PRICE"]) && NumOf(req["PRICE"]) >= 0.0
  {
    var station := Rule("GAS_STATION_OID", Required, false, Integer);
    var quantity := Rule("QUANTITY", Required, false, Numeric(Some(0.0)));
    var billType := Rule("BILL_TYPE_OID", Required, false, Integer);
    var user := Rule("ENTERY_USER_OID", Required, false, Integer);
    var fuelType := Rule("FUEL_TYPE_OID", Required, false, Integer);
    RequiredPresent(StoreRules, req, station);
    KindHolds(StoreRules, req, station);
    RequiredPresent(StoreRules, req, quantity);
    KindHolds(StoreRules, req, quantity);
    RequiredPresent(StoreRules, req, billType);
    KindHolds(StoreRules, req, billType);
    RequiredPresent(StoreRules, req, user);
    KindHolds(StoreRules, req, user);
    RequiredPresent(StoreRules, req, fuelType);
    KindHolds(StoreRules, req, fuelType);
    if Supplied(req, "PRICE") {
      KindHolds(StoreRules, req, Rule("PRICE", Optional, true, Numeric(Some(0.0))));
    }
  }

  /** `store`: 201 with the created row, or 500 when validation fails. */
  method Store(bills: Table, req: Request) returns (reply: Reply<Row>)
    requires IsGasBillTable(bills)
    modifies bills
    ensures IsGasBillTable(bills)
    ensures Validate(StoreRules, req).None? ==>
      reply == Reply(SERVER_ERROR, false, None) && bills.rows == old(bills.rows)
    ensures Validate(StoreRules, req).Some? ==>
      var row := Created(Validate(StoreRules, req).value, Fillable, "OID", old(bills.nextOid));
      reply == Reply(CREATED, true, Some(row)) && bills.rows == old(bills.rows) + [row]
  {
    assert Validate(StoreRules, req).Some? ==> Validate(StoreRules, req).value + map[] == Validate(StoreRules, req).value;
    reply := Tables.Store(bills, StoreRules, req, map[]);
  }

  /** `show`: 200 with the bill, or 404. */
  method Show(bills: Table, id: int) returns (reply: Reply<Row>)
    ensures bills.Find(id).Some? ==> reply == Reply(OK, true, Some(bills.rows[bills.Find(id).value]))
    ensures bills.Find(id).None? ==> reply == Reply(NOT_FOUND, false, None)
  {
    reply := Tables.Show(bills, id);
  }

  /** Whatever the request, an update leaves the entering user as it was. */
  lemma UpdateKeepsEnteringUser(row: Row, req: Request)
    requires Validate(UpdateRules, req).Some?
    ensures Get(Updated(row, Validate(UpdateRules, req).value, Fillable), "ENTERY_USER_OID") == Get(row, "ENTERY_USER_OID")
  {
    assert forall i :: 0 <= i < |UpdateRules| ==> UpdateRules[i].field != "ENTERY_USER_OID";
    UnruledDropped(UpdateRules, req, "ENTERY_USER_OID");
  }

  /** `update`: 500 for a missing bill or a failed validation; otherwise the
    * supplied, validated columns are overwritten. */
  method Update(bills: Table, id: int, req: Request) returns (reply: Reply<Row>)
    requires IsGasBillTable(bills)
    modifies bills
    ensures IsGasBillTable(bills)
    ensures old(bills.Find(id)).None? || Validate(UpdateRules, req).None? ==>
      reply == Reply(SERVER_ERROR, false, None) && bills.rows == old(bills.rows)
    ensures old(bills.Find(id)).Some? && Validate(UpdateRules, req).Some? ==>
      var i := old(bills.Find(id)).value;
      var row := Updated(old(bills.rows)[i], Validate(UpdateRules, req).value, Fillable);
      reply == Reply(OK, true, Some(row)) && bills.rows == old(bills.rows)[i := row]
  {
    reply := Tables.Update(bills, id, UpdateRules, req);
  }

  /** `destroy`: 500 for a missing bill; otherwise its row is removed. */
  method Destroy(bills: Table, id: int) returns (reply: Reply<Row>)
    requires IsGasBillTable(bills)
    modifies bills
    ensures IsGasBillTable(bills)
    ensures old(bills.Find(id)).None? ==> reply == Reply(SERVER_ERROR, false, None) && bills.rows == old(bills.rows)
    ensures old(bills.Find(id)).Some? ==>
      var i := old(bills.Find(id)).value;
      reply == Reply(OK, true, None) && bills.rows == old(bills.rows)[..i] + old(bills.rows)[i + 1..]
    ensures bills.Find(id).None?
  {
    reply := Tables.Destroy(bills, id);
  }

  /** What `summary` reports (the average price is not modelled). */
  datatype Summary = Summary(totalBills: nat, totalQuantity: real, totalAmount: real, from: Value, to: Value)

  /** `summary`: over the bills within the date bounds, their number, the sum
    * of their quantities and the sum of their prices; the bounds are echoed
    * back, null when absent. */
  function SummaryOf(bills: seq<Row>, req: Request): (s: Summary)
    ensures var inRange := Filter(bills, DateBounds(req));
      s.totalBills == |inRange| && s.totalQuantity == SumOf(inRange, "QUANTITY") &&
      s.totalAmount == SumOf(inRange, "PRICE")
    ensures s.from == Get(req, "date_from") && s.to == Get(req, "date_to")
    ensures s.totalBills <= |bills|
  {
    var inRange := Filter(bills, DateBounds(req));
    Summary(|inRange|, SumOf(inRange, "QUANTITY"), SumOf(inRange, "PRICE"), Get(req, "date_from"), Get(req, "date_to"))
  }

  /** With non-negative stored quantities and prices, as the rules demand,
    * the summary's totals are non-negative and never exceed the totals over
    * all bills. */
  lemma SummaryBounds(bills: seq<Row>, req: Request)
    requires forall i :: 0 <= i < |bills| ==> NumOf(Get(bills[i], "QUANTITY")) >= 0.0
    requires forall i :: 0 <= i < |bills| ==> NumOf(Get(bills[i], "PRICE")) >= 0.0
    ensures 0.0 <= SummaryOf(bills, req).totalQuantity <= SumOf(bills, "QUANTITY")
    ensures 0.0 <= SummaryOf(bills, req).totalAmount <= SumOf(bills, "PRICE")
  {
    SumOfFilterAtMost(bills, DateBounds(req), "QUANTITY");
    SumOfFilterAtMost(bills, DateBounds(req), "PRICE");
  }

  /** The summary counts exactly the bills an `index` with the same date
    * bounds and no other filter would list. */
  lemma SummaryAgreesWithIndex(bills: seq<Row>, req: Request)
    requires forall k :: k in req ==> k in {"date_from", "date_to", "per_page", "page"}
    ensures SummaryOf(bills, req).totalBills == List(bills, Criteria(req), "BILL_DATE", Desc, req).total
  {
    assert Criteria(req) == DateBounds(req);
  }

  /** `report`: not implemented; always 501 with `success` false. */
  function Report(req: Request): (reply: Reply<Row>)
    ensures reply.status == NOT_IMPLEMENTED && !reply.success && reply.data.None?
  {
    Reply(NOT_IMPLEMENTED, false, None)
  }
}
