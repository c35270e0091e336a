/** The gas-store (inventory) resource: snapshots of the fuel in stock. Each
  * inventory update inserts a new active snapshot; the current inventory is
  * the latest active one. */
module GasStoreController {
  import opened Values
  import opened Ordering
  import opened Query
  import opened Validation
  import opened Tables

  /** The GasStore model's `$fillable` columns. */
  const Fillable: set<string> := {
    "ENTRY_DATE", "GAS_QUANTITY", "SOLAR_QUANTITY", "GAS_REC_OID", "GAS_BILLS", "FILL_UP_DATE",
    "PRV_OID", "PRV_QTY", "NOTE", "EYGPT_SOLAR_QUANTITY", "IS_ACTIVE"}

  ghost predicate IsGasStoreTable(t: Table)
    reads t
  {
    t.Valid() && t.key == "OID" && t.fillable == Fillable
  }

  /** The inclusive `ENTRY_DATE` bounds, shared by `index` and `history`. */
  function DateBounds(req: Request): seq<Criterion>
  {
    When("date_from" in req, AtLeast("ENTRY_DATE", Get(req, "date_from"))) +
    When("date_to" in req, AtMost("ENTRY_DATE", Get(req, "date_to")))
  }

  lemma DateBoundsMeaning(req: Request, row: Row)
    ensures MatchesAll(row, DateBounds(req)) <==>
      ("date_from" in req ==> SqlLe(req["date_from"], Get(row, "ENTRY_DATE"))) &&
      ("date_to" in req ==> SqlLe(Get(row, "ENTRY_DATE"), req["date_to"]))
  {
    MatchesAllConcat(row, When("date_from" in req, AtLeast("ENTRY_DATE", Get(req, "date_from"))),
                          When("date_to" in req, AtMost("ENTRY_DATE", Get(req, "date_to"))));
    MatchesWhen(row, "date_from" in req, AtLeast("ENTRY_DATE", Get(req, "date_from")));
    MatchesWhen(row, "date_to" in req, AtMost("ENTRY_DATE", Get(req, "date_to")));
  }

  /** The conjunction `index` builds: the active flag, the date bounds and
    * the minimum gas quantity, each only when present. */
  function Criteria(req: Request): seq<Criterion>
  {
    When("is_active" in req, Equals("IS_ACTIVE", Get(req, "is_active"))) +
    DateBounds(req) +
    When("min_quantity" in req, AtLeast("GAS_QUANTITY", Get(req, "min_quantity")))
  }

  /** A snapshot is listed exactly when it has the requested active flag, its
    * entry date lies within the bounds and it holds at least the minimum gas. */
  lemma CriteriaMeaning(req: Request, row: Row)
    ensures MatchesAll(row, Criteria(req)) <==>
      ("is_active" in req ==> SqlEquals(Get(row, "IS_ACTIVE"), req["is_active"])) &&
      ("date_from" in req ==> SqlLe(req["date_from"], Get(row, "ENTRY_DATE"))) &&
      ("date_to" in req ==> SqlLe(Get(row, "ENTRY_DATE"), req["date_to"])) &&
      ("min_quantity" in req ==> SqlLe(req["min_quantity"], Get(row, "GAS_QUANTITY")))
  {
    var a := When("is_active" in req, Equals("IS_ACTIVE", Get(req, "is_active")));
    var c := When("min_quantity" in req, AtLeast("GAS_QUANTITY", Get(req, "min_quantity")));
    MatchesAllConcat(row, a + DateBounds(req), c);
    MatchesAllConcat(row, a, DateBounds(req));
    MatchesWhen(row, "is_active" in req, Equals("IS_ACTIVE", Get(req, "is_active")));
    DateBoundsMeaning(req, row);
    MatchesWhen(row, "min_quantity" in req, AtLeast("GAS_QUANTITY", Get(req, "min_quantity")));
  }

  /** The successive `where` calls of `index`. */
  method BuildCriteria(req: Request) returns (cs: seq<Criterion>)
    ensures cs == Criteria(req)
  {
    cs := AddWhen([], "is_active" in req, Equals("IS_ACTIVE", Get(req, "is_active")));
    assert cs == When("is_active" in req, Equals("IS_ACTIVE", Get(req, "is_active")));
    ghost var active := cs;
    cs := AddWhen(cs, "date_from" in req, AtLeast("ENTRY_DATE", Get(req, "date_from")));
    cs := AddWhen(cs, "date_to" in req, AtMost("ENTRY_DATE", Get(req, "date_to")));
    assert cs == active + DateBounds(req);
    cs := AddWhen(cs, "min_quantity" in req, AtLeast("GAS_QUANTITY", Get(req, "min_quantity")));
  }

  /** `index`: the matching snapshots, latest entry first, one page of them. */
  method Index(stores: Table, req: Request) returns (reply: Reply<Page>)
    ensures reply == Reply(OK, true, Some(List(stores.rows, Criteria(req), "ENTRY_DATE", Desc, req)))
    ensures reply.data.value.total == |Filter(stores.rows, Criteria(req))|
    ensures PerPageOf(req) > 0 ==> |reply.data.value.items| <= PerPageOf(req)
    ensures forall x :: x in reply.data.value.items ==> x in stores.rows && MatchesAll(x, Criteria(req))
    ensures Sorted(reply.data.value.items, "ENTRY_DATE", Desc)
  {
    var cs := BuildCriteria(req);
    reply := Reply(OK, true, Some(List(stores.rows, cs, "ENTRY_DATE", Desc, req)));
  }

  /** The rules `store` and `update` both apply: every field is nullable. */
  const Rules: seq<Rule> := [
    Rule("ENTRY_DATE", Optional, true, Date),
    Rule("GAS_QUANTITY", Optional, true, Numeric(Some(0.0))),
    Rule("SOLAR_QUANTITY", Optional, true, Numeric(Some(0.0))),
    Rule("GAS_REC_OID", Optional, true, Integer),
    Rule("GAS_BILLS", Optional, true, Numeric(Some(0.0))),
    Rule("FILL_UP_DATE", Optional, true, Date),
    Rule("PRV_OID", Optional, true, Integer),
    Rule("PRV_QTY", Optional, true, Numeric(Some(0.0))),
    Rule("NOTE", Optional, true, Str(0, Some(1000))),
    Rule("EYGPT_SOLAR_QUANTITY", Optional, true, Numeric(Some(0.0))),
    Rule("IS_ACTIVE", Optional, true, Integer)]

  /** Every field is optional: an empty body validates to nothing. */
  lemma AllOptional()
    ensures Validate(Rules, map[]) == Some(map[])
  {
    assert forall i :: 0 <= i < |Rules| ==> Passes(Rules[i], map[]);
    AcceptedAsIs(Rules, map[]);
  }

  /** What passes the rules: the five quantities are non-negative numbers
    * when supplied. */
  lemma QuantitiesNonNegative(req: Request)
    requires Validate(Rules, req).Some?
    ensures NonNegativeWhenSupplied(req, "GAS_QUANTITY")
    ensures NonNegativeWhenSupplied(req, "SOLAR_QUANTITY")
    ensures NonNegativeWhenSupplied(req, "GAS_BILLS")
    ensures NonNegativeWhenSupplied(req, "PRV_QTY")
    ensures NonNegativeWhenSupplied(req, "EYGPT_SOLAR_QUANTITY")
  {
    if Supplied(req, "GAS_QUANTITY") {
      KindHolds(Rules, req, Rule("GAS_QUANTITY", Optional, true, Numeric(Some(0.0))));
    }
    if Supplied(req, "SOLAR_QUANTITY") {
      KindHolds(Rules, req, Rule("SOLAR_QUANTITY", Optional, true, Numeric(Some(0.0))));
    }
    if Supplied(req, "GAS_BILLS") {
      KindHolds(Rules, req, Rule("GAS_BILLS", Optional, true, Numeric(Some(0.0))));
    }
    if Supplied(req, "PRV_QTY") {
      KindHolds(Rules, req, Rule("PRV_QTY", Optional, true, Numeric(Some(0.0))));
    }
    if Supplied(req, "EYGPT_SOLAR_QUANTITY") {
      KindHolds(Rules, req, Rule("EYGPT_SOLAR_QUANTITY", Optional, true, Numeric(Some(0.0))));
    }
  }

  /** A supplied note is text of at most 1000 characters. */
  lemma NoteBounded(req: Request)
    requires Validate(Rules, req).Some?
    ensures Supplied(req, "NOTE") ==> req["NOTE"].VStr? && |req["NOTE"].s| <= 1000
  {
    if Supplied(req, "NOTE") {
      KindHolds(Rules, req, Rule("NOTE", Optional, true, Str(0, Some(1000))));
    }
  }

  /** `store`: 201 with the created row, or 500 when validation fails. */
  method Store(stores: Table, req: Request) returns (reply: Reply<Row>)
    requires IsGasStoreTable(stores)
    modifies stores
    ensures IsGasStoreTable(stores)
    ensures Validate(Rules, req).None? ==>
      reply == Reply(SERVER_ERROR, false, None) && stores.rows == old(stores.rows)
    ensures Validate(Rules, req).Some? ==>
      var row := Created(Validate(Rules, req).value, Fillable, "OID", old(stores.nextOid));
      reply == Reply(CREATED, true, Some(row)) && stores.rows == old(stores.rows) + [row]
  {
    assert Validate(Rules, req).Some? ==> Validate(Rules, req).value + map[] == Validate(Rules, req).value;
    reply := Tables.Store(stores, Rules, req, map[]);
  }

  /** `show`: 200 with the snapshot, or 404. */
  method Show(stores: Table, id: int) returns (reply: Reply<Row>)
    ensures stores.Find(id).Some? ==> reply == Reply(OK, true, Some(stores.rows[stores.Find(id).value]))
    ensures stores.Find(id).None? ==> reply == Reply(NOT_FOUND, false, None)
  {
    reply := Tables.Show(stores, id);
  }

  /** `update`: 500 for a missing snapshot or a failed validation; otherwise
    * the supplied, validated columns are overwritten. */
  method Update(stores: Table, id: int, req: Request) returns (reply: Reply<Row>)
    requires IsGasStoreTable(stores)
    modifies stores
    ensures IsGasStoreTable(stores)
    ensures old(stores.Find(id)).None? || Validate(Rules, req).None? ==>
      reply == Reply(SERVER_ERROR, false, None) && stores.rows == old(stores.rows)
    ensures old(stores.Find(id)).Some? && Validate(Rules, req).Some? ==>
      var i := old(stores.Find(id)).value;
      var row := Updated(old(stores.rows)[i], Validate(Rules, req).value, Fillable);
      reply == Reply(OK, true, Some(row)) && stores.rows == old(stores.rows)[i := row]
  {
    reply := Tables.Update(stores, id, Rules, req);
  }

  /** `destroy`: 500 for a missing snapshot; otherwise its row is removed. */
  method Destroy(stores: Table, id: int) returns (reply: Reply<Row>)
    requires IsGasStoreTable(stores)
    modifies stores
    ensures IsGasStoreTable(stores)
    ensures old(stores.Find(id)).None? ==> reply == Reply(SERVER_ERROR, false, None) && stores.rows == old(stores.rows)
    ensures old(stores.Find(id)).Some? ==>
      var i := old(stores.Find(id)).value;
      reply == Reply(OK, true, None) && stores.rows == old(stores.rows)[..i] + old(stores.rows)[i + 1..]
    ensures stores.Find(id).None?
  {
    reply := Tables.Destroy(stores, id);
  }

  /** `where('IS_ACTIVE', 1)`. */
  predicate IsActive(row: Row)
  {
    SqlEquals(Get(row, "IS_ACTIVE"), VInt(1))
  }

  /** The figures `stats` reports. */
  datatype Stats = Stats(totalStores: nat, activeStores: nat, totalGasQuantity: real,
                         totalSolarQuantity: real, totalBillsValue: real)

  /** `stats`: the number of snapshots, how many are active, and the sums of
    * the gas, solar and bill columns over all of them. */
  function StatsOf(stores: seq<Row>): (s: Stats)
    ensures s.totalStores == |stores|
    ensures s.activeStores <= s.totalStores
    ensures forall x :: x in Filter(stores, [Equals("IS_ACTIVE", VInt(1))]) <==> x in stores && IsActive(x)
    ensures s.activeStores == |Filter(stores, [Equals("IS_ACTIVE", VInt(1))])|
    ensures s.totalGasQuantity == SumOf(stores, "GAS_QUANTITY")
    ensures s.totalSolarQuantity == SumOf(stores, "SOLAR_QUANTITY")
    ensures s.totalBillsValue == SumOf(stores, "GAS_BILLS")
  {
    ActiveFilter(stores);
    var active := Filter(stores, [Equals("IS_ACTIVE", VInt(1))]);
    Stats(|stores|, |active|, SumOf(stores, "GAS_QUANTITY"), SumOf(stores, "SOLAR_QUANTITY"), SumOf(stores, "GAS_BILLS"))
  }

  /** The active filter keeps exactly the active snapshots. */
  lemma ActiveFilter(stores: seq<Row>)
    ensures forall x :: x in Filter(stores, [Equals("IS_ACTIVE", VInt(1))]) <==> x in stores && IsActive(x)
  {
    var cs := [Equals("IS_ACTIVE", VInt(1))];
    assert forall x :: MatchesAll(x, cs) <==> IsActive(x) by {
      forall x ensures MatchesAll(x, cs) <==> IsActive(x) {
        assert cs[0] == Equals("IS_ACTIVE", VInt(1));
      }
    }
    FilterCompleteAll(stores, cs);
  }

  /** `current`: the active snapshots, latest entry first, and the first of them. */
  function Current(stores: seq<Row>): (r: Option<Row>)
    ensures r.None? <==> forall x :: x in stores ==> !IsActive(x)
    ensures r.Some? ==> r.value in stores && IsActive(r.value)
    ensures r.Some? ==> forall x :: x in stores && IsActive(x) ==> ValueLe(Get(x, "ENTRY_DATE"), Get(r.value, "ENTRY_DATE"))
  {
    ActiveFilter(stores);
    var active := Filter(stores, [Equals("IS_ACTIVE", VInt(1))]);
    var sorted := SortBy(active, "ENTRY_DATE", Desc);
    SortedMembers(active, "ENTRY_DATE", Desc);
    if sorted == [] then
      assert forall x :: x in active ==> x in multiset(sorted);
      None
    else
      LatestFirst(sorted, active);
      assert sorted[0] in sorted;
      Some(sorted[0])
  }

  /** The head of a descending order is at least as late as every member. */
  lemma LatestFirst(sorted: seq<Row>, active: seq<Row>)
    requires sorted != [] && Sorted(sorted, "ENTRY_DATE", Desc)
    requires multiset(sorted) == multiset(active)
    ensures forall x :: x in active ==> ValueLe(Get(x, "ENTRY_DATE"), Get(sorted[0], "ENTRY_DATE"))
  {
    forall x | x in active ensures ValueLe(Get(x, "ENTRY_DATE"), Get(sorted[0], "ENTRY_DATE")) {
      assert x in multiset(sorted);
      var j :| 0 <= j < |sorted| && sorted[j] == x;
      if j == 0 {
        ValueLeRefl(Get(x, "ENTRY_DATE"));
      } else {
        assert InOrder(sorted[0], sorted[j], "ENTRY_DATE", Desc);
      }
    }
  }

  /** `history`: every snapshot within the date bounds, latest entry first,
    * not paginated. */
  function History(stores: seq<Row>, req: Request): (r: seq<Row>)
    ensures forall x :: x in r <==> x in stores && MatchesAll(x, DateBounds(req))
    ensures multiset(r) <= multiset(stores)
    ensures Sorted(r, "ENTRY_DATE", Desc)
  {
    FilterCompleteAll(stores, DateBounds(req));
    var r := SortBy(Filter(stores, DateBounds(req)), "ENTRY_DATE", Desc);
    assert forall x :: x in r <==> x in multiset(r);
    r
  }

  /** `updateInventory`'s rules. */
  const InventoryRules: seq<Rule> := [
    Rule("GAS_QUANTITY", Required, false, Numeric(Some(0.0))),
    Rule("SOLAR_QUANTITY", Optional, true, Numeric(Some(0.0))),
    Rule("NOTE", Optional, true, Str(0, Some(1000)))]

  /** The row `updateInventory` inserts: the validated data, stamped with the
    * current time and marked active. */
  function Snapshot(validated: Row, now: DateTime, oid: int): (row: Row)
    ensures "ENTRY_DATE" in row && row["ENTRY_DATE"] == VDate(now)
    ensures "IS_ACTIVE" in row && row["IS_ACTIVE"] == VInt(1) && IsActive(row)
    ensures "OID" in row && row["OID"] == VInt(oid)
    ensures forall k :: k in validated && k in Fillable && k != "ENTRY_DATE" && k != "IS_ACTIVE" ==> k in row && row[k] == validated[k]
  {
    Created(validated["ENTRY_DATE" := VDate(now)]["IS_ACTIVE" := VInt(1)], Fillable, "OID", oid)
  }

  /** A recorded inventory always has a non-negative gas quantity. */
  lemma InventoryNeeds(req: Request)
    requires Validate(InventoryRules, req).Some?
    ensures "GAS_QUANTITY" in req && IsNumber(req["GAS_QUANTITY"]) && NumOf(req["GAS_QUANTITY"]) >= 0.0
  {
    var gas := Rule("GAS_QUANTITY", Required, false, Numeric(Some(0.0)));
    RequiredPresent(InventoryRules, req, gas);
    KindHolds(InventoryRules, req, gas);
  }

  /** `updateInventory`: 500 when validation fails; otherwise a new active
    * snapshot dated `now` is appended, no existing row changes, and the
    * answer is 200 (not 201). */
  method UpdateInventory(stores: Table, req: Request, now: DateTime) returns (reply: Reply<Row>)
    requires IsGasStoreTable(stores)
    modifies stores
    ensures IsGasStoreTable(stores)
    ensures Validate(InventoryRules, req).None? ==>
      reply == Reply(SERVER_ERROR, false, None) && stores.rows == old(stores.rows)
    ensures Validate(InventoryRules, req).Some? ==>
      var row := Snapshot(Validate(InventoryRules, req).value, now, old(stores.nextOid));
      reply == Reply(OK, true, Some(row)) && stores.rows == old(stores.rows) + [row]
  {
    var stamp := map["ENTRY_DATE" := VDate(now), "IS_ACTIVE" := VInt(1)];
    ghost var validated := Validate(InventoryRules, req);
    assert validated.Some? ==> validated.value + stamp == validated.value["ENTRY_DATE" := VDate(now)]["IS_ACTIVE" := VInt(1)];
    var created := Tables.Store(stores, InventoryRules, req, stamp);
    if created.success {
      reply := Reply(OK, true, created.data);
    } else {
      reply := created;
    }
  }

  /** After an inventory update dated `now`, the new snapshot is the current
    * inventory when every other active snapshot is dated strictly earlier;
    * and it is not when some active snapshot is dated strictly later (a null
    * entry date counts as later, as it sorts first). */
  lemma CurrentAfterUpdate(stores: seq<Row>, row: Row, now: DateTime)
    requires IsActive(row) && Get(row, "ENTRY_DATE") == VDate(now)
    ensures (forall x :: x in stores && IsActive(x) ==> ValueLt(Get(x, "ENTRY_DATE"), VDate(now))) ==>
      Current(stores + [row]) == Some(row)
    ensures (exists x :: x in stores && IsActive(x) && ValueLt(VDate(now), Get(x, "ENTRY_DATE"))) ==>
      Current(stores + [row]) != Some(row)
  {
    var r := Current(stores + [row]);
    assert row in stores + [row];
    if forall x :: x in stores && IsActive(x) ==> ValueLt(Get(x, "ENTRY_DATE"), VDate(now)) {
      assert ValueLe(VDate(now), Get(r.value, "ENTRY_DATE"));
    }
    if exists x :: x in stores && IsActive(x) && ValueLt(VDate(now), Get(x, "ENTRY_DATE")) {
      var x :| x in stores && IsActive(x) && ValueLt(VDate(now), Get(x, "ENTRY_DATE"));
      assert x in stores + [row];
    }
  }

  /** An inventory update adds one active snapshot to the statistics and its
    * quantities to the sums. */
  lemma StatsAfterUpdate(stores: seq<Row>, row: Row)
    requires IsActive(row)
    ensures StatsOf(stores + [row]).totalStores == StatsOf(stores).totalStores + 1
    ensures StatsOf(stores + [row]).activeStores == StatsOf(stores).activeStores + 1
    ensures StatsOf(stores + [row]).totalGasQuantity == StatsOf(stores).totalGasQuantity + NumOf(Get(row, "GAS_QUANTITY"))
    ensures StatsOf(stores + [row]).totalSolarQuantity == StatsOf(stores).totalSolarQuantity + NumOf(Get(row, "SOLAR_QUANTITY"))
  {
    var cs := [Equals("IS_ACTIVE", VInt(1))];
    FilterAppend(stores, [row], cs);
    assert [row][1..] == [];
    assert MatchesAll(row, cs) by { assert cs[0] == Equals("IS_ACTIVE", VInt(1)); }
    assert Filter([row], cs) == [row];
    SumOfAppend(stores, [row], "GAS_QUANTITY");
    SumOfAppend(stores, [row], "SOLAR_QUANTITY");
  }

  /** `report`: not implemented; always 501 with `success` false. */
  function Report(req: Request): (reply: Reply<Row>)
    ensures reply.status == NOT_IMPLEMENTED && !reply.success && reply.data.None?
  {
    Reply(NOT_IMPLEMENTED, false, None)
  }
}
