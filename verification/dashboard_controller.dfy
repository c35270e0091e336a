/** The dashboard statistics endpoint: plain row counts, today's and this
  * month's fuel logs, the summed inventory columns and the five most
  * recently entered fuel logs. Nothing is written. */
module DashboardController {
  import opened Values
  import opened Ordering
  import opened Query

  /** `whereDate(col, today())`: a timestamp on the same calendar day. */
  predicate OnDay(v: Value, today: DateTime)
  {
    v.VDate? && v.d.year == today.year && v.d.month == today.month && v.d.day == today.day
  }

  /** `whereMonth(col, date('m'))->whereYear(col, date('Y'))`. */
  predicate InMonth(v: Value, today: DateTime)
  {
    v.VDate? && v.d.year == today.year && v.d.month == today.month
  }

  /** `COUNT(*)` of the rows whose column passes `test`. */
  function CountWhere(rows: seq<Row>, col: string, test: Value -> bool): (n: nat)
    ensures n <= |rows|
    ensures n == 0 <==> forall i :: 0 <= i < |rows| ==> !test(Get(rows[i], col))
    ensures n == |rows| <==> forall i :: 0 <= i < |rows| ==> test(Get(rows[i], col))
  {
    if rows == [] then 0
    else
      assert forall i :: 1 <= i < |rows| ==> rows[i] == rows[1..][i - 1];
      (if test(Get(rows[0], col)) then 1 else 0) + CountWhere(rows[1..], col, test)
  }

  /** The count is the number of positions whose column passes `test`. */
  lemma CountWhereMeaning(rows: seq<Row>, col: string, test: Value -> bool)
    ensures CountWhere(rows, col, test) == |set i | 0 <= i < |rows| && test(Get(rows[i], col))|
  {
    CountWhereFrom(rows, col, test, 0);
    assert rows[0..] == rows;
  }

  /** The count over `rows[lo..]` is the number of positions from `lo` on
    * whose column passes `test`. */
  lemma {:induction false} CountWhereFrom(rows: seq<Row>, col: string, test: Value -> bool, lo: nat)
    requires lo <= |rows|
    ensures CountWhere(rows[lo..], col, test) == |set i | lo <= i < |rows| && test(Get(rows[i], col))|
    decreases |rows| - lo
  {
    var s := set i | lo <= i < |rows| && test(Get(rows[i], col));
    if lo == |rows| {
      assert s == {};
    } else {
      CountWhereFrom(rows, col, test, lo + 1);
      var s' := set i | lo + 1 <= i < |rows| && test(Get(rows[i], col));
      assert rows[lo..][1..] == rows[lo + 1..];
      assert rows[lo..][0] == rows[lo];
      if test(Get(rows[lo], col)) {
        assert s == {lo} + s';
        assert lo !in s';
      } else {
        assert s == s';
      }
    }
  }

  /** A weaker test counts at least as many rows. */
  lemma {:induction false} CountWhereMonotone(rows: seq<Row>, col: string, p: Value -> bool, q: Value -> bool)
    requires forall v :: p(v) ==> q(v)
    ensures CountWhere(rows, col, p) <= CountWhere(rows, col, q)
  {
    if rows != [] {
      CountWhereMonotone(rows[1..], col, p, q);
    }
  }

  /** `todayFuelLogs`: the logs entered on today's date. */
  function TodayFuelLogs(logs: seq<Row>, today: DateTime): (n: nat)
    ensures n <= |logs|
    ensures n == |set i | 0 <= i < |logs| && OnDay(Get(logs[i], "ENTRY_DATE"), today)|
  {
    var onDay := (v: Value) => OnDay(v, today);
    CountWhereMeaning(logs, "ENTRY_DATE", onDay);
    assert (set i | 0 <= i < |logs| && onDay(Get(logs[i], "ENTRY_DATE"))) ==
      (set i | 0 <= i < |logs| && OnDay(Get(logs[i], "ENTRY_DATE"), today));
    CountWhere(logs, "ENTRY_DATE", onDay)
  }

  /** `thisMonthFuelLogs`: the logs entered in this month of this year. */
  function MonthFuelLogs(logs: seq<Row>, today: DateTime): (n: nat)
    ensures n <= |logs|
    ensures n == |set i | 0 <= i < |logs| && InMonth(Get(logs[i], "ENTRY_DATE"), today)|
  {
    var inMonth := (v: Value) => InMonth(v, today);
    CountWhereMeaning(logs, "ENTRY_DATE", inMonth);
    assert (set i | 0 <= i < |logs| && inMonth(Get(logs[i], "ENTRY_DATE"))) ==
      (set i | 0 <= i < |logs| && InMonth(Get(logs[i], "ENTRY_DATE"), today));
    CountWhere(logs, "ENTRY_DATE", inMonth)
  }

  /** Today's logs never outnumber this month's. */
  lemma TodayWithinMonth(logs: seq<Row>, today: DateTime)
    ensures TodayFuelLogs(logs, today) <= MonthFuelLogs(logs, today)
  {
    var d := set i | 0 <= i < |logs| && OnDay(Get(logs[i], "ENTRY_DATE"), today);
    var m := set i | 0 <= i < |logs| && InMonth(Get(logs[i], "ENTRY_DATE"), today);
    assert d <= m;
    SubsetCard(d, m);
  }

  lemma SubsetCard(a: set<int>, b: set<int>)
    requires a <= b
    ensures |a| <= |b|
  {
    assert b == a + (b - a);
  }

  /** The `stats` block of the answer. */
  datatype Counts = Counts(
    totalVehicles: nat,
    totalGenerators: nat,
    todayFuelLogs: nat,
    thisMonthFuelLogs: nat,
    activeStations: nat,
    totalGasBills: nat,
    gasInventory: real,
    solarInventory: real)

  /** One entry of `recentFuelLogs`. */
  datatype RecentLog = RecentLog(id: int, vehicleOid: Value, quantity: Value, stationOid: Value, entryDate: Value)

  /** PHP's `(int)` cast: numbers truncate toward zero, booleans become 0
    * or 1, anything else (an id column is never a string) becomes 0. */
  function IntCast(v: Value): (i: int)
    ensures v.VInt? ==> i == v.i
    ensures v.VNum? ==> (if v.r >= 0.0 then i as real <= v.r < i as real + 1.0 else i as real - 1.0 < v.r <= i as real)
  {
    match v
    case VInt(n) => n
    case VBool(b) => if b then 1 else 0
    case VNum(r) => if r >= 0.0 then r.Floor else -((-r).Floor)
    case _ => 0
  }

  /** The mapping applied to each recent log; a null `GALLONS` reads as 0. */
  function Summary(log: Row): (e: RecentLog)
    ensures e.quantity != VNull
    ensures Get(log, "GALLONS") != VNull ==> e.quantity == Get(log, "GALLONS")
    ensures e.entryDate == Get(log, "ENTRY_DATE")
  {
    RecentLog(
      IntCast(Get(log, "OID")),
      Get(log, "VEH_OID"),
      if Get(log, "GALLONS") == VNull then VInt(0) else Get(log, "GALLONS"),
      Get(log, "STATION_OID"),
      Get(log, "ENTRY_DATE"))
  }

  const RecentLimit: nat := 5

  /** `orderBy('ENTRY_DATE', 'desc')->limit(5)->get()->map(...)`. */
  function Recent(logs: seq<Row>): (r: seq<RecentLog>)
    ensures |r| == Min(RecentLimit, |logs|)
    ensures forall i, j :: 0 <= i < j < |r| ==> ValueLe(r[j].entryDate, r[i].entryDate)
    ensures forall k :: 0 <= k < |r| ==> exists x :: x in logs && r[k] == Summary(x)
  {
    var sorted := SortBy(logs, "ENTRY_DATE", Desc);
    var r := seq(Min(RecentLimit, |sorted|), k requires 0 <= k < Min(RecentLimit, |sorted|) => Summary(sorted[k]));
    forall i, j | 0 <= i < j < |r| ensures ValueLe(r[j].entryDate, r[i].entryDate) {
      assert InOrder(sorted[i], sorted[j], "ENTRY_DATE", Desc);
    }
    SortedMembers(logs, "ENTRY_DATE", Desc);
    assert forall k :: 0 <= k < |r| ==> sorted[k] in logs && r[k] == Summary(sorted[k]);
    r
  }

  /** The logs shown are the newest ones: any log left out was entered no
    * later than the last one shown. */
  lemma RecentAreNewest(logs: seq<Row>, x: Row)
    requires x in logs
    ensures var r := Recent(logs);
      (exists k :: 0 <= k < |r| && r[k] == Summary(x)) ||
      ValueLe(Get(x, "ENTRY_DATE"), r[|r| - 1].entryDate)
  {
    var sorted := SortBy(logs, "ENTRY_DATE", Desc);
    var r := Recent(logs);
    assert x in multiset(sorted);
    var j :| 0 <= j < |sorted| && sorted[j] == x;
    assert |r| == Min(RecentLimit, |sorted|);
    if j < |r| {
      assert r[j] == Summary(x);
    } else {
      assert InOrder(sorted[|r| - 1], sorted[j], "ENTRY_DATE", Desc);
      assert r[|r| - 1] == Summary(sorted[|r| - 1]);
    }
  }

  /** The whole answer. */
  datatype Dashboard = Dashboard(stats: Counts, recentFuelLogs: seq<RecentLog>)

  /** `stats`: the counts over the whole tables (every station counts as
    * active), today's and this month's logs by `ENTRY_DATE`, the inventory
    * columns summed over every snapshot, and the recent logs. */
  function Stats(vehicles: seq<Row>, generators: seq<Row>, logs: seq<Row>, stations: seq<Row>,
                 bills: seq<Row>, store: seq<Row>, today: DateTime): (reply: Reply<Dashboard>)
    ensures reply.status == OK && reply.success && reply.data.Some?
    ensures var c := reply.data.value.stats;
      c.totalVehicles == |vehicles| && c.totalGenerators == |generators| &&
      c.activeStations == |stations| && c.totalGasBills == |bills|
    ensures var c := reply.data.value.stats;
      c.todayFuelLogs <= c.thisMonthFuelLogs <= |logs|
    ensures reply.data.value.stats.todayFuelLogs ==
      |set i | 0 <= i < |logs| && OnDay(Get(logs[i], "ENTRY_DATE"), today)|
    ensures reply.data.value.stats.thisMonthFuelLogs ==
      |set i | 0 <= i < |logs| && InMonth(Get(logs[i], "ENTRY_DATE"), today)|
    ensures reply.data.value.stats.gasInventory == SumOf(store, "GAS_QUANTITY")
    ensures reply.data.value.stats.solarInventory == SumOf(store, "SOLAR_QUANTITY")
    ensures store == [] ==> reply.data.value.stats.gasInventory == 0.0 && reply.data.value.stats.solarInventory == 0.0
    ensures reply.data.value.recentFuelLogs == Recent(logs)
    ensures |reply.data.value.recentFuelLogs| <= RecentLimit
  {
    TodayWithinMonth(logs, today);
    var counts := Counts(
      |vehicles|,
      |generators|,
      TodayFuelLogs(logs, today),
      MonthFuelLogs(logs, today),
      |stations|,
      |bills|,
      SumOf(store, "GAS_QUANTITY"),
      SumOf(store, "SOLAR_QUANTITY"));
    Reply(OK, true, Some(Dashboard(counts, Recent(logs))))
  }

  /** The inventory figure adds up every snapshot ever taken, so with
    * non-negative quantities it is at least the quantity of any single one,
    * the current one included. */
  lemma {:induction false} InventoryCoversEverySnapshot(store: seq<Row>, col: string, x: Row)
    requires forall i :: 0 <= i < |store| ==> NumOf(Get(store[i], col)) >= 0.0
    requires x in store
    ensures NumOf(Get(x, col)) <= SumOf(store, col)
  {
    if store[0] == x {
      SumOfNonNegative(store[1..], col);
    } else {
      assert x in store[1..];
      InventoryCoversEverySnapshot(store[1..], col, x);
    }
  }
}
