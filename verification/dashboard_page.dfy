/** The client's dashboard: the figures it derives from the loaded slices —
  * the active vehicles, today's consumption and the loading state of the
  * cards. */
module DashboardPage {
  import opened JsValues
  import opened ClientLists

  /** `vehicles.filter(v => v.statusName?.toLowerCase() === 'active').length`. */
  function ActiveVehicles(vehicles: seq<Obj>): (n: nat)
    ensures n <= |vehicles|
    ensures n == 0 <==> forall i :: 0 <= i < |vehicles| ==> !LowerIs(Prop(vehicles[i], "statusName"), "active")
    ensures n == |vehicles| <==> forall i :: 0 <= i < |vehicles| ==> LowerIs(Prop(vehicles[i], "statusName"), "active")
  {
    if vehicles == [] then 0
    else
      assert forall i :: 1 <= i < |vehicles| ==> vehicles[i] == vehicles[1..][i - 1];
      (if LowerIs(Prop(vehicles[0], "statusName"), "active") then 1 else 0) + ActiveVehicles(vehicles[1..])
  }

  /** `new Date(log.fillUpDate || '')`: a date stands for itself, a
    * non-empty string is parsed (parsing is a parameter: `None` is an
    * invalid date), anything else gives an invalid date. */
  function FillUpDay(v: Js, parse: string -> Option<Instant>): (d: Option<Instant>)
    ensures v.Date? ==> d == Some(v.t)
    ensures !v.Date? && !(v.Str? && v.s != "") ==> d.None?
  {
    match v
    case Date(t) => Some(t)
    case Str(s) => if s != "" then parse(s) else None
    case _ => None
  }

  /** `logDate.toDateString() === today.toDateString()`: the same calendar
    * day on the local clock; an invalid date is never today. */
  predicate IsToday(log: Obj, today: Instant, parse: string -> Option<Instant>)
  {
    var d := FillUpDay(Prop(log, "fillUpDate"), parse);
    d.Some? && d.value.year == today.year && d.value.month == today.month && d.value.day == today.day
  }

  /** The logs filled up today, in their order. */
  function TodayLogs(logs: seq<Obj>, today: Instant, parse: string -> Option<Instant>): (r: seq<Obj>)
    ensures forall x :: x in r <==> x in logs && IsToday(x, today, parse)
    ensures Subsequence(r, logs)
  {
    if logs == [] then []
    else
      var rest := TodayLogs(logs[1..], today, parse);
      assert forall x :: x in logs <==> x == logs[0] || x in logs[1..];
      if IsToday(logs[0], today, parse) then
        assert ([logs[0]] + rest)[1..] == rest;
        [logs[0]] + rest
      else
        assert rest == [] || Subsequence(rest, logs[1..]);
        rest
  }

  /** `reduce((sum, log) => sum + (log.gallons || 0), 0)`. */
  function Gallons(logs: seq<Obj>): (t: real)
    ensures (forall i :: 0 <= i < |logs| ==> !Truthy(Prop(logs[i], "gallons"))) ==> t == 0.0
  {
    if logs == [] then 0.0
    else Gallons(logs[..|logs| - 1]) + OrZero(Prop(logs[|logs| - 1], "gallons"))
  }

  /** `totalConsumptionToday`. */
  function ConsumptionToday(logs: seq<Obj>, today: Instant, parse: string -> Option<Instant>): real
  {
    Gallons(TodayLogs(logs, today, parse))
  }

  /** No log filled up today: nothing consumed today. */
  lemma NoLogTodayNoConsumption(logs: seq<Obj>, today: Instant, parse: string -> Option<Instant>)
    requires forall i :: 0 <= i < |logs| ==> !IsToday(logs[i], today, parse)
    ensures ConsumptionToday(logs, today, parse) == 0.0
  {
    var r := TodayLogs(logs, today, parse);
    assert forall i :: 0 <= i < |r| ==> r[i] in logs;
  }

  predicate NonNegativeGallons(logs: seq<Obj>)
  {
    forall i :: 0 <= i < |logs| ==> OrZero(Prop(logs[i], "gallons")) >= 0.0
  }

  /** The first log of a list counts first in the sum. */
  lemma {:induction false} GallonsCons(x: Obj, logs: seq<Obj>)
    ensures Gallons([x] + logs) == OrZero(Prop(x, "gallons")) + Gallons(logs)
  {
    if logs != [] {
      var init := logs[..|logs| - 1];
      GallonsCons(x, init);
      assert ([x] + logs)[..|[x] + logs| - 1] == [x] + init;
    } else {
      assert [x] + logs == [x];
      assert [x][..0] == [];
    }
  }

  /** With non-negative quantities, a subsequence of the logs never sums to
    * more than the logs themselves. */
  lemma {:induction false} SubsequenceGallons(r: seq<Obj>, logs: seq<Obj>)
    requires Subsequence(r, logs) && NonNegativeGallons(logs)
    ensures Gallons(r) <= Gallons(logs)
    decreases |logs|
  {
    if logs == [] {
    } else {
      var tail := logs[1..];
      assert NonNegativeGallons(tail) by {
        assert forall i :: 0 <= i < |tail| ==> tail[i] == logs[i + 1];
      }
      assert logs == [logs[0]] + tail;
      GallonsCons(logs[0], tail);
      assert OrZero(Prop(logs[0], "gallons")) >= 0.0;
      if r == [] {
        GallonsNonNegative(logs);
      } else if r[0] == logs[0] && Subsequence(r[1..], tail) {
        SubsequenceGallons(r[1..], tail);
        assert r == [r[0]] + r[1..];
        GallonsCons(r[0], r[1..]);
      } else {
        SubsequenceGallons(r, tail);
      }
    }
  }

  lemma {:induction false} GallonsNonNegative(logs: seq<Obj>)
    requires NonNegativeGallons(logs)
    ensures Gallons(logs) >= 0.0
  {
    if logs != [] {
      var init := logs[..|logs| - 1];
      assert forall i :: 0 <= i < |init| ==> init[i] == logs[i];
      GallonsNonNegative(init);
    }
  }

  /** With non-negative quantities, today's consumption is at most what the
    * loaded logs add up to, and never negative. */
  lemma ConsumptionBounded(logs: seq<Obj>, today: Instant, parse: string -> Option<Instant>)
    requires NonNegativeGallons(logs)
    ensures 0.0 <= ConsumptionToday(logs, today, parse) <= Gallons(logs)
  {
    var r := TodayLogs(logs, today, parse);
    SubsequenceGallons(r, logs);
    assert NonNegativeGallons(r) by {
      forall i | 0 <= i < |r| ensures OrZero(Prop(r[i], "gallons")) >= 0.0 {
        assert r[i] in logs;
      }
    }
    GallonsNonNegative(r);
  }

  /** The loading flags of the four slices the dashboard reads. */
  datatype Flags = Flags(vehicles: bool, generators: bool, fuelLogs: bool, inventory: bool)

  /** `isLoading`: any slice still loading. */
  predicate IsLoading(f: Flags)
  {
    f.vehicles || f.generators || f.fuelLogs || f.inventory
  }

  /** The vehicles card: a skeleton while anything loads, otherwise the
    * number of loaded vehicles with the active ones beneath. */
  datatype VehicleCard = Skeleton | Card(total: nat, active: nat)

  function VehicleCardOf(f: Flags, vehicles: seq<Obj>): (c: VehicleCard)
    ensures c.Skeleton? <==> f.vehicles || f.generators || f.fuelLogs || f.inventory
    ensures c.Card? ==> c.total == |vehicles| && c.active <= c.total
    ensures c.Card? ==> c.active == ActiveVehicles(vehicles)
  {
    if IsLoading(f) then Skeleton else Card(|vehicles|, ActiveVehicles(vehicles))
  }
}
