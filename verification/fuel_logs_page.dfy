/** The fuel logs page: the status chip, the vehicle-or-generator column and
  * the table footer's rows-per-page change. The delete dialog is the shared
  * `PageActions.DeleteDialog`. */
module FuelLogsPage {
  import opened JsValues
  import Text
  import opened PageActions
  import FuelLogForm
  import FuelLogsSlice

  /** The status chip's colour, ignoring ASCII case: completed is a
    * success, pending a warning, cancelled an error, anything else (a
    * missing status included) the default. */
  function StatusColor(statusName: Js): (c: ChipColor)
    ensures c == SuccessColor <==> LowerIs(statusName, "completed")
    ensures c == WarningColor <==> LowerIs(statusName, "pending")
    ensures c == ErrorColor <==> LowerIs(statusName, "cancelled")
    ensures c == DefaultColor <==>
      !LowerIs(statusName, "completed") && !LowerIs(statusName, "pending") && !LowerIs(statusName, "cancelled")
  {
    if LowerIs(statusName, "completed") then SuccessColor
    else if LowerIs(statusName, "pending") then WarningColor
    else if LowerIs(statusName, "cancelled") then ErrorColor
    else DefaultColor
  }

  /** The colour does not depend on the case of the status name. */
  lemma ColorIgnoresCase(s: string)
    ensures StatusColor(Str(s)) == StatusColor(Str(Text.Lower(s)))
  {
    Text.LowerIdempotent(s);
  }

  /** The entity column's name, `row.vehicleNum || row.generatorName || '-'`:
    * never empty. */
  function EntityName(row: Obj): (name: Js)
    ensures Truthy(Prop(row, "vehicleNum")) ==> name == Prop(row, "vehicleNum")
    ensures !Truthy(Prop(row, "vehicleNum")) && Truthy(Prop(row, "generatorName")) ==> name == Prop(row, "generatorName")
    ensures !Truthy(Prop(row, "vehicleNum")) && !Truthy(Prop(row, "generatorName")) ==> name == Str("-")
    ensures Truthy(name)
  {
    Or(Or(Prop(row, "vehicleNum"), Prop(row, "generatorName")), Str("-"))
  }

  /** The entity column's icon and caption: a vehicle exactly when the row's
    * `vehOid` is truthy, the same test the form's edit initialisation uses. */
  function RowEntity(row: Obj): (e: FuelLogForm.Entity)
    ensures e == FuelLogForm.VehicleEntity <==> Truthy(Prop(row, "vehOid"))
  {
    FuelLogForm.EntityOf(row)
  }

  /** A log saved from the form is labelled with the entity chosen there:
    * the generator side clears `vehOid`, and the vehicle side keeps the
    * vehicle it names. */
  lemma SavedEntityIsShown(values: Obj, e: FuelLogForm.Entity)
    requires e == FuelLogForm.VehicleEntity ==> Truthy(Prop(values, "vehOid"))
    ensures RowEntity(FuelLogForm.Cleared(values, e)) == e
  {
  }

  /** The name and the caption can disagree: a row whose `vehOid` is unset
    * but which carries a vehicle number shows that number captioned as a
    * generator. */
  lemma NameAndCaptionCanDisagree()
    ensures var row: Obj := map["vehOid" := Null, "vehicleNum" := Str("12-345")];
      EntityName(row) == Str("12-345") && RowEntity(row) == FuelLogForm.GeneratorEntity
  {
  }

  /** The table footer's rows-per-page change: the page size is set and the
    * page goes back to 0, the other filters kept. */
  method RowsPerPageChange(slice: FuelLogsSlice.FuelLogsState, pageSize: real)
    modifies slice`filters
    ensures slice.filters == PageSizePatch(old(slice.filters), pageSize)
  {
    var patch := PageSizePatch(slice.filters, pageSize);
    MergeOfSpreadPatch(slice.filters, map["pageSize" := Num(pageSize), "page" := Num(0.0)]);
    slice.SetFilters(patch);
  }
}
