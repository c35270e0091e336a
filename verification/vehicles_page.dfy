/** The vehicles page: the search button, the status chip and the table
  * footer's rows-per-page change. The delete dialog is the shared
  * `PageActions.DeleteDialog`. */
module VehiclesPage {
  import opened JsValues
  import Text
  import opened ClientLists
  import opened PageActions
  import VehiclesSlice

  /** The status chip's colour: 'active' in any ASCII case is a success,
    * 'inactive' an error, anything else (a missing status included) the
    * default. */
  function StatusColor(statusName: Js): (c: ChipColor)
    ensures c == SuccessColor <==> LowerIs(statusName, "active")
    ensures c == ErrorColor <==> LowerIs(statusName, "inactive")
    ensures c == DefaultColor <==> !LowerIs(statusName, "active") && !LowerIs(statusName, "inactive")
    ensures c != WarningColor
  {
    if LowerIs(statusName, "active") then SuccessColor
    else if LowerIs(statusName, "inactive") then ErrorColor
    else DefaultColor
  }

  /** The colour does not depend on the case of the status name. */
  lemma ColorIgnoresCase(s: string)
    ensures StatusColor(Str(s)) == StatusColor(Str(Text.Lower(s)))
  {
    Text.LowerIdempotent(s);
  }

  /** `{ ...filters, vehicleNum: searchTerm, page: 0 }`. */
  function SearchPatch(filters: Obj, searchTerm: string): (p: Obj)
    ensures p.Keys == filters.Keys + {"vehicleNum", "page"}
    ensures p["vehicleNum"] == Str(searchTerm) && p["page"] == Num(0.0)
    ensures forall k :: k in filters && k != "vehicleNum" && k != "page" ==> p[k] == filters[k]
  {
    Spread(filters, map["vehicleNum" := Str(searchTerm), "page" := Num(0.0)])
  }

  /** `handleSearch`: the vehicle-number filter becomes the search text and
    * the page goes back to 0, the other filters kept. */
  method HandleSearch(slice: VehiclesSlice.VehiclesState, searchTerm: string)
    modifies slice`filters
    ensures slice.filters == SearchPatch(old(slice.filters), searchTerm)
  {
    var patch := SearchPatch(slice.filters, searchTerm);
    MergeOfSpreadPatch(slice.filters, map["vehicleNum" := Str(searchTerm), "page" := Num(0.0)]);
    slice.SetFilters(patch);
  }

  /** An empty search is still sent: the next fetch's query string names
    * `vehicleNum`, since an empty string is neither undefined nor null. */
  lemma EmptySearchIsSent(filters: Obj, entries: seq<(string, Js)>, showNum: real -> string, showDate: Instant -> string)
    requires Lists(entries, SearchPatch(filters, ""))
    ensures exists p :: p in ParamsOf(entries, showNum, showDate) && p.0 == "vehicleNum"
  {
    ParamsNameSetFilters(entries, SearchPatch(filters, ""), showNum, showDate, "vehicleNum");
  }

  /** The table footer's rows-per-page change: the page size is set and the
    * page goes back to 0, the other filters kept. */
  method RowsPerPageChange(slice: VehiclesSlice.VehiclesState, pageSize: real)
    modifies slice`filters
    ensures slice.filters == PageSizePatch(old(slice.filters), pageSize)
  {
    var patch := PageSizePatch(slice.filters, pageSize);
    MergeOfSpreadPatch(slice.filters, map["pageSize" := Num(pageSize), "page" := Num(0.0)]);
    slice.SetFilters(patch);
  }
}
