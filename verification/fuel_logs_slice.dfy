/** The fuel-logs slice of the client store: the loaded page of fuel logs,
  * the selected log, the request flags, the filters and the pagination
  * of the last fetch. Each reducer case is one method. */
module FuelLogsSlice {
  import opened JsValues
  import opened ClientLists

  class FuelLogsState {
    var fuelLogs: seq<Obj>
    var selectedFuelLog: Option<Obj>
    var loading: bool
    var error: Option<string>
    var filters: Obj
    var pagination: Pagination

    /** `initialState`. */
    constructor ()
      ensures fuelLogs == [] && selectedFuelLog.None? && !loading && error.None?
      ensures filters == InitialFilters && pagination == InitialPagination
    {
      fuelLogs := [];
      selectedFuelLog := None;
      loading := false;
      error := None;
      filters := InitialFilters;
      pagination := InitialPagination;
    }

    /** `setFilters`: the payload is laid over the current filters. */
    method SetFilters(payload: Obj)
      modifies this`filters
      ensures filters == Spread(old(filters), payload)
    {
      filters := Spread(filters, payload);
    }

    /** `clearFilters`. */
    method ClearFilters()
      modifies this`filters
      ensures filters == InitialFilters
    {
      filters := InitialFilters;
    }

    /** `setSelectedFuelLog`. */
    method SetSelectedFuelLog(v: Option<Obj>)
      modifies this`selectedFuelLog
      ensures selectedFuelLog == v
    {
      selectedFuelLog := v;
    }

    /** `clearError`. */
    method ClearError()
      modifies this`error
      ensures error.None?
    {
      error := None;
    }

    /** The `pending` case of each of the four requests. */
    method Pending()
      modifies this`loading, this`error
      ensures loading && error.None?
    {
      loading := true;
      error := None;
    }

    /** The `rejected` case of each of the four requests: the message the
      * request was rejected with becomes the error. */
    method Rejected(message: string)
      modifies this`loading, this`error
      ensures !loading && error == Some(message)
    {
      loading := false;
      error := Some(message);
    }

    /** `fetchFuelLogsAsync.fulfilled`: the page replaces the list and its
      * counters replace the pagination. */
    method FetchFulfilled(payload: Paginated)
      modifies this`loading, this`fuelLogs, this`pagination
      ensures !loading && fuelLogs == payload.data
      ensures pagination == Pagination(payload.total, payload.page, payload.pageSize, payload.totalPages)
    {
      loading := false;
      fuelLogs := payload.data;
      pagination := Pagination(payload.total, payload.page, payload.pageSize, payload.totalPages);
    }

    /** `createFuelLogAsync.fulfilled`: the new log goes at the front
      * (`unshift`). */
    method CreateFulfilled(v: Obj)
      modifies this`loading, this`fuelLogs
      ensures !loading && fuelLogs == [v] + old(fuelLogs)
    {
      loading := false;
      fuelLogs := [v] + fuelLogs;
    }

    /** `updateFuelLogAsync.fulfilled`: the first log with the payload's
      * oid is overwritten, and the selection is refreshed when it has that
      * oid. */
    method UpdateFulfilled(v: Obj)
      modifies this`loading, this`fuelLogs, this`selectedFuelLog
      ensures !loading && fuelLogs == Overwrite(old(fuelLogs), v)
      ensures SelectedOid(old(selectedFuelLog)) == OidOf(v) ==> selectedFuelLog == Some(v)
      ensures SelectedOid(old(selectedFuelLog)) != OidOf(v) ==> selectedFuelLog == old(selectedFuelLog)
    {
      loading := false;
      var index := FindIndex(fuelLogs, OidOf(v));
      if index != -1 {
        fuelLogs := fuelLogs[index := v];
      }
      if SelectedOid(selectedFuelLog) == OidOf(v) {
        selectedFuelLog := Some(v);
      }
    }

    /** `deleteFuelLogAsync.fulfilled`: every log with that oid goes, and
      * so does the selection when it has it. */
    method DeleteFulfilled(id: real)
      modifies this`loading, this`fuelLogs, this`selectedFuelLog
      ensures !loading && fuelLogs == RemoveOid(old(fuelLogs), Num(id))
      ensures SelectedOid(old(selectedFuelLog)) == Num(id) ==> selectedFuelLog.None?
      ensures SelectedOid(old(selectedFuelLog)) != Num(id) ==> selectedFuelLog == old(selectedFuelLog)
    {
      loading := false;
      fuelLogs := RemoveOid(fuelLogs, Num(id));
      if SelectedOid(selectedFuelLog) == Num(id) {
        selectedFuelLog := None;
      }
    }
  }
}
