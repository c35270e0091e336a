/** The vehicles slice of the client store: the loaded page of vehicles,
  * the selected vehicle, the request flags, the filters and the pagination
  * of the last fetch. Each reducer case is one method. */
module VehiclesSlice {
  import opened JsValues
  import opened ClientLists

  class VehiclesState {
    var vehicles: seq<Obj>
    var selectedVehicle: Option<Obj>
    var loading: bool
    var error: Option<string>
    var filters: Obj
    var pagination: Pagination

    /** `initialState`. */
    constructor ()
      ensures vehicles == [] && selectedVehicle.None? && !loading && error.None?
      ensures filters == InitialFilters && pagination == InitialPagination
    {
      vehicles := [];
      selectedVehicle := None;
      loading := false;
      error := None;
      filters := InitialFilters;
      pagination := InitialPagination;
    }

    /** `setFilters`: the payload is laid over the current filters. */
    method SetFilters(payload: Obj)
      modifies this`filters
      ensures filters == Spread(old(filters), payload)
    {
      filters := Spread(filters, payload);
    }

    /** `clearFilters`. */
    method ClearFilters()
      modifies this`filters
      ensures filters == InitialFilters
    {
      filters := InitialFilters;
    }

    /** `setSelectedVehicle`. */
    method SetSelectedVehicle(v: Option<Obj>)
      modifies this`selectedVehicle
      ensures selectedVehicle == v
    {
      selectedVehicle := v;
    }

    /** `clearError`. */
    method ClearError()
      modifies this`error
      ensures error.None?
    {
      error := None;
    }

    /** The `pending` case of each of the five requests. */
    method Pending()
      modifies this`loading, this`error
      ensures loading && error.None?
    {
      loading := true;
      error := None;
    }

    /** The `rejected` case of each of the five requests: the message the
      * request was rejected with becomes the error. */
    method Rejected(message: string)
      modifies this`loading, this`error
      ensures !loading && error == Some(message)
    {
      loading := false;
      error := Some(message);
    }

    /** `fetchVehiclesAsync.fulfilled`: the page replaces the list and its
      * counters replace the pagination. */
    method FetchFulfilled(payload: Paginated)
      modifies this`loading, this`vehicles, this`pagination
      ensures !loading && vehicles == payload.data
      ensures pagination == Pagination(payload.total, payload.page, payload.pageSize, payload.totalPages)
    {
      loading := false;
      vehicles := payload.data;
      pagination := Pagination(payload.total, payload.page, payload.pageSize, payload.totalPages);
    }

    /** `fetchVehicleByIdAsync.fulfilled`. */
    method FetchByIdFulfilled(v: Obj)
      modifies this`loading, this`selectedVehicle
      ensures !loading && selectedVehicle == Some(v)
    {
      loading := false;
      selectedVehicle := Some(v);
    }

    /** `createVehicleAsync.fulfilled`: the new vehicle goes at the end. */
    method CreateFulfilled(v: Obj)
      modifies this`loading, this`vehicles
      ensures !loading && vehicles == old(vehicles) + [v]
    {
      loading := false;
      vehicles := vehicles + [v];
    }

    /** `updateVehicleAsync.fulfilled`: the first vehicle with the payload's
      * oid is overwritten, and the selection is refreshed when it has that
      * oid. */
    method UpdateFulfilled(v: Obj)
      modifies this`loading, this`vehicles, this`selectedVehicle
      ensures !loading && vehicles == Overwrite(old(vehicles), v)
      ensures SelectedOid(old(selectedVehicle)) == OidOf(v) ==> selectedVehicle == Some(v)
      ensures SelectedOid(old(selectedVehicle)) != OidOf(v) ==> selectedVehicle == old(selectedVehicle)
    {
      loading := false;
      var index := FindIndex(vehicles, OidOf(v));
      if index != -1 {
        vehicles := vehicles[index := v];
      }
      if SelectedOid(selectedVehicle) == OidOf(v) {
        selectedVehicle := Some(v);
      }
    }

    /** `deleteVehicleAsync.fulfilled`: every vehicle with that oid goes, and
      * so does the selection when it has it. */
    method DeleteFulfilled(id: real)
      modifies this`loading, this`vehicles, this`selectedVehicle
      ensures !loading && vehicles == RemoveOid(old(vehicles), Num(id))
      ensures SelectedOid(old(selectedVehicle)) == Num(id) ==> selectedVehicle.None?
      ensures SelectedOid(old(selectedVehicle)) != Num(id) ==> selectedVehicle == old(selectedVehicle)
    {
      loading := false;
      vehicles := RemoveOid(vehicles, Num(id));
      if SelectedOid(selectedVehicle) == Num(id) {
        selectedVehicle := None;
      }
    }
  }
}
