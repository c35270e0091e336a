/** The stations slice of the client store: the station list and the
  * request flags of its one fetch. */
module StationsSlice {
  import opened JsValues

  class StationsState {
    var stations: seq<Obj>
    var loading: bool
    var error: Option<string>

    /** `initialState`: no stations, not loading, no error. */
    constructor ()
      ensures stations == [] && !loading && error.None?
    {
      stations := [];
      loading := false;
      error := None;
    }

    /** `clearError`: only the error changes. */
    method ClearError()
      modifies this`error
      ensures error.None?
    {
      error := None;
    }

    /** `fetchStationsAsync.pending`. */
    method Pending()
      modifies this`loading, this`error
      ensures loading && error.None?
    {
      loading := true;
      error := None;
    }

    /** `fetchStationsAsync.fulfilled`: the answer replaces the list. */
    method Fulfilled(payload: seq<Obj>)
      modifies this`loading, this`stations
      ensures !loading && stations == payload
    {
      loading := false;
      stations := payload;
    }

    /** `fetchStationsAsync.rejected`. */
    method Rejected(message: string)
      modifies this`loading, this`error
      ensures !loading && error == Some(message)
    {
      loading := false;
      error := Some(message);
    }
  }
}
