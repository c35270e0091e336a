/** The inventory slice of the client store: the current gas-store
  * snapshot, the snapshot history and one request-flag pair shared by both
  * fetches. */
module InventorySlice {
  import opened JsValues

  class InventoryState {
    var currentInventory: Option<Obj>
    var inventoryHistory: seq<Obj>
    var loading: bool
    var error: Option<string>

    /** `initialState`. */
    constructor ()
      ensures currentInventory.None? && inventoryHistory == [] && !loading && error.None?
    {
      currentInventory := None;
      inventoryHistory := [];
      loading := false;
      error := None;
    }

    /** `clearError`: only the error changes. */
    method ClearError()
      modifies this`error
      ensures error.None?
    {
      error := None;
    }

    /** The `pending` case of either fetch. Both share `loading`, so it
      * tells the last transition, not whether a request is outstanding. */
    method Pending()
      modifies this`loading, this`error
      ensures loading && error.None?
    {
      loading := true;
      error := None;
    }

    /** The `rejected` case of either fetch. */
    method Rejected(message: string)
      modifies this`loading, this`error
      ensures !loading && error == Some(message)
    {
      loading := false;
      error := Some(message);
    }

    /** `fetchCurrentInventoryAsync.fulfilled`: only the current snapshot
      * changes, and the flag drops. */
    method CurrentFulfilled(snapshot: Obj)
      modifies this`loading, this`currentInventory
      ensures !loading && currentInventory == Some(snapshot)
    {
      loading := false;
      currentInventory := Some(snapshot);
    }

    /** `fetchInventoryHistoryAsync.fulfilled`: only the history changes,
      * and the flag drops. */
    method HistoryFulfilled(history: seq<Obj>)
      modifies this`loading, this`inventoryHistory
      ensures !loading && inventoryHistory == history
    {
      loading := false;
      inventoryHistory := history;
    }
  }

  /** Both fetches started, then one finished: the flag already reads "not
    * loading" although the other request is still outstanding. */
  method SharedFlag(snapshot: Obj) returns (loadingAfter: bool)
    ensures !loadingAfter
  {
    var state := new InventoryState();
    state.Pending();
    state.Pending();
    state.CurrentFulfilled(snapshot);
    loadingAfter := state.loading;
  }
}
