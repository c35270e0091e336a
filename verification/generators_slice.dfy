/** The generators slice of the client store: the loaded generators, the
  * selected one and the request flags; it keeps no filters and no
  * pagination. Each reducer case is one method. */
module GeneratorsSlice {
  import opened JsValues
  import opened ClientLists

  class GeneratorsState {
    var generators: seq<Obj>
    var selectedGenerator: Option<Obj>
    var loading: bool
    var error: Option<string>

    /** `initialState`. */
    constructor ()
      ensures generators == [] && selectedGenerator.None? && !loading && error.None?
    {
      generators := [];
      selectedGenerator := None;
      loading := false;
      error := None;
    }

    /** `setSelectedGenerator`. */
    method SetSelectedGenerator(v: Option<Obj>)
      modifies this`selectedGenerator
      ensures selectedGenerator == v
    {
      selectedGenerator := v;
    }

    /** `clearError`. */
    method ClearError()
      modifies this`error
      ensures error.None?
    {
      error := None;
    }

    /** The `pending` case of each of the five requests. */
    method Pending()
      modifies this`loading, this`error
      ensures loading && error.None?
    {
      loading := true;
      error := None;
    }

    /** The `rejected` case of each of the five requests: the message the
      * request was rejected with becomes the error. */
    method Rejected(message: string)
      modifies this`loading, this`error
      ensures !loading && error == Some(message)
    {
      loading := false;
      error := Some(message);
    }

    /** `fetchGeneratorsAsync.fulfilled`: the answer replaces the list. */
    method FetchFulfilled(payload: seq<Obj>)
      modifies this`loading, this`generators
      ensures !loading && generators == payload
    {
      loading := false;
      generators := payload;
    }

    /** `fetchGeneratorByIdAsync.fulfilled`. */
    method FetchByIdFulfilled(v: Obj)
      modifies this`loading, this`selectedGenerator
      ensures !loading && selectedGenerator == Some(v)
    {
      loading := false;
      selectedGenerator := Some(v);
    }

    /** `createGeneratorAsync.fulfilled`: the new generator goes at the end. */
    method CreateFulfilled(v: Obj)
      modifies this`loading, this`generators
      ensures !loading && generators == old(generators) + [v]
    {
      loading := false;
      generators := generators + [v];
    }

    /** `updateGeneratorAsync.fulfilled`: the first generator with the payload's
      * oid is overwritten, and the selection is refreshed when it has that
      * oid. */
    method UpdateFulfilled(v: Obj)
      modifies this`loading, this`generators, this`selectedGenerator
      ensures !loading && generators == Overwrite(old(generators), v)
      ensures SelectedOid(old(selectedGenerator)) == OidOf(v) ==> selectedGenerator == Some(v)
      ensures SelectedOid(old(selectedGenerator)) != OidOf(v) ==> selectedGenerator == old(selectedGenerator)
    {
      loading := false;
      var index := FindIndex(generators, OidOf(v));
      if index != -1 {
        generators := generators[index := v];
      }
      if SelectedOid(selectedGenerator) == OidOf(v) {
        selectedGenerator := Some(v);
      }
    }

    /** `deleteGeneratorAsync.fulfilled`: every generator with that oid goes, and
      * so does the selection when it has it. */
    method DeleteFulfilled(id: real)
      modifies this`loading, this`generators, this`selectedGenerator
      ensures !loading && generators == RemoveOid(old(generators), Num(id))
      ensures SelectedOid(old(selectedGenerator)) == Num(id) ==> selectedGenerator.None?
      ensures SelectedOid(old(selectedGenerator)) != Num(id) ==> selectedGenerator == old(selectedGenerator)
    {
      loading := false;
      generators := RemoveOid(generators, Num(id));
      if SelectedOid(selectedGenerator) == Num(id) {
        selectedGenerator := None;
      }
    }
  }
}
