/** The invoices (gas bills) slice of the client store: the loaded page of
  * invoices, the selected one, the request flags, the filters and the
  * pagination of the last fetch. Only fetch and create have reducer cases,
  * so the list changes through nothing else. Each case is one method. */
module InvoicesSlice {
  import opened JsValues
  import opened ClientLists

  class InvoicesState {
    var invoices: seq<Obj>
    var selectedInvoice: Option<Obj>
    var loading: bool
    var error: Option<string>
    var filters: Obj
    var pagination: Pagination

    /** `initialState`. */
    constructor ()
      ensures invoices == [] && selectedInvoice.None? && !loading && error.None?
      ensures filters == InitialFilters && pagination == InitialPagination
    {
      invoices := [];
      selectedInvoice := None;
      loading := false;
      error := None;
      filters := InitialFilters;
      pagination := InitialPagination;
    }

    /** `setFilters`: the payload is laid over the current filters. */
    method SetFilters(payload: Obj)
      modifies this`filters
      ensures filters == Spread(old(filters), payload)
    {
      filters := Spread(filters, payload);
    }

    /** `clearFilters`. */
    method ClearFilters()
      modifies this`filters
      ensures filters == InitialFilters
    {
      filters := InitialFilters;
    }

    /** `setSelectedInvoice`. */
    method SetSelectedInvoice(v: Option<Obj>)
      modifies this`selectedInvoice
      ensures selectedInvoice == v
    {
      selectedInvoice := v;
    }

    /** `clearError`. */
    method ClearError()
      modifies this`error
      ensures error.None?
    {
      error := None;
    }

    /** The `pending` case of each of the two requests. */
    method Pending()
      modifies this`loading, this`error
      ensures loading && error.None?
    {
      loading := true;
      error := None;
    }

    /** The `rejected` case of each of the two requests: the message the
      * request was rejected with becomes the error. */
    method Rejected(message: string)
      modifies this`loading, this`error
      ensures !loading && error == Some(message)
    {
      loading := false;
      error := Some(message);
    }

    /** `fetchInvoicesAsync.fulfilled`: the page replaces the list and its
      * counters replace the pagination. */
    method FetchFulfilled(payload: Paginated)
      modifies this`loading, this`invoices, this`pagination
      ensures !loading && invoices == payload.data
      ensures pagination == Pagination(payload.total, payload.page, payload.pageSize, payload.totalPages)
    {
      loading := false;
      invoices := payload.data;
      pagination := Pagination(payload.total, payload.page, payload.pageSize, payload.totalPages);
    }

    /** `createInvoiceAsync.fulfilled`: the new invoice goes at the front
      * (`unshift`). */
    method CreateFulfilled(v: Obj)
      modifies this`loading, this`invoices
      ensures !loading && invoices == [v] + old(invoices)
    {
      loading := false;
      invoices := [v] + invoices;
    }
  }
}
