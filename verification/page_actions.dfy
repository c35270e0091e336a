/** The handlers the list pages share: the delete-confirmation dialog, the
  * form submission, the feedback a handler reports after awaiting a
  * dispatched request, and the filter patches the table footer and the
  * search box dispatch. */
module PageActions {
  import opened JsValues
  import opened ClientLists

  /** The severity of the snackbar a handler shows. */
  datatype Severity = Success | Failure

  /** What a dispatched request thunk settles with. */
  datatype Settled = FulfilledAction | RejectedAction

  /** A request a handler dispatches. */
  datatype Request = CreateRequest(data: Obj) | UpdateRequest(data: Obj) | DeleteRequest(oid: Js)

  /** Whether `await dispatch(thunk)` throws: the promise a dispatched
    * request thunk returns resolves with the settled action, rejected or
    * not, so it never throws. */
  predicate AwaitedDispatchThrows(outcome: Settled)
  {
    false
  }

  /** Whether `await dispatch(thunk).unwrap()` throws: exactly for the
    * rejected action. */
  predicate UnwrapThrows(outcome: Settled)
  {
    outcome == RejectedAction
  }

  /** `try { await …; success } catch { error }`: the severity reported. */
  function TryFeedback(throws: bool): (sev: Severity)
    ensures sev == Success <==> !throws
  {
    if throws then Failure else Success
  }

  /** The severity the pages report after awaiting a dispatched request. */
  function Feedback(outcome: Settled): (sev: Severity)
  {
    TryFeedback(AwaitedDispatchThrows(outcome))
  }

  /** A rejected request is still reported as a success: the `catch`
    * branch of the pages' handlers is unreachable. */
  lemma RejectedReportsSuccess()
    ensures Feedback(RejectedAction) == Success
  {
  }

  /** The severity the handlers evidently intend: awaiting the unwrapped
    * result. */
  function UnwrappedFeedback(outcome: Settled): (sev: Severity)
  {
    TryFeedback(UnwrapThrows(outcome))
  }

  /** With the result unwrapped, success is reported exactly for a
    * fulfilled request. */
  lemma UnwrappedFeedbackIsFaithful(outcome: Settled)
    ensures UnwrappedFeedback(outcome) == Success <==> outcome == FulfilledAction
  {
  }

  /** The colour of a status chip. */
  datatype ChipColor = SuccessColor | WarningColor | ErrorColor | DefaultColor

  /** The label shown for a missing status. */
  const Unspecified := "غير محدد"

  /** A status chip's label, `statusName || 'غير محدد'`: the status name,
    * or the placeholder when it is missing or empty. */
  function ChipLabel(statusName: Js): (shown: string)
    ensures statusName.Str? && statusName.s != "" ==> shown == statusName.s
    ensures !(statusName.Str? && statusName.s != "") ==> shown == Unspecified
    ensures shown != ""
  {
    if statusName.Str? && statusName.s != "" then statusName.s else Unspecified
  }

  /** The request `handleFormSubmit` dispatches: an update while an item is
    * being edited, a create otherwise, carrying the form's data. */
  function SubmitRequest(editing: bool, data: Obj): (r: Request)
    ensures r.UpdateRequest? <==> editing
    ensures r.CreateRequest? <==> !editing
    ensures r.data == data
  {
    if editing then UpdateRequest(data) else CreateRequest(data)
  }

  /** The delete-confirmation dialog of a list page: whether it is open and
    * the item waiting for confirmation. */
  class DeleteDialog {
    var open: bool
    var pending: Option<Obj>

    /** Closed, nothing pending. */
    constructor ()
      ensures !open && pending.None?
    {
      open := false;
      pending := None;
    }

    /** `handleDelete…(item)`: remember the item and open the dialog. */
    method Request(item: Obj)
      modifies this
      ensures open && pending == Some(item)
    {
      pending := Some(item);
      open := true;
    }

    /** The dialog's close and cancel buttons: close it, keeping the item. */
    method Cancel()
      modifies this`open
      ensures !open
    {
      open := false;
    }

    /** `confirmDelete`: nothing unless an item is pending; otherwise the
      * delete of its oid is dispatched and, once it settles, the success
      * message is shown, the dialog closed and the item forgotten, whatever
      * the request's outcome. */
    method Confirm(outcome: Settled) returns (sent: Option<Request>, notice: Option<Severity>)
      modifies this
      ensures old(pending).None? ==>
        sent.None? && notice.None? && open == old(open) && pending == old(pending)
      ensures old(pending).Some? ==>
        sent == Some(DeleteRequest(OidOf(old(pending).value))) &&
        notice == Some(Feedback(outcome)) && !open && pending.None?
      ensures old(pending).Some? ==> notice == Some(Success)
    {
      sent, notice := None, None;
      if pending.Some? {
        sent := Some(DeleteRequest(OidOf(pending.value)));
        var throws := AwaitedDispatchThrows(outcome);
        notice := Some(TryFeedback(throws));
        if !throws {
          open := false;
          pending := None;
        }
      }
    }
  }

  /** What `handleFormSubmit` leaves: the request dispatched (if any), the
    * severity reported and whether the form is still open. */
  datatype Submitted = Submitted(sent: Option<Request>, notice: Severity, formOpen: bool)

  /** `handleFormSubmit` of a list page whose update is wired: the request
    * goes out, then (the `catch` being unreachable) the success message is
    * shown and the form closed. */
  function Submit(editing: bool, data: Obj, outcome: Settled): (s: Submitted)
    ensures s.sent == Some(SubmitRequest(editing, data))
    ensures s.notice == Feedback(outcome) && s.notice == Success
    ensures !s.formOpen
  {
    var throws := AwaitedDispatchThrows(outcome);
    Submitted(Some(SubmitRequest(editing, data)), TryFeedback(throws), throws)
  }

  /** The filters `setFilters` is given when the rows per page change:
    * `{ ...filters, pageSize, page: 0 }`. */
  function PageSizePatch(filters: Obj, pageSize: real): (p: Obj)
    ensures p.Keys == filters.Keys + {"pageSize", "page"}
    ensures p["pageSize"] == Num(pageSize) && p["page"] == Num(0.0)
    ensures forall k :: k in filters && k != "pageSize" && k != "page" ==> p[k] == filters[k]
  {
    Spread(filters, map["pageSize" := Num(pageSize), "page" := Num(0.0)])
  }

  /** The filters a page change gives: `{ ...filters, page }`. */
  function PagePatch(filters: Obj, page: real): (p: Obj)
    ensures p.Keys == filters.Keys + {"page"}
    ensures p["page"] == Num(page)
    ensures forall k :: k in filters && k != "page" ==> p[k] == filters[k]
  {
    Spread(filters, map["page" := Num(page)])
  }

  /** Merging a patch that already spreads the current filters gives the
    * patch itself: the slice's `setFilters` adds nothing of its own. */
  lemma MergeOfSpreadPatch(filters: Obj, extra: Obj)
    ensures Spread(filters, Spread(filters, extra)) == Spread(filters, extra)
  {
  }

  /** After a rows-per-page change the filters ask for page 0, while the
    * slice's initial and cleared filters ask for page 1. */
  lemma PageSizeResetDisagreesWithClear(filters: Obj, pageSize: real)
    ensures Prop(Spread(filters, PageSizePatch(filters, pageSize)), "page") == Num(0.0)
    ensures Prop(InitialFilters, "page") == Num(1.0)
  {
  }
}
