/** The invoices page: the summary cards over the loaded invoices, the
  * per-row total, the currency label, the form submission and the table
  * footer's rows-per-page change. */
module InvoicesPage {
  import opened JsValues
  import opened ClientLists
  import opened PageActions
  import InvoiceForm
  import InvoicesSlice

  /** `invoice.quantity || 0`. */
  function Quantity(invoice: Obj): real
  {
    OrZero(Prop(invoice, "quantity"))
  }

  /** The per-row total of the amount column, the same product the form
    * shows: `(quantity || 0) * (price || 0)`. */
  function RowTotal(invoice: Obj): real
  {
    InvoiceForm.TotalAmount(invoice)
  }

  /** `totalQuantity`: the quantities added up in list order. */
  function QuantitySum(invoices: seq<Obj>): (t: real)
    ensures (forall i :: 0 <= i < |invoices| ==> !Truthy(Prop(invoices[i], "quantity"))) ==> t == 0.0
    ensures (forall i :: 0 <= i < |invoices| ==> Quantity(invoices[i]) >= 0.0) ==> t >= 0.0
  {
    if invoices == [] then 0.0
    else QuantitySum(invoices[..|invoices| - 1]) + Quantity(invoices[|invoices| - 1])
  }

  /** `totalAmount`: the per-row products added up in list order. A row
    * missing its quantity or its price adds nothing. */
  function AmountSum(invoices: seq<Obj>): (t: real)
    ensures (forall i :: 0 <= i < |invoices| ==>
      !Truthy(Prop(invoices[i], "quantity")) || !Truthy(Prop(invoices[i], "price"))) ==> t == 0.0
  {
    if invoices == [] then 0.0
    else AmountSum(invoices[..|invoices| - 1]) + RowTotal(invoices[|invoices| - 1])
  }

  /** The summary cards: the number of invoices, the amount, the quantity. */
  datatype Summary = Summary(totalInvoices: nat, totalAmount: real, totalQuantity: real)

  function SummaryOf(invoices: seq<Obj>): (s: Summary)
    ensures s.totalInvoices == |invoices|
    ensures invoices == [] ==> s.totalAmount == 0.0 && s.totalQuantity == 0.0
  {
    Summary(|invoices|, AmountSum(invoices), QuantitySum(invoices))
  }

  /** The average price card: `totalAmount / totalQuantity` while the total
    * quantity is positive, otherwise the card shows '0'. */
  function AveragePrice(s: Summary): (avg: Option<real>)
    ensures avg.Some? <==> s.totalQuantity > 0.0
    ensures avg.Some? ==> avg.value * s.totalQuantity == s.totalAmount
  {
    if s.totalQuantity > 0.0 then Some(s.totalAmount / s.totalQuantity) else None
  }

  /** The amount column, one row total per invoice. */
  function AmountColumn(invoices: seq<Obj>): (col: seq<real>)
    ensures |col| == |invoices|
    ensures forall i :: 0 <= i < |invoices| ==> col[i] == RowTotal(invoices[i])
  {
    seq(|invoices|, i requires 0 <= i < |invoices| => RowTotal(invoices[i]))
  }

  /** Adds a column up in order. */
  function Sum(xs: seq<real>): real
  {
    if xs == [] then 0.0 else Sum(xs[..|xs| - 1]) + xs[|xs| - 1]
  }

  /** The amount column adds up to the total amount card. */
  lemma {:induction false} ColumnSumsToTotal(invoices: seq<Obj>)
    ensures Sum(AmountColumn(invoices)) == AmountSum(invoices)
  {
    if invoices != [] {
      var init := invoices[..|invoices| - 1];
      ColumnSumsToTotal(init);
      assert AmountColumn(invoices)[..|invoices| - 1] == AmountColumn(init);
    }
  }

  /** Both totals split over a concatenation of lists. */
  lemma {:induction false} SumsSplit(a: seq<Obj>, b: seq<Obj>)
    ensures AmountSum(a + b) == AmountSum(a) + AmountSum(b)
    ensures QuantitySum(a + b) == QuantitySum(a) + QuantitySum(b)
  {
    if b != [] {
      var init := b[..|b| - 1];
      SumsSplit(a, init);
      assert (a + b)[..|a + b| - 1] == a + init;
    } else {
      assert a + b == a;
    }
  }

  /** The (quantity, price) pair each row multiplies. */
  function Rows(invoices: seq<Obj>): (rs: seq<(real, real)>)
    ensures |rs| == |invoices|
    ensures forall i :: 0 <= i < |invoices| ==>
      rs[i] == (Quantity(invoices[i]), OrZero(Prop(invoices[i], "price")))
  {
    seq(|invoices|, i requires 0 <= i < |invoices| =>
      (Quantity(invoices[i]), OrZero(Prop(invoices[i], "price"))))
  }

  /** The weights of a list of (quantity, price) pairs. */
  function Weight(rs: seq<(real, real)>): real
  {
    if rs == [] then 0.0 else Weight(rs[..|rs| - 1]) + rs[|rs| - 1].0
  }

  /** The weighted sum of a list of (quantity, price) pairs. */
  function Weighted(rs: seq<(real, real)>): real
  {
    if rs == [] then 0.0 else Weighted(rs[..|rs| - 1]) + rs[|rs| - 1].0 * rs[|rs| - 1].1
  }

  /** The two cards are the weight and the weighted sum of the rows. */
  lemma {:induction false} SumsAreWeighted(invoices: seq<Obj>)
    ensures QuantitySum(invoices) == Weight(Rows(invoices))
    ensures AmountSum(invoices) == Weighted(Rows(invoices))
  {
    QuantityIsWeight(invoices);
    AmountIsWeighted(invoices);
  }

  lemma {:induction false} QuantityIsWeight(invoices: seq<Obj>)
    ensures QuantitySum(invoices) == Weight(Rows(invoices))
  {
    if invoices != [] {
      var init := invoices[..|invoices| - 1];
      QuantityIsWeight(init);
      assert Rows(invoices)[..|invoices| - 1] == Rows(init);
    }
  }

  lemma {:induction false} AmountIsWeighted(invoices: seq<Obj>)
    ensures AmountSum(invoices) == Weighted(Rows(invoices))
  {
    if invoices != [] {
      AmountIsWeighted(invoices[..|invoices| - 1]);
      WeightedLastRow(invoices);
    }
  }

  /** The weighted sum grows by the last row's total. */
  lemma WeightedLastRow(invoices: seq<Obj>)
    requires invoices != []
    ensures Weighted(Rows(invoices)) ==
      Weighted(Rows(invoices[..|invoices| - 1])) + RowTotal(invoices[|invoices| - 1])
  {
    var last := invoices[|invoices| - 1];
    var rs := Rows(invoices);
    assert rs[..|invoices| - 1] == Rows(invoices[..|invoices| - 1]);
    assert rs[|rs| - 1] == (Quantity(last), OrZero(Prop(last, "price")));
  }

  lemma StepLow(a0: real, q0: real, q: real, p: real, lo: real)
    requires lo * q0 <= a0 && q >= 0.0 && lo <= p
    ensures lo * (q0 + q) <= a0 + q * p
  {
    assert q * (p - lo) >= 0.0;
  }

  lemma StepHigh(a0: real, q0: real, q: real, p: real, hi: real)
    requires a0 <= hi * q0 && q >= 0.0 && p <= hi
    ensures a0 + q * p <= hi * (q0 + q)
  {
    assert q * (hi - p) >= 0.0;
  }

  /** With non-negative weights and every price at least `lo`, the weighted
    * sum is at least `lo` times the weight. */
  lemma {:induction false} WeightedAtLeast(rs: seq<(real, real)>, lo: real)
    requires forall i :: 0 <= i < |rs| ==> rs[i].0 >= 0.0 && lo <= rs[i].1
    ensures lo * Weight(rs) <= Weighted(rs)
  {
    if rs != [] {
      var n := |rs| - 1;
      var init := rs[..n];
      assert forall i :: 0 <= i < n ==> init[i] == rs[i];
      WeightedAtLeast(init, lo);
      var q0, a0 := Weight(init), Weighted(init);
      var q, p := rs[n].0, rs[n].1;
      assert lo * q0 <= a0;
      StepLow(a0, q0, q, p, lo);
      assert Weight(rs) == q0 + q;
      assert Weighted(rs) == a0 + q * p;
    }
  }

  /** With non-negative weights and every price at most `hi`, the weighted
    * sum is at most `hi` times the weight. */
  lemma {:induction false} WeightedAtMost(rs: seq<(real, real)>, hi: real)
    requires forall i :: 0 <= i < |rs| ==> rs[i].0 >= 0.0 && rs[i].1 <= hi
    ensures Weighted(rs) <= hi * Weight(rs)
  {
    if rs != [] {
      var n := |rs| - 1;
      var init := rs[..n];
      assert forall i :: 0 <= i < n ==> init[i] == rs[i];
      WeightedAtMost(init, hi);
      var q0, a0 := Weight(init), Weighted(init);
      var q, p := rs[n].0, rs[n].1;
      assert a0 <= hi * q0;
      StepHigh(a0, q0, q, p, hi);
      assert Weight(rs) == q0 + q;
      assert Weighted(rs) == a0 + q * p;
    }
  }

  /** `a` lies between `lo` and `hi` times `w`. */
  predicate Between(lo: real, hi: real, w: real, a: real)
  {
    lo * w <= a <= hi * w
  }

  /** With non-negative quantities and every price between `lo` and `hi`,
    * the total amount lies between `lo` and `hi` times the total quantity. */
  lemma {:induction false} AmountWithinPrices(invoices: seq<Obj>, lo: real, hi: real)
    requires forall i :: 0 <= i < |invoices| ==>
      Quantity(invoices[i]) >= 0.0 && lo <= OrZero(Prop(invoices[i], "price")) <= hi
    ensures Between(lo, hi, QuantitySum(invoices), AmountSum(invoices))
  {
    var rs := Rows(invoices);
    assert forall i :: 0 <= i < |rs| ==> rs[i].0 >= 0.0 && lo <= rs[i].1 <= hi;
    SumsAreWeighted(invoices);
    WeightedWithin(rs, lo, hi, QuantitySum(invoices), AmountSum(invoices));
  }

  lemma {:induction false} WeightedWithin(rs: seq<(real, real)>, lo: real, hi: real, w: real, a: real)
    requires forall i :: 0 <= i < |rs| ==> rs[i].0 >= 0.0 && lo <= rs[i].1 <= hi
    requires w == Weight(rs) && a == Weighted(rs)
    ensures Between(lo, hi, w, a)
  {
    WeightedAtLeast(rs, lo);
    WeightedAtMost(rs, hi);
  }

  /** An amount between `lo` and `hi` times a positive quantity divides to
    * a price between them. */
  lemma QuotientBounds(a: real, q: real, lo: real, hi: real)
    requires q > 0.0 && lo * q <= a <= hi * q
    ensures lo <= a / q <= hi
  {
    assert (a / q) * q == a;
  }

  /** With non-negative quantities and every price between `lo` and `hi`,
    * the average price card, when shown, is a price between the two: it
    * never lies outside the cheapest and the dearest invoice. */
  lemma {:induction false} AverageWithinPrices(invoices: seq<Obj>, lo: real, hi: real)
    requires forall i :: 0 <= i < |invoices| ==>
      Quantity(invoices[i]) >= 0.0 && lo <= OrZero(Prop(invoices[i], "price")) <= hi
    requires AveragePrice(SummaryOf(invoices)).Some?
    ensures lo <= AveragePrice(SummaryOf(invoices)).value <= hi
  {
    AmountWithinPrices(invoices, lo, hi);
    QuotientBounds(AmountSum(invoices), QuantitySum(invoices), lo, hi);
  }

  const Shekel := " شيكل"

  /** `formatCurrency(amount)`: '0' for a zero amount, otherwise the
    * formatted number followed by the currency name. */
  function FormatCurrency(amount: real, showNum: real -> string): (r: string)
    ensures amount == 0.0 ==> r == "0"
    ensures amount != 0.0 ==> |r| >= |Shekel| && r[|r| - |Shekel|..] == Shekel
  {
    if amount == 0.0 then "0" else showNum(amount) + Shekel
  }

  /** A row without a quantity shows a total of '0'. */
  lemma MissingQuantityShowsZero(invoice: Obj, showNum: real -> string)
    requires !Truthy(Prop(invoice, "quantity"))
    ensures FormatCurrency(RowTotal(invoice), showNum) == "0"
  {
  }

  /** `handleFormSubmit`: creating dispatches the create and closes the
    * form; editing dispatches nothing, since the update call is commented
    * out, yet reports success and closes the form as well. */
  function Submit(editing: bool, data: Obj, outcome: Settled): (s: Submitted)
    ensures editing ==> s.sent.None?
    ensures !editing ==> s.sent == Some(CreateRequest(data))
    ensures s.notice == Success && !s.formOpen
  {
    if editing then Submitted(None, Success, false)
    else
      var throws := AwaitedDispatchThrows(outcome);
      Submitted(Some(CreateRequest(data)), TryFeedback(throws), throws)
  }

  /** No submission of this page ever dispatches an update. */
  lemma NeverUpdates(editing: bool, data: Obj, outcome: Settled)
    ensures Submit(editing, data, outcome).sent.None? || Submit(editing, data, outcome).sent.value.CreateRequest?
  {
  }

  /** The table footer's rows-per-page change: the page size is set and the
    * page goes back to 0, the other filters kept. */
  method RowsPerPageChange(slice: InvoicesSlice.InvoicesState, pageSize: real)
    modifies slice`filters
    ensures slice.filters == PageSizePatch(old(slice.filters), pageSize)
  {
    var patch := PageSizePatch(slice.filters, pageSize);
    MergeOfSpreadPatch(slice.filters, map["pageSize" := Num(pageSize), "page" := Num(0.0)]);
    slice.SetFilters(patch);
  }
}
