/** The recent-movements table of the dashboard: its status colours and
  * texts, the rows it shows and the "show all" link. */
module RecentMovementsTable {
  import opened JsValues
  import Text
  import opened PageActions
  import FuelLogForm

  const Completed := "مكتمل"
  const Pending := "قيد الانتظار"
  const Cancelled := "ملغي"

  /** `getStatusColor`: the English status in any ASCII case or its Arabic
    * text picks the colour; anything else, a missing status included, is
    * the default. */
  function StatusColor(status: Js): (c: ChipColor)
    ensures c == SuccessColor <==> LowerIs(status, "completed") || LowerIs(status, Completed)
    ensures c == WarningColor <==> LowerIs(status, "pending") || LowerIs(status, Pending)
    ensures c == ErrorColor <==> LowerIs(status, "cancelled") || LowerIs(status, Cancelled)
  {
    var key := LowerOpt(status);
    if key == Str("completed") || key == Str(Completed) then SuccessColor
    else if key == Str("pending") || key == Str(Pending) then WarningColor
    else if key == Str("cancelled") || key == Str(Cancelled) then ErrorColor
    else DefaultColor
  }

  /** `getStatusText`: the three English statuses, in any ASCII case, are
    * translated; any other status is shown as it is, and a missing or empty
    * one as the placeholder. */
  function StatusText(status: Js): (t: string)
    ensures LowerIs(status, "completed") ==> t == Completed
    ensures LowerIs(status, "pending") ==> t == Pending
    ensures LowerIs(status, "cancelled") ==> t == Cancelled
    ensures !LowerIs(status, "completed") && !LowerIs(status, "pending") && !LowerIs(status, "cancelled") ==>
      t == ChipLabel(status)
    ensures t != ""
  {
    var key := LowerOpt(status);
    if key == Str("completed") then Completed
    else if key == Str("pending") then Pending
    else if key == Str("cancelled") then Cancelled
    else ChipLabel(status)
  }

  /** Arabic text has no upper case: it is its own lower-case form. */
  lemma ArabicIsLower(s: string)
    requires s in {Completed, Pending, Cancelled, Unspecified}
    ensures Text.Lower(s) == s
  {
    forall i | 0 <= i < |s| ensures !Text.IsUpper(s[i]) {
      assert s[i] >= '\U{600}' || s[i] == ' ';
    }
    Text.LowerFixes(s);
  }

  /** The translated text keeps the status's colour: colouring a status or
    * the text shown for it gives the same chip. */
  lemma TextKeepsColor(status: Js)
    ensures StatusColor(Str(StatusText(status))) == StatusColor(status)
  {
    if LowerIs(status, "completed") {
      TranslationKeepsColor(status, "completed", Completed, SuccessColor);
    } else if LowerIs(status, "pending") {
      TranslationKeepsColor(status, "pending", Pending, WarningColor);
    } else if LowerIs(status, "cancelled") {
      TranslationKeepsColor(status, "cancelled", Cancelled, ErrorColor);
    } else if status.Str? && status.s != "" {
      assert Str(StatusText(status)) == status;
    } else {
      PlaceholderIsDefault(status);
    }
  }

  lemma TranslationKeepsColor(status: Js, english: string, arabic: string, c: ChipColor)
    requires (english, arabic, c) in {("completed", Completed, SuccessColor), ("pending", Pending, WarningColor),
                                      ("cancelled", Cancelled, ErrorColor)}
    requires LowerIs(status, english)
    ensures StatusText(status) == arabic
    ensures StatusColor(Str(arabic)) == c && StatusColor(status) == c
  {
    ArabicIsLower(arabic);
  }

  lemma PlaceholderIsDefault(status: Js)
    requires !(status.Str? && status.s != "")
    ensures StatusText(status) == Unspecified
    ensures StatusColor(Str(Unspecified)) == DefaultColor && StatusColor(status) == DefaultColor
  {
    ArabicIsLower(Unspecified);
    if status.Str? {
      assert Text.Lower(status.s) == "";
    }
  }

  /** `movements.slice(0, maxRows)`, JavaScript's `slice`: a negative end
    * counts back from the length. */
  function Displayed(movements: seq<Obj>, maxRows: int): (r: seq<Obj>)
    ensures maxRows >= 0 ==> |r| == if maxRows < |movements| then maxRows else |movements|
    ensures maxRows < 0 ==> |r| == if |movements| + maxRows > 0 then |movements| + maxRows else 0
    ensures r == movements[..|r|]
  {
    var end := if maxRows >= 0 then maxRows else |movements| + maxRows;
    var n := if end < 0 then 0 else if end > |movements| then |movements| else end;
    movements[..n]
  }

  /** The table's default number of rows. */
  const DefaultMaxRows := 5

  /** The "show all" link: `movements.length > maxRows`. */
  predicate ShowAllLink(movements: seq<Obj>, maxRows: int)
  {
    |movements| > maxRows
  }

  /** With a non-negative row limit, the link appears exactly when some
    * movement is left out of the table. */
  lemma LinkIffHidden(movements: seq<Obj>, maxRows: int)
    requires maxRows >= 0
    ensures ShowAllLink(movements, maxRows) <==> |Displayed(movements, maxRows)| < |movements|
  {
  }

  /** A row's icon and caption: a vehicle exactly when its `vehOid` is
    * truthy, otherwise a generator. */
  function RowEntity(movement: Obj): (e: FuelLogForm.Entity)
    ensures e == FuelLogForm.VehicleEntity <==> Truthy(Prop(movement, "vehOid"))
  {
    FuelLogForm.EntityOf(movement)
  }
}
