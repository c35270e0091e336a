/** The dashboard's statistic card: the colour and the text of its change
  * chip. */
module StatsCard {
  import opened JsValues
  import opened PageActions

  datatype ChangeType = Increase | Decrease

  /** The optional `change` a card is given. */
  datatype Change = Change(value: real, kind: ChangeType)

  function Abs(x: real): (a: real)
    ensures a >= 0.0 && (a == x || a == -x)
  {
    if x < 0.0 then -x else x
  }

  /** `getChangeColor`: the default without a change, success for an
    * increase, error for a decrease. */
  function ChangeColor(change: Option<Change>): (c: ChipColor)
    ensures change.None? <==> c == DefaultColor
    ensures c == SuccessColor <==> change.Some? && change.value.kind == Increase
    ensures c == ErrorColor <==> change.Some? && change.value.kind == Decrease
  {
    match change
    case None => DefaultColor
    case Some(ch) =>
      match ch.kind
      case Increase => SuccessColor
      case Decrease => ErrorColor
  }

  /** `getChangeText`: empty without a change; otherwise the sign of the
    * change's type, the magnitude of its value (number formatting is a
    * parameter) and a percent sign. */
  function ChangeText(change: Option<Change>, showNum: real -> string): (t: string)
    ensures change.None? <==> t == ""
    ensures change.Some? ==>
      t == [if change.value.kind == Increase then '+' else '-'] + showNum(Abs(change.value.value)) + "%"
  {
    match change
    case None => ""
    case Some(ch) =>
      var prefix := if ch.kind == Increase then "+" else "-";
      prefix + showNum(Abs(ch.value)) + "%"
  }

  /** The sign shown comes from the change's type alone: negating the value
    * changes neither the text nor the colour. */
  lemma SignFromTypeOnly(v: real, kind: ChangeType, showNum: real -> string)
    ensures ChangeText(Some(Change(v, kind)), showNum) == ChangeText(Some(Change(-v, kind)), showNum)
    ensures ChangeColor(Some(Change(v, kind))) == ChangeColor(Some(Change(-v, kind)))
  {
    assert Abs(v) == Abs(-v);
  }

  /** The text and the colour agree: a '+' goes with success, a '-' with
    * error, and an empty text with the default. */
  lemma TextMatchesColor(change: Option<Change>, showNum: real -> string)
    ensures var t := ChangeText(change, showNum);
      (t == "" <==> ChangeColor(change) == DefaultColor) &&
      (t != "" ==> (t[0] == '+' <==> ChangeColor(change) == SuccessColor)) &&
      (t != "" ==> (t[0] == '-' <==> ChangeColor(change) == ErrorColor))
  {
  }
}
