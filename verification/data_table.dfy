/** The selection logic of the generic data table: which rows count as
  * selected, what the row and header checkboxes hand to the selection
  * callback, the header checkbox's state and the width of the full-row
  * loading and empty cells. Rows are compared by the id `rowId` gives them. */
module DataTable {
  import opened JsValues
  import opened ClientLists

  /** `isSelected(item)`: some selected row has the item's id. */
  predicate IsSelected<T, Id(==)>(selected: seq<T>, item: T, rowId: T -> Id)
  {
    exists i :: 0 <= i < |selected| && rowId(selected[i]) == rowId(item)
  }

  /** `selectedItems.filter(s => getRowId(s) !== id)`. */
  function WithoutId<T(==,!new), Id(==)>(selected: seq<T>, id: Id, rowId: T -> Id): (r: seq<T>)
    ensures forall x :: x in r <==> x in selected && rowId(x) != id
    ensures Subsequence(r, selected)
  {
    if selected == [] then []
    else
      var rest := WithoutId(selected[1..], id, rowId);
      assert forall x :: x in selected <==> x == selected[0] || x in selected[1..];
      if rowId(selected[0]) != id then
        assert ([selected[0]] + rest)[1..] == rest;
        [selected[0]] + rest
      else
        assert rest == [] || Subsequence(rest, selected[1..]);
        rest
  }

  /** `handleSelectItem(item)`: the selection handed to the callback, or
    * nothing when the table has no callback. An unselected row is added at
    * the end; a selected one is dropped together with every other selected
    * row of the same id, the rest keeping their order. */
  function SelectItem<T(==,!new), Id(==)>(selected: seq<T>, item: T, rowId: T -> Id, hasCallback: bool): (r: Option<seq<T>>)
    ensures r.None? <==> !hasCallback
    ensures hasCallback && !IsSelected(selected, item, rowId) ==> r.value == selected + [item]
    ensures hasCallback && IsSelected(selected, item, rowId) ==>
      (forall x :: x in r.value <==> x in selected && rowId(x) != rowId(item)) &&
      Subsequence(r.value, selected) &&
      !IsSelected(r.value, item, rowId) &&
      |r.value| < |selected|
  {
    if !hasCallback then None
    else if !IsSelected(selected, item, rowId) then Some(selected + [item])
    else
      var r := WithoutId(selected, rowId(item), rowId);
      assert forall i :: 0 <= i < |r| ==> r[i] in r;
      var i :| 0 <= i < |selected| && rowId(selected[i]) == rowId(item);
      ShorterWithout(selected, rowId(item), rowId, i);
      Some(r)
  }

  lemma {:induction false} ShorterWithout<T(!new), Id>(selected: seq<T>, id: Id, rowId: T -> Id, i: int)
    requires 0 <= i < |selected| && rowId(selected[i]) == id
    ensures |WithoutId(selected, id, rowId)| < |selected|
  {
    if i > 0 {
      ShorterWithout(selected[1..], id, rowId, i - 1);
    } else {
      NotLonger(selected[1..], id, rowId);
    }
  }

  lemma {:induction false} NotLonger<T(!new), Id>(selected: seq<T>, id: Id, rowId: T -> Id)
    ensures |WithoutId(selected, id, rowId)| <= |selected|
  {
    if selected != [] {
      NotLonger(selected[1..], id, rowId);
    }
  }

  /** Dropping an id no row has changes nothing. */
  lemma {:induction false} WithoutAbsentId<T(!new), Id>(selected: seq<T>, id: Id, rowId: T -> Id)
    requires forall i :: 0 <= i < |selected| ==> rowId(selected[i]) != id
    ensures WithoutId(selected, id, rowId) == selected
  {
    if selected != [] {
      WithoutAbsentId(selected[1..], id, rowId);
    }
  }

  /** Filtering an appended row filters the prefix and the row apart. */
  lemma {:induction false} WithoutAppend<T(!new), Id>(selected: seq<T>, item: T, id: Id, rowId: T -> Id)
    ensures WithoutId(selected + [item], id, rowId) ==
      WithoutId(selected, id, rowId) + (if rowId(item) != id then [item] else [])
  {
    if selected != [] {
      assert (selected + [item])[0] == selected[0];
      assert (selected + [item])[1..] == selected[1..] + [item];
      WithoutAppend(selected[1..], item, id, rowId);
    }
  }

  /** The ids a selection covers. */
  function Ids<T, Id>(s: seq<T>, rowId: T -> Id): set<Id>
  {
    set i | 0 <= i < |s| :: rowId(s[i])
  }

  /** Toggling the same row twice gives back the same selection when the
    * row was not selected, and a selection with the same ids when it was
    * (the row itself then moves to the end). */
  lemma ToggleTwice<T(!new), Id>(selected: seq<T>, item: T, rowId: T -> Id)
    ensures var once := SelectItem(selected, item, rowId, true).value;
      var twice := SelectItem(once, item, rowId, true).value;
      (!IsSelected(selected, item, rowId) ==> twice == selected) &&
      (IsSelected(selected, item, rowId) ==> Ids(twice, rowId) == Ids(selected, rowId))
  {
    var id := rowId(item);
    var once := SelectItem(selected, item, rowId, true).value;
    if !IsSelected(selected, item, rowId) {
      assert IsSelected(once, item, rowId) by {
        assert once[|selected|] == item;
      }
      WithoutAppend(selected, item, id, rowId);
      WithoutAbsentId(selected, id, rowId);
    } else {
      var twice := SelectItem(once, item, rowId, true).value;
      assert twice == once + [item];
      assert forall i :: 0 <= i < |once| ==> once[i] in once;
      assert forall i :: 0 <= i < |selected| ==> selected[i] in selected;
      forall x | x in Ids(twice, rowId) ensures x in Ids(selected, rowId) {
        var i :| 0 <= i < |twice| && rowId(twice[i]) == x;
        if i < |once| {
          var j :| 0 <= j < |selected| && selected[j] == once[i];
        }
      }
      forall x | x in Ids(selected, rowId) ensures x in Ids(twice, rowId) {
        var j :| 0 <= j < |selected| && rowId(selected[j]) == x;
        if x == id {
          assert rowId(twice[|once|]) == x;
        } else {
          assert selected[j] in once;
          var i :| 0 <= i < |once| && once[i] == selected[j];
          assert twice[i] == once[i];
        }
      }
    }
  }

  /** `handleSelectAll`: every loaded row when the header box is checked,
    * none when it is cleared, nothing without a callback. */
  function SelectAll<T>(data: seq<T>, checked: bool, hasCallback: bool): (r: Option<seq<T>>)
    ensures r.None? <==> !hasCallback
    ensures hasCallback && checked ==> r.value == data
    ensures hasCallback && !checked ==> r.value == []
  {
    if !hasCallback then None
    else if checked then Some(data)
    else Some([])
  }

  /** The header checkbox is ticked when every loaded row is selected. */
  predicate HeaderChecked(numSelected: nat, rowCount: nat)
  {
    rowCount > 0 && numSelected == rowCount
  }

  /** The header checkbox shows a dash when some but not all rows are. */
  predicate HeaderIndeterminate(numSelected: nat, rowCount: nat)
  {
    numSelected > 0 && numSelected < rowCount
  }

  /** After select-all the header box is ticked (when there are rows); after
    * clearing it is neither ticked nor dashed. The two states never show
    * together. */
  lemma SelectAllHeader<T>(data: seq<T>, checked: bool)
    ensures var r := SelectAll(data, checked, true).value;
      (checked && data != [] ==> HeaderChecked(|r|, |data|)) &&
      (!checked ==> !HeaderChecked(|r|, |data|) && !HeaderIndeterminate(|r|, |data|))
    ensures forall n: nat, m: nat :: !(HeaderChecked(n, m) && HeaderIndeterminate(n, m))
  {
  }

  /** The header row's cells: the select-all box, one per column, and the
    * actions cell. */
  function HeaderCells(columnLabels: seq<string>, selectable: bool, hasEdit: bool, hasDelete: bool, hasView: bool): seq<string>
  {
    (if selectable then ["select-all"] else []) + columnLabels +
    (if hasEdit || hasDelete || hasView then ["actions"] else [])
  }

  /** The `colSpan` of the loading and the empty row. */
  function ColSpan(columns: nat, selectable: bool, hasEdit: bool, hasDelete: bool, hasView: bool): (n: nat)
    ensures columns <= n <= columns + 2
    ensures n == columns <==> !selectable && !hasEdit && !hasDelete && !hasView
    ensures n == columns + 2 <==> selectable && (hasEdit || hasDelete || hasView)
  {
    columns + (if selectable then 1 else 0) + (if hasEdit || hasDelete || hasView then 1 else 0)
  }

  /** The full-row cell spans exactly the header row. */
  lemma ColSpanCoversHeader(columnLabels: seq<string>, selectable: bool, hasEdit: bool, hasDelete: bool, hasView: bool)
    ensures ColSpan(|columnLabels|, selectable, hasEdit, hasDelete, hasView) ==
      |HeaderCells(columnLabels, selectable, hasEdit, hasDelete, hasView)|
  {
  }
}
