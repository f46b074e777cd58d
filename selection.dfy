/**
 * The row selection: the "select all" checkbox state (`allSelected`) and
 * the selection after `handleSelectAll` and `handleRowSelect`.
 */
module Selection {

  import opened DisplayRows
  import opened Seqs

  /**
   * `allSelected`: some row is shown, and either nothing is selected or
   * every shown row's id is selected.
   */
  predicate AllSelected(display: seq<Row>, selected: seq<string>)
    ensures AllSelected(display, selected) ==> |display| > 0
    ensures |display| > 0 && selected == [] ==> AllSelected(display, selected)
  {
    |display| > 0 && (|selected| == 0 || forall i :: 0 <= i < |display| ==> display[i].id in selected)
  }

  /** The selection after `handleSelectAll(checked)`. */
  function SelectAll(display: seq<Row>, checked: bool): (selected: seq<string>)
    ensures checked ==> |selected| == |display| && forall i :: 0 <= i < |display| ==> selected[i] == display[i].id
    ensures !checked ==> selected == []
  {
    if checked then Ids(display) else []
  }

  /** `selectedRows.filter(rowId => rowId !== id)` */
  function RemoveId(selected: seq<string>, id: string): seq<string>
  {
    Filter(selected, (x: string) => x != id)
  }

  /** The selection after `handleRowSelect(id, checked)`: append, or drop every occurrence. */
  function RowSelect(selected: seq<string>, id: string, checked: bool): (result: seq<string>)
    ensures checked ==> result == selected + [id]
    ensures !checked ==> id !in result && |result| <= |selected|
  {
    if checked then selected + [id] else RemoveId(selected, id)
  }

  /**
   * Unchecking a row removes every occurrence of its id and keeps every
   * other id, as often as it was there and in its order.
   */
  lemma RemoveIdSpec(selected: seq<string>, id: string)
    ensures id !in RemoveId(selected, id)
    ensures IsSubsequence(RemoveId(selected, id), selected)
    ensures forall other :: other != id ==> multiset(RemoveId(selected, id))[other] == multiset(selected)[other]
  {
    FilterMembership(selected, (x: string) => x != id, id);
    FilterIsSubsequence(selected, (x: string) => x != id);
    forall other | other != id
      ensures multiset(RemoveId(selected, id))[other] == multiset(selected)[other]
    {
      FilterMultiplicity(selected, (x: string) => x != id, other);
    }
  }

  /**
   * Checking a row appends its id even when it is already selected, and
   * unchecking it afterwards removes all its occurrences, not only the
   * appended one; for a row that was not selected the round trip restores
   * the selection.
   */
  lemma CheckThenUncheck(selected: seq<string>, id: string)
    ensures |RowSelect(selected, id, true)| == |selected| + 1
    ensures RowSelect(RowSelect(selected, id, true), id, false) == RemoveId(selected, id)
    ensures id !in selected ==> RowSelect(RowSelect(selected, id, true), id, false) == selected
  {
    FilterAppend(selected, [id], (x: string) => x != id);
    assert Filter([id], (x: string) => x != id) == [];
    if id !in selected {
      FilterKeepsAll(selected, (x: string) => x != id);
    }
  }

  /**
   * Selecting all makes the checkbox checked whenever a row is shown; so
   * does the empty selection, and unchecking a shown row while others stay
   * selected clears it.
   */
  lemma AllSelectedCases(display: seq<Row>, selected: seq<string>, id: string)
    ensures AllSelected(display, SelectAll(display, true)) <==> |display| > 0
    ensures AllSelected(display, SelectAll(display, false)) <==> |display| > 0
    ensures (exists i :: 0 <= i < |display| && display[i].id == id) && RemoveId(selected, id) != [] ==>
      !AllSelected(display, RowSelect(selected, id, false))
  {
    RemoveIdSpec(selected, id);
  }
}
