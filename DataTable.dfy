/** The selection rules of the shared table, components/DataTable.tsx. The handlers compute the
    new list of selected ids and hand it to the page's `onSelectionChange` callback; a table
    without that callback ignores the checkboxes. `None` below means the callback was not
    called. */
module DataTable {
  import opened Types
  import opened Seqs

  /** `data.map(d => d.id)` */
  function IdsOf(data: seq<Entity>): (r: seq<string>)
    ensures |r| == |data| && forall i :: 0 <= i < |data| ==> r[i] == data[i].id
  {
    seq(|data|, i requires 0 <= i < |data| => data[i].id)
  }

  /** `handleSelectAll`: checking the header selects every row's id in row order, unchecking
      selects nothing. */
  function SelectAll(data: seq<Entity>, checked: bool, hasCallback: bool): (r: Option<seq<string>>)
    ensures r.Some? <==> hasCallback
    ensures r.Some? && checked ==> |r.value| == |data| && forall i :: 0 <= i < |data| ==> r.value[i] == data[i].id
    ensures r.Some? && !checked ==> r.value == []
  {
    if !hasCallback then None
    else if checked then Some(IdsOf(data))
    else Some([])
  }

  /** `handleSelectOne`: a selected id is removed (every copy of it), an unselected one is
      appended at the end. */
  function SelectOne(selectedIds: seq<string>, id: string, hasCallback: bool): (r: Option<seq<string>>)
    ensures r.Some? <==> hasCallback
    ensures r.Some? && id in selectedIds ==>
      id !in r.value && (forall x :: x in r.value <==> x in selectedIds && x != id) && IsSubsequence(r.value, selectedIds)
    ensures r.Some? && id in selectedIds ==>
      forall x :: multiset(r.value)[x] == if x == id then 0 else multiset(selectedIds)[x]
    ensures r.Some? && id !in selectedIds ==>
      |r.value| == |selectedIds| + 1 && r.value[..|selectedIds|] == selectedIds && r.value[|selectedIds|] == id
  {
    if !hasCallback then None
    else if id in selectedIds then
      var keep := (sid: string) => sid != id;
      FilterMultiplicity(selectedIds, keep);
      Some(Filter(selectedIds, keep))
    else Some(selectedIds + [id])
  }

  /** The header checkbox: checked when there are rows and as many selected ids as rows. */
  predicate HeaderChecked(data: seq<Entity>, selectedIds: seq<string>)
  {
    |data| > 0 && |selectedIds| == |data|
  }

  /** Toggling an unselected id twice gives back the selection it started from. */
  lemma {:induction false} ToggleTwice(selectedIds: seq<string>, id: string)
    requires id !in selectedIds
    ensures SelectOne(SelectOne(selectedIds, id, true).value, id, true) == Some(selectedIds)
  {
    var once := selectedIds + [id];
    assert id in once;
    var keep := (sid: string) => sid != id;
    assert SelectOne(once, id, true) == Some(Filter(once, keep));
    FilterAppend(selectedIds, [id], keep);
    FilterKeepsAll(selectedIds, keep);
    assert Filter([id], keep) == [];
    assert Filter(once, keep) == selectedIds + [] == selectedIds;
    assert SelectOne(selectedIds, id, true).value == once;
  }

  /** Select-all drives the header checkbox: checked after selecting all rows of a non-empty
      table, unchecked after clearing. */
  lemma SelectAllChecksHeader(data: seq<Entity>, checked: bool)
    ensures HeaderChecked(data, SelectAll(data, checked, true).value) <==> checked && |data| > 0
  {
  }
}
