/** The expand/collapse toggle both order lists use: at most one order shows its details. */
module Expansion {
  import opened Outcomes
  import opened Seqs

  /** `toggleOrderExpansion`: clicking the expanded order collapses it, any other order expands instead. */
  function Toggle(expanded: Option<string>, id: string): (r: Option<string>)
    ensures r.None? <==> expanded == Some(id)
    ensures r.Some? ==> r.value == id
  {
    if expanded == Some(id) then None else Some(id)
  }

  /** How many rows of a list render their details (`expandedOrderId === order.order_id`). */
  function ExpandedRows(ids: seq<string>, expanded: Option<string>): (r: nat)
    ensures r == 0 <==> expanded.None? || expanded.value !in ids
    decreases |ids|
  {
    if |ids| == 0 then 0
    else (if expanded == Some(ids[0]) then 1 else 0) + ExpandedRows(ids[1..], expanded)
  }

  /** With distinct order ids at most one row is expanded, whatever the toggle holds. */
  lemma {:induction false} AtMostOneRowExpanded(ids: seq<string>, expanded: Option<string>)
    requires NoDup(ids)
    ensures ExpandedRows(ids, expanded) <= 1
    decreases |ids|
  {
    if |ids| > 0 {
      assert NoDup(ids[1..]);
      AtMostOneRowExpanded(ids[1..], expanded);
      if expanded == Some(ids[0]) {
        assert ids[0] !in ids[1..];
      }
    }
  }

  /** Clicking a listed order that is not expanded leaves exactly that row expanded. */
  lemma ClickExpandsOneRow(ids: seq<string>, expanded: Option<string>, id: string)
    requires NoDup(ids) && id in ids && expanded != Some(id)
    ensures ExpandedRows(ids, Toggle(expanded, id)) == 1
  {
  }

  /** Two clicks on one order restore the previous state only if nothing else was expanded before. */
  lemma ToggleTwice(expanded: Option<string>, id: string)
    ensures Toggle(Toggle(expanded, id), id) == (if expanded == Some(id) then expanded else None)
  {
  }
}
