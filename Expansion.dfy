/** The `expandedItemIndex` slot of App.tsx: either no row or exactly one row
    shows its details (App.tsx:12, App.tsx:67, App.tsx:72). */
module RowExpansion {

  /** `null` is Collapsed; a number `i` is Expanded(i). */
  datatype Expansion = Collapsed | Expanded(index: nat)

  /** The render test `expandedItemIndex === index` (App.tsx:72). */
  predicate IsExpanded(e: Expansion, i: nat)
  {
    e == Expanded(i)
  }

  /** The row handler `expandedItemIndex === index ? null : index` (App.tsx:67):
      selecting the open row closes it, selecting any other row opens that one. */
  function Toggle(e: Expansion, i: nat): (r: Expansion)
    ensures IsExpanded(e, i) ==> r == Collapsed
    ensures !IsExpanded(e, i) ==> IsExpanded(r, i)
    ensures forall j :: IsExpanded(r, j) ==> j == i
  {
    if e == Expanded(i) then Collapsed else Expanded(i)
  }

  /** Selecting the same row twice from the collapsed state collapses again. */
  lemma ToggleTwiceFromCollapsed(i: nat)
    ensures Toggle(Toggle(Collapsed, i), i) == Collapsed
  {
  }

  /** Selecting p and then a different q leaves q, and only q, expanded. */
  lemma ToggleThenOther(e: Expansion, p: nat, q: nat)
    requires p != q
    ensures Toggle(Toggle(e, p), q) == Expanded(q)
    ensures !IsExpanded(Toggle(Toggle(e, p), q), p)
  {
  }
}
