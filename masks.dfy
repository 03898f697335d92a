/**
 Boolean-mask selection, as `frame[mask]` does it: the rows whose mask entry
 is true, in their original order. Sales are selected from order lines and
 returns from sales this way.
 */
module Masks {

  /** The number of true entries of a mask. */
  function TrueCount(mask: seq<bool>): nat {
    if |mask| == 0 then 0
    else TrueCount(mask[..|mask| - 1]) + (if mask[|mask| - 1] then 1 else 0)
  }

  /** The rows of `xs` whose mask entry is true, in order. */
  function Filter<T>(xs: seq<T>, mask: seq<bool>): (r: seq<T>)
    requires |mask| == |xs|
    ensures |r| == TrueCount(mask)
  {
    if |xs| == 0 then []
    else
      var rest := Filter(xs[..|xs| - 1], mask[..|mask| - 1]);
      if mask[|mask| - 1] then rest + [xs[|xs| - 1]] else rest
  }

  /** The positions of the true entries of a mask, in increasing order. */
  function Selected(mask: seq<bool>): (idx: seq<nat>)
    ensures |idx| == TrueCount(mask)
    ensures forall i :: 0 <= i < |idx| ==> idx[i] < |mask| && mask[idx[i]]
  {
    if |mask| == 0 then []
    else
      var rest := Selected(mask[..|mask| - 1]);
      if mask[|mask| - 1] then rest + [|mask| - 1] else rest
  }

  /** Selection keeps the original order: positions strictly increase. */
  lemma {:induction false} SelectedIncreasing(mask: seq<bool>)
    ensures forall i, j :: 0 <= i < j < |Selected(mask)| ==> Selected(mask)[i] < Selected(mask)[j]
  {
    if |mask| > 0 {
      SelectedIncreasing(mask[..|mask| - 1]);
    }
  }

  /** Selection is complete: every true entry is selected. */
  lemma {:induction false} SelectedComplete(mask: seq<bool>, p: nat)
    requires p < |mask| && mask[p]
    ensures p in Selected(mask)
  {
    var front := mask[..|mask| - 1];
    if p < |mask| - 1 {
      SelectedComplete(front, p);
    }
  }

  /** The i-th selected row is the row at the i-th selected position. */
  lemma {:induction false} FilterAt<T>(xs: seq<T>, mask: seq<bool>, i: nat)
    requires |mask| == |xs| && i < TrueCount(mask)
    ensures Filter(xs, mask)[i] == xs[Selected(mask)[i]]
  {
    var n := |xs|;
    var front := Filter(xs[..n - 1], mask[..n - 1]);
    if i < |front| {
      FilterAt(xs[..n - 1], mask[..n - 1], i);
    }
  }
}
