/** The FAQ accordion: one open/closed flag per question. A click closes every
    item and then re-opens the clicked one only if it was closed before. */
module Accordion {

  /** Every item closed, same number of items. */
  function CloseAll(open: seq<bool>): (r: seq<bool>)
    ensures |r| == |open|
    ensures forall j :: 0 <= j < |r| ==> !r[j]
  {
    seq(|open|, _ => false)
  }

  /** The click handler of question `i`. */
  function Click(open: seq<bool>, i: nat): (r: seq<bool>)
    requires i < |open|
    ensures |r| == |open|
    ensures forall j :: 0 <= j < |r| && j != i ==> !r[j]
    ensures r[i] <==> !open[i]
  {
    var isOpen := open[i];
    var cleared := CloseAll(open);
    if !isOpen then cleared[i := true] else cleared
  }

  /** No two items are open at once. */
  ghost predicate AtMostOneOpen(open: seq<bool>)
  {
    forall j, k :: 0 <= j < |open| && 0 <= k < |open| && open[j] && open[k] ==> j == k
  }

  /** Whatever the state before, a click leaves at most one item open; in
      particular it preserves the invariant. */
  lemma ClickAtMostOneOpen(open: seq<bool>, i: nat)
    requires i < |open|
    ensures AtMostOneOpen(Click(open, i))
  {
  }

  /** Clicking the open item closes everything. */
  lemma ClickOpenItemClosesAll(open: seq<bool>, i: nat)
    requires i < |open| && open[i]
    ensures Click(open, i) == CloseAll(open)
  {
  }

  /** Clicking the same item twice closes everything exactly when it was
      closed before the first click; otherwise only that item ends open. */
  lemma ClickTwice(open: seq<bool>, i: nat)
    requires i < |open|
    ensures var r := Click(Click(open, i), i);
      && (r == CloseAll(open) <==> !open[i])
      && (open[i] ==> r == CloseAll(open)[i := true])
  {
    var r := Click(Click(open, i), i);
    if open[i] {
      assert r[i] && !CloseAll(open)[i];
    }
  }

  /** Clicking another question moves the open item there. */
  lemma ClickOtherMovesOpenItem(open: seq<bool>, i: nat, j: nat)
    requires i < |open| && j < |open| && i != j
    requires AtMostOneOpen(open) && open[i]
    ensures Click(open, j) == CloseAll(open)[j := true]
  {
    assert !open[j];
  }
}
