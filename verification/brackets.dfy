/** Bracket lookup: the pair of catalog tiers surrounding a quantity. */
module Brackets {
  import opened Catalog

  /** Indices of the lower and the upper bracketing tier. Comparing the two
      indices stands for the object-identity test `lowerTier === upperTier`. */
  datatype Bracket = Bracket(lo: nat, hi: nat)

  /** Index of the first tier whose quantity is strictly above `q`, or
      `|tiers|` when there is none. */
  function FirstAbove(tiers: seq<Tier>, q: int): (k: nat)
    ensures k <= |tiers|
    ensures forall j :: 0 <= j < k ==> tiers[j].quantity <= q
    ensures k < |tiers| ==> q < tiers[k].quantity
  {
    if |tiers| == 0 then 0
    else if q < tiers[0].quantity then 0
    else 1 + FirstAbove(tiers[1..], q)
  }

  /** What one left-to-right scan of the table yields, on any table: `hi` is
      the first tier above `q` (the last tier when none is), and `lo` is the
      last tier the scan passed before stopping (tier 0 when it stopped at once). */
  ghost predicate IsScanResult(tiers: seq<Tier>, q: int, b: Bracket)
  {
    && b.lo < |tiers| && b.hi < |tiers|
    && (forall j :: 0 <= j < b.hi ==> tiers[j].quantity <= q)
    && (q < tiers[b.hi].quantity || (b.hi == |tiers| - 1 && tiers[b.hi].quantity <= q))
    && b.lo == (if q < tiers[b.hi].quantity then (if b.hi == 0 then 0 else b.hi - 1) else b.hi)
  }

  /** Reference definition of the lookup, built from `FirstAbove`. */
  function SurroundingTiers(tiers: seq<Tier>, q: int): (b: Bracket)
    requires |tiers| > 0
    ensures IsScanResult(tiers, q, b)
  {
    var k := FirstAbove(tiers, q);
    if k == |tiers| then Bracket(k - 1, k - 1)
    else if k == 0 then Bracket(0, 0)
    else Bracket(k - 1, k)
  }

  /** `FirstAbove` is the only index with its two defining properties. */
  lemma FirstAboveUnique(tiers: seq<Tier>, q: int, k: nat)
    requires k <= |tiers|
    requires forall j :: 0 <= j < k ==> tiers[j].quantity <= q
    requires k < |tiers| ==> q < tiers[k].quantity
    ensures k == FirstAbove(tiers, q)
  {
  }

  /** A scan has exactly one outcome. */
  lemma ScanResultUnique(tiers: seq<Tier>, q: int, b: Bracket)
    requires |tiers| > 0
    requires IsScanResult(tiers, q, b)
    ensures b == SurroundingTiers(tiers, q)
  {
    if q < tiers[b.hi].quantity {
      FirstAboveUnique(tiers, q, b.hi);
    } else {
      FirstAboveUnique(tiers, q, |tiers|);
    }
  }

  /** The scan as the calculator performs it: one pass that records every tier
      at or below `q` as the lower tier and stops at the first tier above `q`. */
  method GetSurroundingTiers(tiers: seq<Tier>, q: int) returns (b: Bracket)
    requires |tiers| > 0
    ensures IsScanResult(tiers, q, b)
    ensures b == SurroundingTiers(tiers, q)
  {
    var lo: nat := 0;
    var hi: nat := |tiers| - 1;
    var i := 0;
    while i < |tiers|
      invariant 0 <= i <= |tiers|
      invariant forall j :: 0 <= j < i ==> tiers[j].quantity <= q
      invariant lo == (if i == 0 then 0 else i - 1)
      invariant hi == |tiers| - 1
    {
      if q >= tiers[i].quantity {
        lo := i;
      }
      if q < tiers[i].quantity {
        hi := i;
        break;
      }
      i := i + 1;
    }
    b := Bracket(lo, hi);
    ScanResultUnique(tiers, q, b);
  }

  /** On an ascending table and a quantity at or above the first tier, the
      lower tier is the last tier at or below `q`, and the upper tier is the
      first tier above `q`; when no tier is above `q`, both are the last tier. */
  lemma BracketCorrect(tiers: seq<Tier>, q: int)
    requires |tiers| > 0 && Ascending(tiers)
    requires tiers[0].quantity <= q
    ensures var b := SurroundingTiers(tiers, q);
      && tiers[b.lo].quantity <= q
      && (forall j :: b.lo < j < |tiers| ==> q < tiers[j].quantity)
      && ((q < tiers[b.hi].quantity && b.hi == b.lo + 1
           && forall j :: 0 <= j < b.hi ==> tiers[j].quantity <= q)
          || ((forall j :: 0 <= j < |tiers| ==> tiers[j].quantity <= q)
              && b.lo == b.hi == |tiers| - 1))
  {
    var b := SurroundingTiers(tiers, q);
    if q < tiers[b.hi].quantity {
      assert b.hi != 0;
      forall j | b.lo < j < |tiers|
        ensures q < tiers[j].quantity
      {
        if j > b.hi {
          assert tiers[b.hi].quantity < tiers[j].quantity;
        }
      }
    }
  }

  /** On an ascending table, a quantity equal to a tier's quantity selects
      that tier as the lower tier. */
  lemma ExactMatchIsLower(tiers: seq<Tier>, i: nat)
    requires i < |tiers| && Ascending(tiers)
    ensures SurroundingTiers(tiers, tiers[i].quantity).lo == i
  {
    var q := tiers[i].quantity;
    forall j | 0 <= j < i + 1
      ensures tiers[j].quantity <= q
    {
      if j < i {
        assert tiers[j].quantity < tiers[i].quantity;
      }
    }
    if i + 1 < |tiers| {
      assert tiers[i].quantity < tiers[i + 1].quantity;
    }
    FirstAboveUnique(tiers, q, i + 1);
  }

  /** A larger quantity never selects an earlier upper bound. */
  lemma FirstAboveMonotone(tiers: seq<Tier>, q1: int, q2: int)
    requires q1 <= q2
    ensures FirstAbove(tiers, q1) <= FirstAbove(tiers, q2)
  {
  }
}
