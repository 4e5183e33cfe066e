/** The quote the calculator displays for a quantity, and the highlighting of
    the preset quantity buttons. */
module Quotes {
  import opened Catalog
  import opened Brackets
  import opened Pricing

  /** What the display shows: quantity, delivery estimate, exact unit price,
      total price and, per preset button, whether it is highlighted. */
  datatype Quote = Quote(
    quantity: int,
    delivery: string,
    unitPrice: real,
    totalPrice: real,
    activePresets: seq<bool>)

  /** One flag per preset button: is its quantity the current quantity? */
  function PresetFlags(presets: seq<int>, q: int): (flags: seq<bool>)
    ensures |flags| == |presets|
    ensures forall i :: 0 <= i < |presets| ==> (flags[i] <==> presets[i] == q)
  {
    if presets == [] then []
    else [presets[0] == q] + PresetFlags(presets[1..], q)
  }

  /** The pure part of the display update for quantity `q`. */
  function UpdateCalculator(tiers: seq<Tier>, presets: seq<int>, q: int): (r: Quote)
    requires Priceable(tiers, q) && q != 0
    ensures r.quantity == q
    ensures r.totalPrice == CalculatePrice(tiers, q)
    ensures r.unitPrice * q as real == r.totalPrice
    ensures |r.activePresets| == |presets|
    ensures forall i :: 0 <= i < |presets| ==> (r.activePresets[i] <==> presets[i] == q)
  {
    var lowerTier := tiers[SurroundingTiers(tiers, q).lo];
    var finalPrice := CalculatePrice(tiers, q);
    Quote(q, lowerTier.delivery, finalPrice / q as real, finalPrice, PresetFlags(presets, q))
  }

  /** The delivery estimate is that of the last tier at or below `q`, never
      the upper tier of the bracket. */
  lemma DeliveryFromLowerTier(tiers: seq<Tier>, presets: seq<int>, i: nat, q: int)
    requires WellFormed(tiers) && i < |tiers|
    requires tiers[i].quantity <= q
    requires i + 1 < |tiers| ==> q < tiers[i + 1].quantity
    ensures Priceable(tiers, q) && q != 0
    ensures UpdateCalculator(tiers, presets, q).delivery == tiers[i].delivery
  {
    assert tiers[0].quantity <= tiers[i].quantity;
    assert tiers[0].quantity <= Last(tiers).quantity;
    if i + 1 < |tiers| {
      SegmentBracket(tiers, i, q);
    } else {
      TopBracket(tiers, q);
    }
  }

  /** No two entries of `s` are equal. */
  ghost predicate Distinct(s: seq<int>)
  {
    forall i, j :: 0 <= i < j < |s| ==> s[i] != s[j]
  }

  /** With distinct preset quantities, at most one preset is highlighted. */
  lemma AtMostOnePresetActive(presets: seq<int>, q: int, i: nat, j: nat)
    requires Distinct(presets)
    requires i < |presets| && j < |presets|
    requires PresetFlags(presets, q)[i] && PresetFlags(presets, q)[j]
    ensures i == j
  {
  }

  /** A quantity that matches no preset highlights none, and one that matches
      a preset highlights exactly that preset when presets are distinct. */
  lemma PresetActiveExactly(presets: seq<int>, q: int)
    ensures q !in presets ==> forall i :: 0 <= i < |presets| ==> !PresetFlags(presets, q)[i]
    ensures Distinct(presets) ==> forall i :: 0 <= i < |presets| && presets[i] == q ==>
      forall j :: 0 <= j < |presets| ==> (PresetFlags(presets, q)[j] <==> j == i)
  {
  }

  /** An example set of preset quantities, one per tier. */
  const Presets: seq<int> := [50, 100, 250, 500, 1000, 2000]

  /** Quote at the first tier: its exact price and delivery. */
  lemma QuoteAtFirstTier()
    ensures Priceable(Tiers, 50)
    ensures var r := UpdateCalculator(Tiers, Presets, 50);
      r.totalPrice == 20.0 && r.delivery == "2 Days" && r.unitPrice == 0.4
  {
    TiersWellFormed();
    Anchor(Tiers, 0);
    DeliveryFromLowerTier(Tiers, Presets, 0, 50);
  }

  /** Quote half-way between the first two tiers. */
  lemma QuoteBetweenFirstTiers()
    ensures Priceable(Tiers, 75)
    ensures var r := UpdateCalculator(Tiers, Presets, 75);
      r.totalPrice == 30.0 && r.delivery == "2 Days"
  {
    TiersWellFormed();
    DeliveryFromLowerTier(Tiers, Presets, 0, 75);
    PriceInSegment(Tiers, 0, 75);
    assert Interpolate(Tiers[0], Tiers[1], 75) == 30.0;
    Rounding.CeilToFiveFixesMultiples(30.0);
  }

  /** Quote at the last tier: its exact price and delivery. */
  lemma QuoteAtLastTier()
    ensures Priceable(Tiers, 2000)
    ensures var r := UpdateCalculator(Tiers, Presets, 2000);
      r.totalPrice == 500.0 && r.delivery == "15 Days"
  {
    TiersWellFormed();
    Anchor(Tiers, 5);
    DeliveryFromLowerTier(Tiers, Presets, 5, 2000);
  }

  /** Quote above the last tier: extrapolated at 0.25 per unit. */
  lemma QuoteAboveLastTier()
    ensures Priceable(Tiers, 3000)
    ensures var r := UpdateCalculator(Tiers, Presets, 3000);
      r.totalPrice == 750.0 && r.delivery == "15 Days"
  {
    TiersWellFormed();
    AtOrAboveTop(Tiers, 3000);
    assert Extrapolate(Last(Tiers), 3000) == 750.0;
    DeliveryFromLowerTier(Tiers, Presets, 5, 3000);
  }

  /** Extrapolated prices are not rounded to a multiple of 5. */
  lemma ExtrapolationUnrounded()
    ensures Priceable(Tiers, 2001)
    ensures CalculatePrice(Tiers, 2001) == 500.25
    ensures !Rounding.MultipleOfFive(CalculatePrice(Tiers, 2001))
  {
    TiersWellFormed();
    AtOrAboveTop(Tiers, 2001);
    assert Extrapolate(Last(Tiers), 2001) == 500.25;
    assert (500.25 / 5.0).Floor == 100;
  }

  /** Preset highlighting at a preset quantity and at a quantity between presets. */
  lemma PresetExamples()
    ensures PresetFlags(Presets, 250) == [false, false, true, false, false, false]
    ensures PresetFlags(Presets, 260) == [false, false, false, false, false, false]
  {
  }
}
