/** The calculator's price rule: exact tier prices at the anchors, linear
    extrapolation above the last tier, and linear interpolation rounded up to
    a multiple of 5 between two tiers. */
module Pricing {
  import opened Catalog
  import opened Brackets
  import opened Rounding

  /** The inputs the price rule is defined on: a non-empty table, a quantity
      not below the first tier's quantity and a last tier whose quantity can
      be divided by. Below the first tier the rule divides by a zero quantity
      range and yields NaN. */
  ghost predicate Priceable(tiers: seq<Tier>, q: int)
  {
    && |tiers| > 0
    && tiers[0].quantity <= q
    && Last(tiers).quantity != 0
  }

  /** The straight line through the two tiers' (quantity, price) points, at `q`. */
  function Interpolate(lower: Tier, upper: Tier, q: int): (r: real)
    requires lower.quantity != upper.quantity
    ensures q == lower.quantity ==> r == lower.price
    ensures q == upper.quantity ==> r == upper.price
  {
    var quantityRange := (upper.quantity - lower.quantity) as real;
    var priceRange := upper.price - lower.price;
    var quantityAboveLower := (q - lower.quantity) as real;
    lower.price + (quantityAboveLower / quantityRange) * priceRange
  }

  /** The last tier's unit rate extended to quantity `q`. */
  function Extrapolate(top: Tier, q: int): (r: real)
    requires top.quantity != 0
    ensures r * top.quantity as real == q as real * top.price
    ensures q == top.quantity ==> r == top.price
  {
    q as real * (top.price / top.quantity as real)
  }

  /** The total price the calculator shows for quantity `q`. On any table it
      is a tier's own price at that tier's quantity, the last tier's unit rate
      extended to `q`, or a multiple of 5. */
  function CalculatePrice(tiers: seq<Tier>, q: int): (r: real)
    requires Priceable(tiers, q)
    ensures || (exists i :: 0 <= i < |tiers| && q == tiers[i].quantity && r == tiers[i].price)
            || r == Extrapolate(Last(tiers), q)
            || MultipleOfFive(r)
  {
    var b := SurroundingTiers(tiers, q);
    var lower := tiers[b.lo];
    var upper := tiers[b.hi];
    if q == lower.quantity then
      lower.price
    else if q >= upper.quantity && b.lo == b.hi then
      Extrapolate(upper, q)
    else
      CeilToFive(Interpolate(lower, upper, q))
  }

  // ---------------------------------------------------------------------------
  // Arithmetic helpers

  lemma MulMonotone(x: real, y: real, c: real)
    requires x <= y && 0.0 <= c
    ensures x * c <= y * c
  {
  }

  lemma DivMonotone(x: real, y: real, c: real)
    requires x <= y && 0.0 < c
    ensures x / c <= y / c
  {
  }

  // ---------------------------------------------------------------------------
  // The line between two tiers

  /** Between two tiers with non-decreasing prices, the line stays within the
      two prices. */
  lemma InterpolateBetween(lower: Tier, upper: Tier, q: int)
    requires lower.quantity <= q <= upper.quantity && lower.quantity < upper.quantity
    requires lower.price <= upper.price
    ensures lower.price <= Interpolate(lower, upper, q) <= upper.price
  {
    var range := (upper.quantity - lower.quantity) as real;
    var f := (q - lower.quantity) as real / range;
    var p := upper.price - lower.price;
    DivMonotone(0.0, (q - lower.quantity) as real, range);
    DivMonotone((q - lower.quantity) as real, range, range);
    assert 0.0 <= f <= 1.0 by {
      assert range / range == 1.0;
    }
    MulMonotone(0.0, f, p);
    MulMonotone(f, 1.0, p);
    assert 0.0 <= f * p <= p;
    assert Interpolate(lower, upper, q) == lower.price + f * p;
  }

  /** With non-decreasing prices, the line never decreases. */
  lemma InterpolateMonotone(lower: Tier, upper: Tier, q1: int, q2: int)
    requires lower.quantity < upper.quantity && lower.price <= upper.price
    requires q1 <= q2
    ensures Interpolate(lower, upper, q1) <= Interpolate(lower, upper, q2)
  {
    var range := (upper.quantity - lower.quantity) as real;
    DivMonotone((q1 - lower.quantity) as real, (q2 - lower.quantity) as real, range);
    MulMonotone((q1 - lower.quantity) as real / range, (q2 - lower.quantity) as real / range,
                upper.price - lower.price);
  }

  // ---------------------------------------------------------------------------
  // Which branch a quantity takes, on an ascending table

  /** A quantity in `[tiers[i], tiers[i+1])` is bracketed by tiers `i` and `i+1`. */
  lemma SegmentBracket(tiers: seq<Tier>, i: nat, q: int)
    requires Ascending(tiers) && i + 1 < |tiers|
    requires tiers[i].quantity <= q < tiers[i + 1].quantity
    ensures SurroundingTiers(tiers, q) == Bracket(i, i + 1)
  {
    forall j | 0 <= j < i + 1
      ensures tiers[j].quantity <= q
    {
      if j < i {
        assert tiers[j].quantity < tiers[i].quantity;
      }
    }
    FirstAboveUnique(tiers, q, i + 1);
  }

  /** A quantity at or above the last tier is bracketed by the last tier alone. */
  lemma TopBracket(tiers: seq<Tier>, q: int)
    requires Ascending(tiers) && |tiers| > 0
    requires Last(tiers).quantity <= q
    ensures SurroundingTiers(tiers, q) == Bracket(|tiers| - 1, |tiers| - 1)
  {
    forall j | 0 <= j < |tiers|
      ensures tiers[j].quantity <= q
    {
      if j < |tiers| - 1 {
        assert tiers[j].quantity < Last(tiers).quantity;
      }
    }
    FirstAboveUnique(tiers, q, |tiers|);
  }

  /** The price in segment `i`: the tier price at its left end, the rounded
      line strictly inside it. */
  lemma PriceInSegment(tiers: seq<Tier>, i: nat, q: int)
    requires WellFormed(tiers) && i + 1 < |tiers|
    requires tiers[i].quantity <= q < tiers[i + 1].quantity
    ensures Priceable(tiers, q)
    ensures q == tiers[i].quantity ==> CalculatePrice(tiers, q) == tiers[i].price
    ensures q != tiers[i].quantity ==>
      CalculatePrice(tiers, q) == CeilToFive(Interpolate(tiers[i], tiers[i + 1], q))
  {
    assert tiers[0].quantity <= tiers[i].quantity;
    assert 0 < Last(tiers).quantity;
    SegmentBracket(tiers, i, q);
  }

  // ---------------------------------------------------------------------------
  // Properties of the price rule

  /** Anchor invariant: at every tier's quantity the price is that tier's
      catalog price, untouched by rounding. */
  lemma {:induction false} Anchor(tiers: seq<Tier>, i: nat)
    requires WellFormed(tiers) && i < |tiers|
    ensures Priceable(tiers, tiers[i].quantity)
    ensures CalculatePrice(tiers, tiers[i].quantity) == tiers[i].price
  {
    assert tiers[0].quantity <= tiers[i].quantity;
    assert 0 < Last(tiers).quantity;
    ExactMatchIsLower(tiers, i);
  }

  /** Above the last tier the last tier's unit rate is extended linearly,
      without rounding. */
  lemma Extrapolation(tiers: seq<Tier>, q: int)
    requires WellFormed(tiers)
    requires Last(tiers).quantity < q
    ensures Priceable(tiers, q)
    ensures CalculatePrice(tiers, q)
      == q as real * Last(tiers).price / Last(tiers).quantity as real
  {
    assert tiers[0].quantity <= Last(tiers).quantity;
    TopBracket(tiers, q);
  }

  /** Strictly between two tiers the price is the line rounded up: a multiple
      of 5, not below the line and less than 5 above it. */
  lemma InterpolationRounding(tiers: seq<Tier>, i: nat, q: int)
    requires WellFormed(tiers) && i + 1 < |tiers|
    requires tiers[i].quantity < q < tiers[i + 1].quantity
    ensures Priceable(tiers, q)
    ensures var r := CalculatePrice(tiers, q);
      var raw := Interpolate(tiers[i], tiers[i + 1], q);
      && MultipleOfFive(r)
      && raw <= r < raw + 5.0
  {
    PriceInSegment(tiers, i, q);
  }

  /** With prices that are non-decreasing multiples of 5, the price anywhere in
      `[tiers[i], tiers[i+1]]` lies between the two tiers' prices. */
  lemma WithinBracket(tiers: seq<Tier>, i: nat, q: int)
    requires WellFormed(tiers) && i + 1 < |tiers|
    requires MultipleOfFive(tiers[i].price) && MultipleOfFive(tiers[i + 1].price)
    requires tiers[i].price <= tiers[i + 1].price
    requires tiers[i].quantity <= q <= tiers[i + 1].quantity
    ensures Priceable(tiers, q)
    ensures tiers[i].price <= CalculatePrice(tiers, q) <= tiers[i + 1].price
  {
    if q == tiers[i + 1].quantity {
      Anchor(tiers, i + 1);
    } else {
      PriceInSegment(tiers, i, q);
      if q != tiers[i].quantity {
        InterpolateBetween(tiers[i], tiers[i + 1], q);
        CeilToFiveBetween(Interpolate(tiers[i], tiers[i + 1], q), tiers[i].price, tiers[i + 1].price);
      }
    }
  }

  /** Every tier price is a multiple of 5. */
  ghost predicate PricesMultiplesOfFive(tiers: seq<Tier>)
  {
    forall i :: 0 <= i < |tiers| ==> MultipleOfFive(tiers[i].price)
  }

  /** Monotonicity inside one segment `[tiers[i], tiers[i+1])`. */
  lemma MonotoneInSegment(tiers: seq<Tier>, i: nat, q1: int, q2: int)
    requires WellFormed(tiers) && i + 1 < |tiers|
    requires tiers[i].price <= tiers[i + 1].price
    requires MultipleOfFive(tiers[i].price) && MultipleOfFive(tiers[i + 1].price)
    requires tiers[i].quantity <= q1 <= q2 < tiers[i + 1].quantity
    ensures Priceable(tiers, q1) && Priceable(tiers, q2)
    ensures CalculatePrice(tiers, q1) <= CalculatePrice(tiers, q2)
  {
    PriceInSegment(tiers, i, q1);
    PriceInSegment(tiers, i, q2);
    if q1 == tiers[i].quantity {
      WithinBracket(tiers, i, q2);
    } else {
      InterpolateMonotone(tiers[i], tiers[i + 1], q1, q2);
      CeilToFiveMonotone(Interpolate(tiers[i], tiers[i + 1], q1), Interpolate(tiers[i], tiers[i + 1], q2));
    }
  }

  /** At or above the last tier the price is the last tier's unit rate times `q`. */
  lemma AtOrAboveTop(tiers: seq<Tier>, q: int)
    requires WellFormed(tiers)
    requires Last(tiers).quantity <= q
    ensures Priceable(tiers, q)
    ensures CalculatePrice(tiers, q) == Extrapolate(Last(tiers), q)
  {
    assert tiers[0].quantity <= Last(tiers).quantity;
    TopBracket(tiers, q);
  }

  /** The unit-rate line through the origin never decreases and passes
      through the tier's own price. */
  lemma ExtrapolateMonotone(top: Tier, q1: int, q2: int)
    requires 0 < top.quantity <= q1 <= q2 && 0.0 <= top.price
    ensures top.price <= Extrapolate(top, q1) <= Extrapolate(top, q2)
  {
    var rate := top.price / top.quantity as real;
    assert 0.0 <= rate;
    MulMonotone(top.quantity as real, q1 as real, rate);
    MulMonotone(q1 as real, q2 as real, rate);
    assert top.quantity as real * rate == top.price;
  }

  /** Monotonicity at or above the last tier. */
  lemma MonotoneAboveTop(tiers: seq<Tier>, q1: int, q2: int)
    requires WellFormed(tiers) && 0.0 <= Last(tiers).price
    requires Last(tiers).quantity <= q1 <= q2
    ensures Priceable(tiers, q1) && Priceable(tiers, q2)
    ensures Last(tiers).price <= CalculatePrice(tiers, q1) <= CalculatePrice(tiers, q2)
  {
    assert tiers[0].quantity <= Last(tiers).quantity;
    AtOrAboveTop(tiers, q1);
    AtOrAboveTop(tiers, q2);
    ExtrapolateMonotone(Last(tiers), q1, q2);
  }

  /** The price never decreases as the quantity grows, for any well-formed
      table whose prices are non-decreasing multiples of 5 with a
      non-negative last price. */
  lemma PriceMonotone(tiers: seq<Tier>, q1: int, q2: int)
    requires WellFormed(tiers) && PricesNonDecreasing(tiers) && PricesMultiplesOfFive(tiers)
    requires 0.0 <= Last(tiers).price
    requires tiers[0].quantity <= q1 <= q2
    ensures Priceable(tiers, q1) && Priceable(tiers, q2)
    ensures CalculatePrice(tiers, q1) <= CalculatePrice(tiers, q2)
  {
    var n := |tiers|;
    var k1 := FirstAbove(tiers, q1);
    var k2 := FirstAbove(tiers, q2);
    FirstAboveMonotone(tiers, q1, q2);
    assert 0 < k1 by {
      assert tiers[0].quantity <= q1;
    }
    assert 0 < Last(tiers).quantity by {
      assert tiers[0].quantity <= Last(tiers).quantity;
    }
    if k1 == n {
      MonotoneAboveTop(tiers, q1, q2);
    } else if k1 == k2 {
      MonotoneInSegment(tiers, k1 - 1, q1, q2);
    } else {
      // q1 lies in segment k1 - 1; q2 lies at or after tier k2 - 1 >= k1.
      WithinBracket(tiers, k1 - 1, q1);
      assert tiers[k1].price <= tiers[k2 - 1].price;
      if k2 == n {
        MonotoneAboveTop(tiers, q2, q2);
      } else {
        WithinBracket(tiers, k2 - 1, q2);
      }
    }
  }

  // ---------------------------------------------------------------------------
  // The configured catalog

  /** Every price of the configured catalog is a multiple of 5. */
  lemma TiersPricesMultiplesOfFive()
    ensures PricesMultiplesOfFive(Tiers)
  {
    assert MultipleOfFive(20.0) && MultipleOfFive(40.0) && MultipleOfFive(100.0);
    assert MultipleOfFive(150.0) && MultipleOfFive(250.0) && MultipleOfFive(500.0);
  }

  /** On the configured catalog, an interpolated price lies within its
      bracket's two tier prices. */
  lemma TiersWithinBracket(i: nat, q: int)
    requires i + 1 < |Tiers|
    requires Tiers[i].quantity <= q <= Tiers[i + 1].quantity
    ensures Priceable(Tiers, q)
    ensures Tiers[i].price <= CalculatePrice(Tiers, q) <= Tiers[i + 1].price
  {
    TiersWellFormed();
    TiersPricesMultiplesOfFive();
    WithinBracket(Tiers, i, q);
  }

  /** On the configured catalog the price never decreases from the slider's
      minimum of 50 upwards. */
  lemma TiersPriceMonotone(q1: int, q2: int)
    requires 50 <= q1 <= q2
    ensures Priceable(Tiers, q1) && Priceable(Tiers, q2)
    ensures CalculatePrice(Tiers, q1) <= CalculatePrice(Tiers, q2)
  {
    TiersWellFormed();
    TiersPricesMultiplesOfFive();
    PriceMonotone(Tiers, q1, q2);
  }
}
