/** The tier catalog of the mockup pricing calculator: a fixed, ordered table
    mapping an order quantity to an exact price and a delivery estimate. */
module Catalog {

  /** One catalog row. Prices are exact reals: the calculator's extrapolation
      branch produces fractional totals. */
  datatype Tier = Tier(quantity: int, price: real, delivery: string)

  /** Quantities strictly increase along the table. */
  ghost predicate Ascending(tiers: seq<Tier>)
  {
    forall i, j :: 0 <= i < j < |tiers| ==> tiers[i].quantity < tiers[j].quantity
  }

  /** The catalog invariant: at least one tier, positive quantities, strictly ascending. */
  ghost predicate WellFormed(tiers: seq<Tier>)
  {
    && |tiers| > 0
    && tiers[0].quantity > 0
    && Ascending(tiers)
  }

  /** Prices never decrease along the table. */
  ghost predicate PricesNonDecreasing(tiers: seq<Tier>)
  {
    forall i, j :: 0 <= i < j < |tiers| ==> tiers[i].price <= tiers[j].price
  }

  function Last(tiers: seq<Tier>): Tier
    requires |tiers| > 0
  {
    tiers[|tiers| - 1]
  }

  /** The catalog the calculator is configured with. */
  const Tiers: seq<Tier> := [
    Tier(50, 20.0, "2 Days"),
    Tier(100, 40.0, "3 Days"),
    Tier(250, 100.0, "5 Days"),
    Tier(500, 150.0, "7 Days"),
    Tier(1000, 250.0, "10 Days"),
    Tier(2000, 500.0, "15 Days")
  ]

  /** The configured catalog satisfies the catalog invariant and has
      non-decreasing prices. */
  lemma TiersWellFormed()
    ensures WellFormed(Tiers)
    ensures PricesNonDecreasing(Tiers)
    ensures Tiers[0].quantity == 50 && Last(Tiers).quantity == 2000
  {
  }
}
