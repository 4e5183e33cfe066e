/** Ceiling and the calculator's "round up to a multiple of 5" policy, on exact reals. */
module Rounding {

  /** The least integer not below `x` (`Math.ceil`), defined through `Floor`. */
  function Ceil(x: real): (c: int)
    ensures x <= c as real < x + 1.0
  {
    -((-x).Floor)
  }

  /** `x` is an integer multiple of 5. */
  predicate MultipleOfFive(x: real)
  {
    (x / 5.0).Floor as real == x / 5.0
  }

  /** `Math.ceil(x / 5) * 5`: the least multiple of 5 not below `x`. */
  function CeilToFive(x: real): (r: real)
    ensures MultipleOfFive(r)
    ensures x <= r < x + 5.0
  {
    var c := Ceil(x / 5.0);
    assert (c as real * 5.0) / 5.0 == c as real;
    c as real * 5.0
  }

  /** `Ceil` never decreases. */
  lemma CeilMonotone(x: real, y: real)
    requires x <= y
    ensures Ceil(x) <= Ceil(y)
  {
  }

  /** Rounding up to a multiple of 5 never decreases. */
  lemma CeilToFiveMonotone(x: real, y: real)
    requires x <= y
    ensures CeilToFive(x) <= CeilToFive(y)
  {
    CeilMonotone(x / 5.0, y / 5.0);
  }

  /** A multiple of 5 is left unchanged by the rounding. */
  lemma CeilToFiveFixesMultiples(m: real)
    requires MultipleOfFive(m)
    ensures CeilToFive(m) == m
  {
    var k := (m / 5.0).Floor;
    assert -(m / 5.0) == (-k) as real;
    assert Ceil(m / 5.0) == k;
    assert m == k as real * 5.0;
  }

  /** The rounding of a value lying between two multiples of 5 stays between them. */
  lemma CeilToFiveBetween(x: real, a: real, b: real)
    requires MultipleOfFive(a) && MultipleOfFive(b)
    requires a <= x <= b
    ensures a <= CeilToFive(x) <= b
  {
    CeilToFiveMonotone(a, x);
    CeilToFiveMonotone(x, b);
    CeilToFiveFixesMultiples(a);
    CeilToFiveFixesMultiples(b);
  }
}
