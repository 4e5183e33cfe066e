/** The before/after image slider: the handle's offset within its container. */
module Slider {

  /** `Math.max(0, Math.min(offset, width))`: the pointer's offset from the
      container's left edge, kept within the container. */
  function Clamp(offset: real, width: real): (x: real)
    requires 0.0 <= width
    ensures 0.0 <= x <= width
    ensures 0.0 <= offset <= width ==> x == offset
    ensures offset < 0.0 ==> x == 0.0
    ensures width < offset ==> x == width
  {
    var inner := if offset < width then offset else width;
    if 0.0 < inner then inner else 0.0
  }

  /** Clamping a clamped offset changes nothing. */
  lemma ClampIdempotent(offset: real, width: real)
    requires 0.0 <= width
    ensures Clamp(Clamp(offset, width), width) == Clamp(offset, width)
  {
  }
}
