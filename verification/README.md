# Mockup pricing calculator and FAQ accordion

A Dafny model of the behavioural core of the rightmockups site script
(`script.js`): the tiered pricing calculator of the offers page, the FAQ
accordion's click handler, and the clamp of the before/after slider handle.

- `catalog.dfy` (`Catalog`): the tier record, the configured tier table and
  the catalog invariant (non-empty, positive, strictly ascending quantities).
- `brackets.dfy` (`Brackets`): the bracket lookup. `GetSurroundingTiers` is
  the one-pass scan with its early `break`, written as a loop;
  `SurroundingTiers` is a reference definition built from `FirstAbove` (first
  tier strictly above the quantity), and the loop is proved to compute it.
  Tiers are identified by index, so the identity test `lowerTier === upperTier`
  is index equality.
- `rounding.dfy` (`Rounding`): `Math.ceil` via `Floor` on exact reals, and the
  "round up to a multiple of 5" policy.
- `pricing.dfy` (`Pricing`): `CalculatePrice` with its three branches (exact
  tier match, extrapolation above the last tier, interpolation rounded up to a
  multiple of 5) and the properties: anchor prices, unrounded extrapolation,
  rounding bounds, staying within a bracket and monotonicity, first for any
  suitable table, then for the configured one.
- `quotes.dfy` (`Quotes`): the pure part of the display update: delivery from
  the lower tier, exact unit price, total price, preset-button highlighting.
- `accordion.dfy` (`Accordion`): the FAQ click as a function on a sequence of
  open flags, with the "at most one item open" invariant.
- `slider.dfy` (`Slider`): the slider handle's clamp to the container width.

Numbers are exact: quantities are `int`, prices `real`. The price rule is
defined on any non-empty table for a quantity at or above the first tier's
quantity whose last tier has a non-zero quantity; the ordering of the table
is needed only for the properties.

Below the first tier's quantity the scan breaks at tier 0 with both the
lower and the upper tier set to tier 0 (script.js:79-81). The exact-match and
extrapolation tests then both fail, and line 93 divides by a zero quantity
range, so the price is NaN (script.js:93-97). The model excludes these
quantities by precondition (`Pricing.Priceable`), on the assumption that the
slider's minimum is the first tier's quantity.

## Model

| member | source | states |
|---|---|---|
| `Catalog.TiersWellFormed` | script.js:67-74 | the configured table is non-empty, strictly ascending in positive quantities, with non-decreasing prices, from 50 to 2000 |
| `Brackets.FirstAbove` | script.js:79-81 | the index where the scan stops: every earlier tier is at or below the quantity and the tier there is strictly above it, or no tier is above it |
| `Brackets.SurroundingTiers` | script.js:76-84 | the lookup result on any table: the upper tier is the first tier above the quantity (the last tier if none), the lower tier is the one before it, tier 0 if the scan stopped at once, and the last tier when no tier is above |
| `Brackets.FirstAboveUnique` | script.js:79-82 | the stopping index is the only index with its two defining properties |
| `Brackets.ScanResultUnique` | script.js:76-84 | any bracket with the scan's properties is the lookup result, so the scan has one outcome |
| `Brackets.GetSurroundingTiers` | script.js:76-84 | the loop with the early break returns exactly the reference lookup result |
| `Brackets.BracketCorrect` | script.js:76-84 | on an ascending table and a quantity at or above the first tier: the lower tier is at or below the quantity and every later tier is above it; either the upper tier is the first tier above and directly follows the lower one, or no tier is above and both are the last tier |
| `Brackets.ExactMatchIsLower` | script.js:80-81 | on an ascending table a quantity equal to a tier's quantity selects that tier as the lower tier |
| `Brackets.FirstAboveMonotone` | script.js:79-81 | a larger quantity never stops the scan earlier |
| `Rounding.Ceil` | script.js:97 | `Math.ceil`: the result is an integer not below its argument and less than one above it |
| `Rounding.CeilToFive` | script.js:97 | `Math.ceil(p/5)*5` is a multiple of 5, not below `p` and less than `p + 5` |
| `Rounding.CeilToFiveMonotone` | script.js:97 | rounding up to a multiple of 5 never decreases |
| `Rounding.CeilToFiveFixesMultiples` | script.js:97 | a multiple of 5 is left unchanged by the rounding |
| `Rounding.CeilToFiveBetween` | script.js:97 | a value between two multiples of 5 is rounded to a value between them |
| `Pricing.Interpolate` | script.js:93-96 | the line through the two bracketing tiers' (quantity, price) points: at the lower tier's quantity it gives the lower price, at the upper tier's quantity the upper price |
| `Pricing.Extrapolate` | script.js:90-91 | the last tier's unit rate applied to the quantity: the result times the tier's quantity equals the quantity times the tier's price, and at the tier's own quantity it is the tier's price |
| `Pricing.CalculatePrice` | script.js:86-98 | on any table the price is the matched tier's own price, the last tier's unit rate extended to the quantity, or a multiple of 5; the precise properties are in `Anchor`, `Extrapolation`, `InterpolationRounding`, `WithinBracket` and `PriceMonotone` |
| `Pricing.InterpolateBetween` | script.js:93-96 | with non-decreasing prices the interpolation line between two tiers stays within the two tiers' prices |
| `Pricing.InterpolateMonotone` | script.js:93-96 | with non-decreasing prices the interpolation line never decreases |
| `Pricing.SegmentBracket` | script.js:76-84 | on an ascending table a quantity in `[tiers[i], tiers[i+1])` is bracketed by tiers `i` and `i+1` |
| `Pricing.TopBracket` | script.js:76-84 | on an ascending table a quantity at or above the last tier is bracketed by the last tier on both sides |
| `Pricing.PriceInSegment` | script.js:86-98 | in segment `i` the price is tier `i`'s price at its left end and the rounded-up interpolation strictly inside it |
| `Pricing.Anchor` | script.js:86-88 | at every tier's quantity the price is exactly that tier's catalog price |
| `Pricing.Extrapolation` | script.js:89-92 | above the last tier the price is `q * last.price / last.quantity`, with no rounding |
| `Pricing.InterpolationRounding` | script.js:93-97 | strictly between two tiers the price is a multiple of 5, not below the interpolation line and less than 5 above it |
| `Pricing.WithinBracket` | script.js:86-98 | with non-decreasing multiple-of-5 prices the price anywhere in `[tiers[i], tiers[i+1]]` lies between the two tiers' prices |
| `Pricing.MonotoneInSegment` | script.js:86-98 | inside one segment the price never decreases |
| `Pricing.AtOrAboveTop` | script.js:86-92 | at or above the last tier the price is the last tier's unit rate times the quantity (at the last tier itself this is its own price) |
| `Pricing.ExtrapolateMonotone` | script.js:89-92 | with a non-negative price the extrapolated line starts at the tier's price and never decreases |
| `Pricing.MonotoneAboveTop` | script.js:89-92 | at or above the last tier the price starts at the last tier's price and never decreases |
| `Pricing.PriceMonotone` | script.js:86-98 | on a well-formed table with non-decreasing multiple-of-5 prices and a non-negative last price, the price never decreases as the quantity grows |
| `Pricing.TiersPricesMultiplesOfFive` | script.js:67-74 | every configured tier price is a multiple of 5 |
| `Pricing.TiersWithinBracket` | script.js:67-98 | on the configured table the price within a bracket lies between the bracket's two tier prices |
| `Pricing.TiersPriceMonotone` | script.js:67-98 | on the configured table the price never decreases for quantities from 50 up |
| `Quotes.PresetFlags` | script.js:111-113 | one flag per preset, set exactly when the preset's quantity equals the current quantity |
| `Quotes.UpdateCalculator` | script.js:100-113 | the quote carries the quantity, the calculated total, a unit price that times the quantity gives the total, and one active flag per preset, set exactly when its quantity matches |
| `Quotes.DeliveryFromLowerTier` | script.js:102-107 | the delivery label is that of tier `i`, the last tier at or below the quantity (the lower bracket tier), not the upper one |
| `Quotes.AtMostOnePresetActive` | script.js:111-113 | with distinct preset quantities no two presets are active at once |
| `Quotes.PresetActiveExactly` | script.js:111-113 | no preset is active when none matches; with distinct presets exactly the matching one is |
| `Quotes.QuoteAtFirstTier` | script.js:67-113 | quantity 50 quotes 20 in total, 0.4 per unit, delivered in "2 Days" |
| `Quotes.QuoteBetweenFirstTiers` | script.js:67-113 | quantity 75 quotes 30 in total, delivered in "2 Days" |
| `Quotes.QuoteAtLastTier` | script.js:67-113 | quantity 2000 quotes 500 in total, delivered in "15 Days" |
| `Quotes.QuoteAboveLastTier` | script.js:67-113 | quantity 3000 quotes 750 delivered in "15 Days" |
| `Quotes.ExtrapolationUnrounded` | script.js:67-92 | quantity 2001 is priced 500.25, which is not a multiple of 5: the extrapolation is not rounded |
| `Quotes.PresetExamples` | script.js:111-113 | quantity 250 activates only the 250 preset and 260 activates none |
| `Accordion.CloseAll` | script.js:159-162 | every item is closed and the number of items is unchanged |
| `Accordion.Click` | script.js:156-167 | after clicking item `i` every other item is closed and item `i` is open exactly when it was closed before |
| `Accordion.ClickAtMostOneOpen` | script.js:156-167 | after any click at most one item is open, so the invariant is preserved |
| `Accordion.ClickOpenItemClosesAll` | script.js:156-167 | clicking the open item closes everything |
| `Accordion.ClickTwice` | script.js:156-167 | clicking an item twice closes everything exactly when it was closed at first, and otherwise leaves only it open |
| `Accordion.ClickOtherMovesOpenItem` | script.js:156-167 | with one item open, clicking another one leaves only the clicked item open |
| `Slider.Clamp` | script.js:45 | the handle offset lies in `[0, width]`, equals the pointer offset when that is inside, and is 0 or `width` when it is outside on the left or right |
| `Slider.ClampIdempotent` | script.js:45 | clamping twice is the same as clamping once |

## Left out

- DOM queries, event-listener registration and the `DOMContentLoaded` wrapper (script.js:1, 58-65, 116-128): browser I/O. The model's functions are what those handlers compute.
- `parseInt` of the slider and preset values (script.js:101, 112): the quantity is taken as an already parsed integer.
- `toFixed(2)` and `toLocaleString('en-US')` (script.js:104, 109): library number formatting; the unit price is kept as the exact ratio and the total as the exact price.
- The call-to-action label (script.js:110): string formatting of the quantity.
- IEEE double arithmetic of JavaScript numbers: prices are exact reals, so the model states the intended arithmetic, not rounding effects of `/` and `Math.ceil` on doubles.
- Quantities below the first tier's quantity: excluded by precondition. On that path the code divides by a zero quantity range without throwing: `(q - 50) / 0` is `-Infinity`, times a price range of 0 it is `NaN`, so the page shows `$NaN` for the total and the unit price (script.js:93-97, 104, 109).
- Quotes.UpdateCalculator: requires a non-zero quantity, since the unit price divides by it (script.js:104); on a well-formed table this follows from the first precondition.
- The scroll-reveal observer (script.js:21-31): browser callback plumbing.
- Slider drag state and pointer/touch event handling (script.js:33-55): only the clamp at line 45 is modelled.
- The tilt cards (script.js:131-149): floating-point geometry driven by pointer events.
- The mobile navigation toggle (script.js:3-19): a plain attribute flip.
- The accordion's `maxHeight` styling (script.js:161, 165): presentation of the open flag.
- The preset buttons' quantities live in the page markup, which is not part of this model; the script only reads each button's `data-quantity` (script.js:65, 112). `Quotes.Presets` is an example preset set (50, 100, 250, 500, 1000, 2000) used by the example lemmas; the preset lemmas hold for any sequence of presets.
