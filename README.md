# jQuery.isInViewport in Dafny

A model of the geometry at the heart of the jQuery.isInViewport plugin,
with proofs about it. The plugin is given an element, a scrollable
viewport and a content wrapper. It reports whether the element is
visible in the viewport, and how much of it is visible. It can do this
along the vertical axis, the horizontal axis, or both combined.

The plugin's functions build a result record field by field and change
nothing else. So each one is a Dafny `method` with no `modifies` clause
that assigns the same parts in the same order:

- `GetValues` normalises the raw readings into an element box and a
  viewport box. Both are relative to the wrapper.
- `CropFloat` is the clamp with optional bounds.
- `EvaluateAxis` is the vertical and the horizontal evaluator. They are
  one evaluator over an axis, applied to `Project(_, Vertical)` or
  `Project(_, Horizontal)`. The `HiddenParts` and `Distances` steps do
  the clamping.
- `EvaluateBoth` combines the two axes. `MultiplyRatios` and
  `MergeDetails` hold its steps.
- `IsInViewport` is the entry point, with its mode defaulting.

The contracts do not restate the arithmetic. They compare it with an
independent reference in module `Intervals`, which has:

- the overlap of two closed intervals;
- the part of an interval before or after an edge;
- the gap between two intervals;
- strict intersection and containment.

For example, the evaluator's clamped differences are proved to be the
lengths of the pieces of the element before, inside and after the
viewport. The "both" mode's percentages are proved to be the fraction of
each box's area that the visible rectangle covers.

Coordinates are `real`. When a divisor is zero, JavaScript produces NaN
or Infinity; the model's percentages then come out as `None` (module
`Wrappers`). Any product involving `None` is `None`, as NaN and
Infinity propagate under multiplication.

The code never clamps `percentVisible` itself, yet the value cannot
exceed 1. The visible part is clamped at 0 from below, and it is the
size minus a non-negative hidden part. So for a positive size the
percentage lies in [0, 1]. `PercentVisibleIsFraction` proves this for
consistent boxes, the only kind `GetValues` produces.

## Model

| member | source | states |
|---|---|---|
| InViewport.IsInViewport | jQuery.isInViewport.js:30-45 | Runs the combined mode exactly when the mode parses as "both", otherwise the single axis the mode names. A single-axis result satisfies AxisMeaning for the measured extents on that axis: visibility, the hidden parts, the distances and both percentages. A combined result satisfies BothMeaning for the measured boxes. |
| InViewport.AxisReadings | jQuery.isInViewport.js:56-89 | A single-axis result read through the measurements: visible exactly when the measured intervals' interiors meet, with their overlap as the visible part when all sizes are non-negative. |
| InViewport.BothReadings | jQuery.isInViewport.js:56-89 | A combined result read through the measurements: visible exactly when the measured intervals meet on both axes, the percentages as the visible part over width times height of the element and of the viewport, and for non-negative sizes the visible part as the area of the overlap rectangle. |
| InViewport.ParseDimension | jQuery.isInViewport.js:32-34 | The mode is Both exactly for "both" and horizontal exactly for "horizontal". It is vertical for an absent value and for every other value. |
| InViewport.ParseName | jQuery.isInViewport.js:32-34 | Each of the three modes is recognised under its own name. |
| InViewport.GetValues | jQuery.isInViewport.js:56-89 | Both boxes are consistent: far edge = near edge + size. On each axis the element is its position minus the wrapper's, and the viewport runs from the scroll offset over its size (the measured extents). The boxes are proper exactly when all sizes are non-negative. |
| InViewport.WrapperOffsetCancels | jQuery.isInViewport.js:64-67 | Moving the element and the wrapper by the same amount leaves the measured element unchanged. |
| InViewport.CropFloat | jQuery.isInViewport.js:96-104 | With min <= max the result lies in [min, max]; with crossed bounds max wins. An in-range value is returned unchanged, and an out-of-range value becomes the bound it crosses. With one bound the result is max(value, min) or min(value, max). |
| InViewport.HiddenParts | jQuery.isInViewport.js:114-128 | For a non-negative size the hidden parts lie in [0, size]. For a consistent element of non-negative size they equal the length of the element before the viewport's near edge and after its far edge, and the visible part equals the overlap. For consistent, non-negative boxes visible + invisible = size. |
| InViewport.Distances | jQuery.isInViewport.js:130-132 | Both distances are non-negative and zero when the interiors meet. Each is the gap to the edge the element lies beyond. With proper boxes at most one is positive, and their sum is the interval distance. |
| InViewport.EvaluateAxis | jQuery.isInViewport.js:108-139 | Visible exactly when far > viewport near and near < viewport far, so touching edges are not visible. States AxisMeaning: the hidden parts clamped into [0, size] and equal to the pieces before and after the viewport, the visible part equal to the overlap, visible + invisible = size, the distances non-negative, 0 when visible and equal to the gap beyond each edge, and the percentages equal to the visible part over each size. |
| InViewport.PercentVisibleIsFraction | jQuery.isInViewport.js:112-136 | For a consistent element of positive size, percentVisible is defined and lies in [0, 1], and containment in the viewport holds iff the visible part is the whole size iff the percentage is 1. If the element is not visible, the visible part and the percentage are 0. With a consistent viewport of positive size as well, not visible holds iff the percentage is 0. |
| InViewport.PercentOfViewportIsFraction | jQuery.isInViewport.js:136 | For consistent boxes with a non-negative element size and a positive viewport size, percentOfViewport is defined and lies in [0, 1]. It is 1 exactly when the element covers the whole viewport. |
| InViewport.DistancesVanishIffTouching | jQuery.isInViewport.js:130-132 | For consistent, non-negative boxes both distances are 0 exactly when the element at least touches the viewport. |
| InViewport.EvaluateOn | jQuery.isInViewport.js:108-175 | The vertical and the horizontal evaluation are the same evaluation, of the boxes' projection on that axis. The result satisfies AxisMeaning for that projection, so every fact EvaluateAxis states holds of it. |
| InViewport.TransposeSwapsAxes | jQuery.isInViewport.js:144-175 | Transposing a box exchanges its vertical and horizontal projections and keeps it proper. |
| InViewport.TransposedEvaluation | jQuery.isInViewport.js:108-175 | A result means for the horizontal axis of two boxes exactly what it means for the vertical axis of the transposed boxes, and the other way round. It holds by construction: the two sides unfold to the same extents. |
| InViewport.EvaluateBoth | jQuery.isInViewport.js:180-194 | States BothMeaning. Visible iff both axes' interiors meet. The percentages are the visible part over the element's area and over the viewport's area, and invisiblePart is the element's area minus the visible part. The four distances are non-negative, 0 on an axis whose interiors meet, and the gap beyond each edge. For proper boxes the visible part is the visible rectangle's area, both parts are in [0, area], and the hidden parts and distance sums are the interval geometry of each axis. |
| InViewport.MultiplyRatios | jQuery.isInViewport.js:186-187 | The product of the two per-axis percentages is the ratio of the product of the visible lengths to the product of the sizes. It is undefined exactly when either size is 0. |
| InViewport.BothIsProductOfAxes | jQuery.isInViewport.js:180-187 | For proper boxes the combined result is the two axis results multiplied: visible iff both axes are, and each percentage the product of the two axes' percentages. |
| InViewport.MergeDetails | jQuery.isInViewport.js:188-191 | The merge keeps each axis' hidden parts and distances under that axis' names. The visible part becomes the product of the visible lengths and the invisible part becomes area minus visible part. Both lie in [0, area] for proper boxes. |
| Intervals.OverlapBounded | jQuery.isInViewport.js:128 | The overlap is non-negative and no longer than either interval. |
| Intervals.Partition | jQuery.isInViewport.js:118-128 | An interval is the sum of its parts before, inside and after another non-empty interval. |
| Intervals.IntersectsIffOverlap | jQuery.isInViewport.js:112 | For intervals of positive length, the interiors meet exactly when the overlap is positive. |
| Intervals.ApartHasNoOverlap | jQuery.isInViewport.js:112-128 | Intervals whose interiors do not meet have zero overlap. |
| Intervals.WithinIffFullOverlap | jQuery.isInViewport.js:135 | An interval of positive length lies inside another exactly when its whole length overlaps. |
| Intervals.DistanceZeroIffTouching | jQuery.isInViewport.js:131-132 | The gap between two intervals is 0 exactly when they touch or overlap. |
| Intervals.FractionOfWhole | jQuery.isInViewport.js:135-136 | A part of a positive whole gives a defined ratio in [0, 1]. It is 1 exactly for the whole and 0 exactly for nothing. |
| Intervals.ProductOfRatios | jQuery.isInViewport.js:186-187 | The product of two ratios is the ratio of the products, and undefined when either divisor is 0. |
| Intervals.AreaBounded | jQuery.isInViewport.js:188-190 | A rectangle with sides no longer than another's has no larger area. |

## Left out

- The DOM and jQuery measurement calls (`height()`, `width()`, `position()`, `scrollTop()`, `scrollLeft()`) are not modelled. Their results are the fields of `Measurements`.
- The choice between the window's page offset and the viewport's own scroll offset is not modelled. This covers the `viewport == $(window)` test and the `pageYOffset` / `documentElement.scrollTop` fallback chain. `viewportScroll` is the offset already resolved. In JavaScript that test compares two distinct jQuery objects, so it never holds as written.
- The `$(window)` and `$("body")` defaults are not modelled. Their measurements enter as inputs like any others.
- A mode argument that is not a string is not modelled. The mode is `Option<string>`, with `None` for `undefined`. Any other value falls back to vertical, as every unrecognised string does.
- Floating point is not modelled: rounding, and NaN and Infinity as values. Coordinates are exact reals, and a division by zero yields `None`.
- The aliasing of `$.extend(h.details, v.details)` is not modelled. In JavaScript the merge writes into the horizontal result's details object, which becomes the combined result's details. The model builds a new record holding the same fields.
- The initial placeholder values of the result objects are not modelled: `visible: false` and percentages of 0, all overwritten before returning.
- EvaluateAxis: the meaning in terms of interval geometry is stated only for consistent boxes (far edge = near edge + size) of non-negative size. For other boxes only the clamp bounds and the distance facts are stated. `GetValues` always produces consistent boxes, and proper ones for non-negative readings.
- EvaluateBoth: the area, bound and per-axis detail clauses are stated only for proper boxes, for the same reason.
- The demo page and its script are not modelled: markup, event handlers and debug output.
