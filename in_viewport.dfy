/** The jQuery.isInViewport plugin: how much of an element's box is visible
    inside a scrolled viewport, along one axis or both.

    Every operation builds a fresh result record from its inputs and changes
    nothing else, so each is a method with no modifies clause that assigns
    the record's parts one by one, as the plugin does. The contracts relate
    the results to the interval geometry of module Intervals. */
module InViewport {
  import opened Wrappers
  import opened Intervals

  // ---------------------------------------------------------------------
  // Data model
  // ---------------------------------------------------------------------

  /** The two axes the plugin evaluates. */
  datatype Axis = Vertical | Horizontal

  /** The modes the plugin accepts: one axis, or both combined. */
  datatype Dimension = Single(axis: Axis) | Both

  /** A box as the plugin stores it, with its redundant far edges. */
  datatype Rect = Rect(top: real, bottom: real, left: real, right: real,
                       height: real, width: real)
  {
    /** The far edges are the near edges plus the size, as getValues sets them. */
    predicate Consistent() {
      bottom == top + height && right == left + width
    }

    /** Consistent, with sizes a layout engine can report. */
    predicate Proper() {
      Consistent() && height >= 0.0 && width >= 0.0
    }

    function Area(): real { RectangleArea(width, height) }
  }

  /** The measurements object of getValues: the element and the visible
      part of the viewport, both relative to the wrapper's origin. */
  datatype Values = Values(element: Rect, viewport: Rect) {
    predicate Proper() { element.Proper() && viewport.Proper() }
  }

  /** A box seen along one axis: near edge, far edge and size. */
  datatype Extent = Extent(near: real, far: real, size: real) {
    function Seg(): Segment { Segment(near, far) }

    predicate Consistent() { far == near + size }
  }

  /** Top, bottom and height on the vertical axis; left, right and width
      on the horizontal one. */
  function Project(r: Rect, axis: Axis): Extent {
    match axis
    case Vertical => Extent(r.top, r.bottom, r.height)
    case Horizontal => Extent(r.left, r.right, r.width)
  }

  /** The same box with its axes exchanged. */
  function Transpose(r: Rect): Rect {
    Rect(r.left, r.right, r.top, r.bottom, r.width, r.height)
  }

  /** The details of one axis. On the vertical axis the plugin names these
      elementHeight, invisibleTop, invisibleBottom, invisiblePart,
      visiblePart, distanceFromViewportTop and distanceFromViewportBottom;
      on the horizontal axis Width, Left and Right take their places. */
  datatype AxisDetails = AxisDetails(
    elementSize: real,
    invisibleNear: real,
    invisibleFar: real,
    invisiblePart: real,
    visiblePart: real,
    distanceFromViewportNear: real,
    distanceFromViewportFar: real)

  /** The result of one axis. A percentage is None where the plugin divides
      by zero (JavaScript yields NaN or Infinity there). */
  datatype AxisResult = AxisResult(
    visible: bool,
    percentVisible: Option<real>,
    percentOfViewport: Option<real>,
    details: AxisDetails)

  /** The details of the combined mode: the two axes' details merged, with
      invisiblePart and visiblePart replaced by areas. */
  datatype BothDetails = BothDetails(
    elementWidth: real,
    elementHeight: real,
    invisibleLeft: real,
    invisibleRight: real,
    invisibleTop: real,
    invisibleBottom: real,
    distanceFromViewportLeft: real,
    distanceFromViewportRight: real,
    distanceFromViewportTop: real,
    distanceFromViewportBottom: real,
    invisiblePart: real,
    visiblePart: real)

  datatype BothResult = BothResult(
    visible: bool,
    percentVisible: Option<real>,
    percentOfViewport: Option<real>,
    details: BothDetails)

  /** What the plugin's entry point returns, by mode. */
  datatype Outcome =
    | AxisOutcome(axis: Axis, axisResult: AxisResult)
    | BothOutcome(bothResult: BothResult)

  /** A position as the layout engine reports it. */
  datatype Position = Position(top: real, left: real)

  /** The raw readings getValues takes from the page. viewportScroll is the
      scroll offset of the viewport, already resolved from the window or
      from the scrolling element. */
  datatype Measurements = Measurements(
    elementHeight: real,
    elementWidth: real,
    elementPosition: Position,
    wrapperPosition: Position,
    viewportHeight: real,
    viewportWidth: real,
    viewportScroll: Position)
  {
    predicate SizesNonNegative() {
      elementHeight >= 0.0 && elementWidth >= 0.0 &&
      viewportHeight >= 0.0 && viewportWidth >= 0.0
    }
  }

  /** The element on an axis, measured from the wrapper's edge. */
  function ElementExtent(m: Measurements, axis: Axis): Extent {
    match axis
    case Vertical =>
      var top := m.elementPosition.top - m.wrapperPosition.top;
      Extent(top, top + m.elementHeight, m.elementHeight)
    case Horizontal =>
      var left := m.elementPosition.left - m.wrapperPosition.left;
      Extent(left, left + m.elementWidth, m.elementWidth)
  }

  /** The viewport's visible part on an axis: from the scroll offset over
      the viewport's size. */
  function ViewportExtent(m: Measurements, axis: Axis): Extent {
    match axis
    case Vertical => Extent(m.viewportScroll.top, m.viewportScroll.top + m.viewportHeight, m.viewportHeight)
    case Horizontal => Extent(m.viewportScroll.left, m.viewportScroll.left + m.viewportWidth, m.viewportWidth)
  }

  /** The element's interval on an axis. */
  function MeasuredElement(m: Measurements, axis: Axis): Segment {
    ElementExtent(m, axis).Seg()
  }

  /** The viewport's visible interval on an axis. */
  function MeasuredViewport(m: Measurements, axis: Axis): Segment {
    ViewportExtent(m, axis).Seg()
  }

  /** The boxes whose projections are the measured extents. */
  function Measured(m: Measurements): Values {
    var ev, eh := ElementExtent(m, Vertical), ElementExtent(m, Horizontal);
    var wv, wh := ViewportExtent(m, Vertical), ViewportExtent(m, Horizontal);
    Values(Rect(ev.near, ev.far, eh.near, eh.far, ev.size, eh.size),
           Rect(wv.near, wv.far, wh.near, wh.far, wv.size, wh.size))
  }

  /** Area of the part of the element that the viewport shows. */
  function VisibleArea(values: Values): real {
    RectangleArea(
      Overlap(Project(values.element, Horizontal).Seg(), Project(values.viewport, Horizontal).Seg()),
      Overlap(Project(values.element, Vertical).Seg(), Project(values.viewport, Vertical).Seg()))
  }

  /** Both rectangles' interiors meet, axis by axis. */
  predicate IntersectsBoth(values: Values) {
    Intersects(Project(values.element, Vertical).Seg(), Project(values.viewport, Vertical).Seg()) &&
    Intersects(Project(values.element, Horizontal).Seg(), Project(values.viewport, Horizontal).Seg())
  }

  // ---------------------------------------------------------------------
  // Dispatcher: the mode argument
  // ---------------------------------------------------------------------

  /** The mode's name as the caller writes it. */
  function Name(d: Dimension): string {
    match d
    case Single(Vertical) => "vertical"
    case Single(Horizontal) => "horizontal"
    case Both => "both"
  }

  /** An absent or unrecognised mode falls back to vertical. */
  function ParseDimension(dimension: Option<string>): (d: Dimension)
    ensures d == Both <==> dimension == Some("both")
    ensures d == Single(Horizontal) <==> dimension == Some("horizontal")
    ensures d == Single(Vertical) <==> dimension != Some("both") && dimension != Some("horizontal")
  {
    if dimension == Some("horizontal") then Single(Horizontal)
    else if dimension == Some("both") then Both
    else Single(Vertical)
  }

  /** Every mode is recognised under its own name. */
  lemma ParseName(d: Dimension)
    ensures ParseDimension(Some(Name(d))) == d
  {
    match d
    case Single(Vertical) =>
    case Single(Horizontal) =>
      assert Name(d) != "both";
    case Both =>
      assert Name(d) != "horizontal";
  }

  // ---------------------------------------------------------------------
  // cropFloat
  // ---------------------------------------------------------------------

  /** Clamps value to the bounds that are given: first raised to min, then
      lowered to max, so max wins when the bounds cross. */
  method CropFloat(value: real, min: Option<real>, max: Option<real>) returns (r: real)
    ensures min.Some? && max.Some? && min.value <= max.value ==> min.value <= r <= max.value
    ensures min.Some? && max.Some? && min.value > max.value ==> r == max.value
    ensures (min.None? || min.value <= value) && (max.None? || value <= max.value) ==> r == value
    ensures min.Some? && value < min.value && (max.None? || min.value <= max.value) ==> r == min.value
    ensures max.Some? && value > max.value ==> r == max.value
    ensures min.Some? && max.None? ==> r == Max(value, min.value)
    ensures min.None? && max.Some? ==> r == Min(value, max.value)
  {
    r := value;
    if min.Some? {
      r := if r < min.value then min.value else r;
    }
    if max.Some? {
      r := if r > max.value then max.value else r;
    }
  }

  // ---------------------------------------------------------------------
  // getValues
  // ---------------------------------------------------------------------

  /** Fills the measurements object from the raw readings: the element's
      position relative to the wrapper, the viewport's visible area from its
      scroll offset, and every far edge as near edge plus size. */
  method GetValues(m: Measurements) returns (v: Values)
    ensures v.element.Consistent() && v.viewport.Consistent()
    ensures v.Proper() <==> m.SizesNonNegative()
    ensures v.element.height == m.elementHeight && v.element.width == m.elementWidth
    ensures v.viewport.height == m.viewportHeight && v.viewport.width == m.viewportWidth
    ensures forall axis ::
      Project(v.element, axis) == ElementExtent(m, axis) &&
      Project(v.viewport, axis) == ViewportExtent(m, axis)
    ensures v == Measured(m)
  {
    var elementHeight := m.elementHeight;
    var elementWidth := m.elementWidth;
    var elementTop := m.elementPosition.top - m.wrapperPosition.top;
    var elementBottom := elementTop + elementHeight;
    var elementLeft := m.elementPosition.left - m.wrapperPosition.left;
    var elementRight := elementLeft + elementWidth;

    var viewportHeight := m.viewportHeight;
    var viewportWidth := m.viewportWidth;
    var viewportTop := m.viewportScroll.top;
    var viewportBottom := viewportTop + m.viewportHeight;
    var viewportLeft := m.viewportScroll.left;
    var viewportRight := viewportLeft + m.viewportWidth;

    v := Values(
      Rect(elementTop, elementBottom, elementLeft, elementRight, elementHeight, elementWidth),
      Rect(viewportTop, viewportBottom, viewportLeft, viewportRight, viewportHeight, viewportWidth));
  }

  /** Moving the element and the wrapper together leaves the measured
      element where it was: only their difference counts. */
  lemma WrapperOffsetCancels(m: Measurements, dTop: real, dLeft: real, axis: Axis)
    ensures
      var shifted := m.(
        elementPosition := Position(m.elementPosition.top + dTop, m.elementPosition.left + dLeft),
        wrapperPosition := Position(m.wrapperPosition.top + dTop, m.wrapperPosition.left + dLeft));
      MeasuredElement(shifted, axis) == MeasuredElement(m, axis)
  {
  }

  // ---------------------------------------------------------------------
  // vertical / horizontal
  // ---------------------------------------------------------------------

  /** The parts of an element e hidden before and after a viewport w, their
      total, and the visible rest (the hidden parts are clamped to the
      element's size, and the visible rest to 0). */
  method HiddenParts(e: Extent, w: Extent)
    returns (invisibleNear: real, invisibleFar: real, invisiblePart: real, visiblePart: real)
    ensures e.size >= 0.0 ==>
      0.0 <= invisibleNear <= e.size && 0.0 <= invisibleFar <= e.size
    ensures invisiblePart >= 0.0
    ensures 0.0 <= visiblePart && (e.size >= 0.0 ==> visiblePart <= e.size)
    ensures e.Consistent() && e.size >= 0.0 ==>
      invisibleNear == Before(e.Seg(), w.near) &&
      invisibleFar == After(e.Seg(), w.far) &&
      visiblePart == Overlap(e.Seg(), w.Seg())
    ensures e.Consistent() && w.Consistent() && e.size >= 0.0 && w.size >= 0.0 ==>
      invisiblePart <= e.size && visiblePart + invisiblePart == e.size
  {
    invisibleNear := CropFloat(w.near - e.near, Some(0.0), Some(e.size));
    invisibleFar := CropFloat(e.far - w.far, Some(0.0), Some(e.size));

    invisiblePart := 0.0;
    if invisibleNear > 0.0 {
      invisiblePart := invisiblePart + invisibleNear;
    }
    if invisibleFar > 0.0 {
      invisiblePart := invisiblePart + invisibleFar;
    }

    visiblePart := CropFloat(e.size - invisiblePart, Some(0.0), None);

    if e.Consistent() && w.Consistent() && e.size >= 0.0 && w.size >= 0.0 {
      Partition(e.Seg(), w.Seg());
    }
  }

  /** How far an element e lies beyond the far edge of a viewport w
      (distanceNear) or before its near edge (distanceFar). */
  method Distances(e: Extent, w: Extent) returns (distanceNear: real, distanceFar: real)
    ensures distanceNear >= 0.0 && distanceFar >= 0.0
    ensures Intersects(e.Seg(), w.Seg()) ==> distanceNear == 0.0 && distanceFar == 0.0
    ensures e.far <= w.near ==> distanceFar == w.near - e.far
    ensures w.far <= e.near ==> distanceNear == e.near - w.far
    ensures e.Consistent() && w.Consistent() && e.size >= 0.0 && w.size >= 0.0 ==>
      (distanceNear == 0.0 || distanceFar == 0.0) &&
      distanceNear + distanceFar == Distance(e.Seg(), w.Seg())
  {
    distanceNear := CropFloat(e.near - w.far, Some(0.0), None);
    distanceFar := CropFloat(w.near - e.far, Some(0.0), None);
  }

  /** What an evaluation r of element e against viewport w means: visible
      exactly when the interiors meet, the percentages as fractions of the
      visible part, and, for a consistent element of non-negative size, the
      hidden and visible parts as lengths of the pieces of e before, inside
      and after w. */
  predicate AxisMeaning(e: Extent, w: Extent, r: AxisResult) {
    AxisGeometry(e, w, r) && AxisPercentages(e, w, r)
  }

  /** The visibility and the details of r as the geometry of e and w
      describes them: the hidden parts clamped into [0, size], the
      distances as the gaps beyond each edge, and, for a consistent
      element of non-negative size, the hidden and visible parts as the
      lengths of the pieces before, inside and after w. */
  predicate AxisGeometry(e: Extent, w: Extent, r: AxisResult) {
    && r.visible == Intersects(e.Seg(), w.Seg())
    && r.details.elementSize == e.size
    && (e.size >= 0.0 ==>
          0.0 <= r.details.invisibleNear <= e.size && 0.0 <= r.details.invisibleFar <= e.size)
    && r.details.invisiblePart >= 0.0 && r.details.visiblePart >= 0.0
    && (e.Consistent() && e.size >= 0.0 ==>
          && r.details.invisibleNear == Before(e.Seg(), w.near)
          && r.details.invisibleFar == After(e.Seg(), w.far)
          && r.details.visiblePart == Overlap(e.Seg(), w.Seg())
          && 0.0 <= r.details.visiblePart <= e.size)
    && (e.Consistent() && w.Consistent() && e.size >= 0.0 && w.size >= 0.0 ==>
          && r.details.invisiblePart <= e.size
          && r.details.visiblePart + r.details.invisiblePart == e.size)
    && r.details.distanceFromViewportNear >= 0.0 && r.details.distanceFromViewportFar >= 0.0
    && (r.visible ==> r.details.distanceFromViewportNear == 0.0 && r.details.distanceFromViewportFar == 0.0)
    && (e.far <= w.near ==> r.details.distanceFromViewportFar == w.near - e.far)
    && (w.far <= e.near ==> r.details.distanceFromViewportNear == e.near - w.far)
    && (e.Consistent() && w.Consistent() && e.size >= 0.0 && w.size >= 0.0 ==>
          && (r.details.distanceFromViewportNear == 0.0 || r.details.distanceFromViewportFar == 0.0)
          && r.details.distanceFromViewportNear + r.details.distanceFromViewportFar ==
             Distance(e.Seg(), w.Seg()))
  }

  /** The percentages of r as the fractions of e and w that are visible. */
  predicate AxisPercentages(e: Extent, w: Extent, r: AxisResult) {
    && r.percentVisible == Ratio(r.details.visiblePart, e.size)
    && r.percentOfViewport == Ratio(r.details.visiblePart, w.size)
  }

  /** Evaluates one axis of an element e against a viewport w. The vertical
      and horizontal evaluations are this method applied to
      Project(_, Vertical) and Project(_, Horizontal). */
  method EvaluateAxis(e: Extent, w: Extent) returns (r: AxisResult)
    ensures AxisMeaning(e, w, r)
    // visibility: strict, so boxes that only touch are not visible
    ensures r.visible <==> e.far > w.near && e.near < w.far
  {
    var visible := e.far > w.near && e.near < w.far;
    var invisibleNear, invisibleFar, invisiblePart, visiblePart := HiddenParts(e, w);
    var distanceNear, distanceFar := Distances(e, w);

    var percentVisible := Ratio(visiblePart, e.size);
    var percentOfViewport := Ratio(visiblePart, w.size);

    r := AxisResult(visible, percentVisible, percentOfViewport,
      AxisDetails(e.size, invisibleNear, invisibleFar, invisiblePart, visiblePart,
                  distanceNear, distanceFar));
  }

  /** The percentage of the element an axis evaluation r reports is a
      fraction, 1 exactly when the element lies inside the viewport (and so
      is visible in full) and 0 exactly when it is not visible. */
  lemma PercentVisibleIsFraction(e: Extent, w: Extent, r: AxisResult)
    requires AxisMeaning(e, w, r)
    ensures e.Consistent() && e.size > 0.0 ==>
      (Within(e.Seg(), w.Seg()) <==> r.details.visiblePart == e.size)
    ensures e.Consistent() && e.size > 0.0 ==>
      r.percentVisible.Some? && 0.0 <= r.percentVisible.value <= 1.0 &&
      (r.percentVisible == Some(1.0) <==> Within(e.Seg(), w.Seg()))
    ensures e.Consistent() && w.Consistent() && e.size > 0.0 && w.size > 0.0 ==>
      (r.percentVisible == Some(0.0) <==> !r.visible)
    ensures e.Consistent() && e.size > 0.0 && !r.visible ==>
      r.details.visiblePart == 0.0 && r.percentVisible == Some(0.0)
  {
    if e.Consistent() && e.size > 0.0 {
      FractionOfWhole(r.details.visiblePart, e.size);
      WithinIffFullOverlap(e.Seg(), w.Seg());
      if !r.visible {
        ApartHasNoOverlap(e.Seg(), w.Seg());
      }
      if w.Consistent() && w.size > 0.0 {
        IntersectsIffOverlap(e.Seg(), w.Seg());
      }
    }
  }

  /** The percentage of the viewport an axis evaluation r reports is a
      fraction, 1 exactly when the element covers the whole viewport. */
  lemma PercentOfViewportIsFraction(e: Extent, w: Extent, r: AxisResult)
    requires AxisMeaning(e, w, r)
    ensures e.Consistent() && w.Consistent() && e.size >= 0.0 && w.size > 0.0 ==>
      && r.percentOfViewport.Some?
      && 0.0 <= r.percentOfViewport.value <= 1.0
      && (r.percentOfViewport == Some(1.0) <==> Within(w.Seg(), e.Seg()))
  {
    if e.Consistent() && w.Consistent() && e.size >= 0.0 && w.size > 0.0 {
      OverlapBounded(e.Seg(), w.Seg());
      FractionOfWhole(r.details.visiblePart, w.size);
      WithinIffFullOverlap(w.Seg(), e.Seg());
      assert Overlap(w.Seg(), e.Seg()) == Overlap(e.Seg(), w.Seg());
    }
  }

  /** For proper boxes both distances of an axis evaluation r are 0 exactly
      when the element at least touches the viewport. */
  lemma DistancesVanishIffTouching(e: Extent, w: Extent, r: AxisResult)
    requires AxisMeaning(e, w, r)
    ensures e.Consistent() && w.Consistent() && e.size >= 0.0 && w.size >= 0.0 ==>
      (r.details.distanceFromViewportNear == 0.0 && r.details.distanceFromViewportFar == 0.0
       <==> e.far >= w.near && e.near <= w.far)
  {
    DistanceZeroIffTouching(e.Seg(), w.Seg());
  }

  /** The vertical (axis Vertical) or horizontal (axis Horizontal)
      evaluation of values. */
  method EvaluateOn(values: Values, axis: Axis) returns (r: AxisResult)
    ensures AxisMeaning(Project(values.element, axis), Project(values.viewport, axis), r)
  {
    r := EvaluateAxis(Project(values.element, axis), Project(values.viewport, axis));
  }

  /** Transposing a box exchanges its vertical and horizontal projections. */
  lemma TransposeSwapsAxes(r: Rect)
    ensures Project(Transpose(r), Vertical) == Project(r, Horizontal)
    ensures Project(Transpose(r), Horizontal) == Project(r, Vertical)
    ensures Transpose(r).Proper() <==> r.Proper()
  {
  }

  /** What the horizontal evaluation of values must report is what the
      vertical evaluation of the transposed boxes must report, and the
      other way round. This holds by construction: Project and Transpose
      unfold to the same extents on both sides. */
  lemma TransposedEvaluation(values: Values, res: AxisResult)
    ensures
      AxisMeaning(Project(values.element, Horizontal), Project(values.viewport, Horizontal), res) <==>
      AxisMeaning(Project(Transpose(values.element), Vertical), Project(Transpose(values.viewport), Vertical), res)
    ensures
      AxisMeaning(Project(values.element, Vertical), Project(values.viewport, Vertical), res) <==>
      AxisMeaning(Project(Transpose(values.element), Horizontal), Project(Transpose(values.viewport), Horizontal), res)
  {
    TransposeSwapsAxes(values.element);
    TransposeSwapsAxes(values.viewport);
  }

  // ---------------------------------------------------------------------
  // both
  // ---------------------------------------------------------------------

  /** What a combined evaluation r of values means: visible when both axes
      are, the percentages as the fractions of the element's and the
      viewport's areas that the visible rectangle covers, each axis'
      distances as on that axis, and, for proper boxes, the visible part as
      the area of that rectangle and each axis' hidden parts as on that axis. */
  predicate BothMeaning(values: Values, r: BothResult) {
    && r.visible == IntersectsBoth(values)
    && r.details.elementHeight == values.element.height
    && r.details.elementWidth == values.element.width
    && r.details.invisiblePart == values.element.Area() - r.details.visiblePart
    && r.percentVisible == Ratio(r.details.visiblePart, values.element.Area())
    && r.percentOfViewport == Ratio(r.details.visiblePart, values.viewport.Area())
    && BothDistances(values, r.details)
    && (values.Proper() ==>
          && r.details.visiblePart == VisibleArea(values)
          && 0.0 <= r.details.visiblePart <= values.element.Area()
          && 0.0 <= r.details.invisiblePart <= values.element.Area())
    && (values.Proper() ==> BothHidden(values, r.details))
  }

  /** The four distances of d: non-negative, 0 on an axis whose interiors
      meet, and otherwise the gap to the edge the element lies beyond. */
  predicate BothDistances(values: Values, d: BothDetails) {
    var ev, wv := Project(values.element, Vertical), Project(values.viewport, Vertical);
    var eh, wh := Project(values.element, Horizontal), Project(values.viewport, Horizontal);
    && d.distanceFromViewportTop >= 0.0 && d.distanceFromViewportBottom >= 0.0
    && d.distanceFromViewportLeft >= 0.0 && d.distanceFromViewportRight >= 0.0
    && (Intersects(ev.Seg(), wv.Seg()) ==>
          d.distanceFromViewportTop == 0.0 && d.distanceFromViewportBottom == 0.0)
    && (Intersects(eh.Seg(), wh.Seg()) ==>
          d.distanceFromViewportLeft == 0.0 && d.distanceFromViewportRight == 0.0)
    && (ev.far <= wv.near ==> d.distanceFromViewportBottom == wv.near - ev.far)
    && (wv.far <= ev.near ==> d.distanceFromViewportTop == ev.near - wv.far)
    && (eh.far <= wh.near ==> d.distanceFromViewportRight == wh.near - eh.far)
    && (wh.far <= eh.near ==> d.distanceFromViewportLeft == eh.near - wh.far)
  }

  /** The hidden parts and distance sums of d as the interval geometry of
      each axis gives them. */
  predicate BothHidden(values: Values, d: BothDetails) {
    var ev, wv := Project(values.element, Vertical), Project(values.viewport, Vertical);
    var eh, wh := Project(values.element, Horizontal), Project(values.viewport, Horizontal);
    && d.invisibleTop == Before(ev.Seg(), wv.near)
    && d.invisibleBottom == After(ev.Seg(), wv.far)
    && d.invisibleLeft == Before(eh.Seg(), wh.near)
    && d.invisibleRight == After(eh.Seg(), wh.far)
    && d.distanceFromViewportTop + d.distanceFromViewportBottom == Distance(ev.Seg(), wv.Seg())
    && d.distanceFromViewportLeft + d.distanceFromViewportRight == Distance(eh.Seg(), wh.Seg())
  }

  /** Combines the two axes, as BothMeaning describes. */
  method EvaluateBoth(values: Values) returns (r: BothResult)
    ensures BothMeaning(values, r)
  {
    var v := EvaluateOn(values, Vertical);
    var h := EvaluateOn(values, Horizontal);
    var visible := v.visible && h.visible;
    var percentVisible := MultiplyRatios(v.percentVisible, h.percentVisible,
      v.details.visiblePart, values.element.height, h.details.visiblePart, values.element.width);
    var percentOfViewport := MultiplyRatios(v.percentOfViewport, h.percentOfViewport,
      v.details.visiblePart, values.viewport.height, h.details.visiblePart, values.viewport.width);
    var details := MergeDetails(values, v, h);
    r := BothResult(visible, percentVisible, percentOfViewport, details);
  }

  /** The details of the combined evaluation, from the vertical result v
      and the horizontal result h: the horizontal details merged with the
      vertical ones, with the per-axis visiblePart and invisiblePart
      replaced by the area of the visible rectangle and the rest of the
      element's area. */
  method MergeDetails(values: Values, v: AxisResult, h: AxisResult) returns (d: BothDetails)
    requires v.details.elementSize == values.element.height
    requires h.details.elementSize == values.element.width
    requires values.Proper() ==> 0.0 <= v.details.visiblePart <= values.element.height
    requires values.Proper() ==> 0.0 <= h.details.visiblePart <= values.element.width
    ensures d.visiblePart == RectangleArea(h.details.visiblePart, v.details.visiblePart)
    ensures d.elementHeight == values.element.height
    ensures d.elementWidth == values.element.width
    ensures d.invisiblePart == values.element.Area() - d.visiblePart
    ensures d.invisibleTop == v.details.invisibleNear
    ensures d.invisibleBottom == v.details.invisibleFar
    ensures d.invisibleLeft == h.details.invisibleNear
    ensures d.invisibleRight == h.details.invisibleFar
    ensures d.distanceFromViewportTop == v.details.distanceFromViewportNear
    ensures d.distanceFromViewportBottom == v.details.distanceFromViewportFar
    ensures d.distanceFromViewportLeft == h.details.distanceFromViewportNear
    ensures d.distanceFromViewportRight == h.details.distanceFromViewportFar
    ensures values.Proper() ==>
      && 0.0 <= d.visiblePart <= values.element.Area()
      && 0.0 <= d.invisiblePart <= values.element.Area()
  {
    var visiblePart := RectangleArea(h.details.visiblePart, v.details.visiblePart);
    var invisiblePart := RectangleArea(h.details.elementSize, v.details.elementSize) - visiblePart;
    d := BothDetails(
      h.details.elementSize, v.details.elementSize,
      h.details.invisibleNear, h.details.invisibleFar,
      v.details.invisibleNear, v.details.invisibleFar,
      h.details.distanceFromViewportNear, h.details.distanceFromViewportFar,
      v.details.distanceFromViewportNear, v.details.distanceFromViewportFar,
      invisiblePart, visiblePart);
    if values.Proper() {
      AreaBounded(h.details.visiblePart, values.element.width, v.details.visiblePart, values.element.height);
    }
  }

  /** The product r = p * q of the percentages p = x / a and q = y / b,
      which is the fraction of the rectangle with sides b and a that the
      rectangle with sides y and x covers. */
  method MultiplyRatios(p: Option<real>, q: Option<real>, x: real, a: real, y: real, b: real)
    returns (r: Option<real>)
    requires p == Ratio(x, a) && q == Ratio(y, b)
    ensures r == Ratio(RectangleArea(y, x), RectangleArea(b, a))
  {
    r := Product(p, q);
    ProductOfRatios(x, a, y, b);
  }

  /** For proper boxes, the combined result r is the two axis results rv
      and rh multiplied: visible when both are, and each percentage the
      product of the axes' percentages. */
  lemma BothIsProductOfAxes(values: Values, r: BothResult, rv: AxisResult, rh: AxisResult)
    requires values.Proper()
    requires BothMeaning(values, r)
    requires AxisMeaning(Project(values.element, Vertical), Project(values.viewport, Vertical), rv)
    requires AxisMeaning(Project(values.element, Horizontal), Project(values.viewport, Horizontal), rh)
    ensures r.visible == (rv.visible && rh.visible)
    ensures r.percentVisible == Product(rv.percentVisible, rh.percentVisible)
    ensures r.percentOfViewport == Product(rv.percentOfViewport, rh.percentOfViewport)
  {
    assert r.details.visiblePart == RectangleArea(rh.details.visiblePart, rv.details.visiblePart);
    ProductOfRatios(rv.details.visiblePart, values.element.height, rh.details.visiblePart, values.element.width);
    ProductOfRatios(rv.details.visiblePart, values.viewport.height, rh.details.visiblePart, values.viewport.width);
  }

  // ---------------------------------------------------------------------
  // $.fn.isInViewport
  // ---------------------------------------------------------------------

  /** The plugin's entry point: normalises the mode, reads the values and
      runs the evaluation the mode names. */
  method IsInViewport(dimension: Option<string>, m: Measurements) returns (r: Outcome)
    ensures r.BothOutcome? <==> ParseDimension(dimension) == Both
    ensures r.AxisOutcome? ==> Single(r.axis) == ParseDimension(dimension)
    ensures r.AxisOutcome? ==>
      AxisMeaning(ElementExtent(m, r.axis), ViewportExtent(m, r.axis), r.axisResult)
    ensures r.BothOutcome? ==> BothMeaning(Measured(m), r.bothResult)
  {
    var mode := ParseDimension(dimension);
    var values := GetValues(m);
    match mode
    case Single(axis) =>
      var res := EvaluateOn(values, axis);
      r := AxisOutcome(axis, res);
    case Both =>
      var res := EvaluateBoth(values);
      r := BothOutcome(res);
  }

  /** A single-axis result that means what AxisMeaning says of the measured
      extents, read in terms of the readings: visible exactly when the
      measured intervals' interiors meet, with their overlap as the visible
      part when the sizes are non-negative. */
  lemma AxisReadings(m: Measurements, axis: Axis, r: AxisResult)
    requires AxisMeaning(ElementExtent(m, axis), ViewportExtent(m, axis), r)
    ensures r.visible == Intersects(MeasuredElement(m, axis), MeasuredViewport(m, axis))
    ensures m.SizesNonNegative() ==>
      r.details.visiblePart == Overlap(MeasuredElement(m, axis), MeasuredViewport(m, axis))
  {
  }

  /** A combined result that means what BothMeaning says of the measured
      boxes, read in terms of the readings: visible exactly when the measured
      intervals' interiors meet on both axes, the percentages as the visible
      part over width times height, and, for non-negative sizes, the visible
      part as the area of the overlap rectangle. */
  lemma BothReadings(m: Measurements, r: BothResult)
    requires BothMeaning(Measured(m), r)
    ensures r.visible ==
      (Intersects(MeasuredElement(m, Vertical), MeasuredViewport(m, Vertical)) &&
       Intersects(MeasuredElement(m, Horizontal), MeasuredViewport(m, Horizontal)))
    ensures r.percentVisible == Ratio(r.details.visiblePart, RectangleArea(m.elementWidth, m.elementHeight))
    ensures r.percentOfViewport == Ratio(r.details.visiblePart, RectangleArea(m.viewportWidth, m.viewportHeight))
    ensures m.SizesNonNegative() ==>
      r.details.visiblePart ==
        RectangleArea(
          Overlap(MeasuredElement(m, Horizontal), MeasuredViewport(m, Horizontal)),
          Overlap(MeasuredElement(m, Vertical), MeasuredViewport(m, Vertical)))
  {
  }
}
