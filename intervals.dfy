/** Reference geometry of closed intervals on one axis. The viewport
    computations are specified against these definitions, which describe
    overlap and distance directly rather than through clamping. */
module Intervals {
  import opened Wrappers

  /** The closed interval [lo, hi]. */
  datatype Segment = Segment(lo: real, hi: real) {
    function Length(): real { hi - lo }
  }

  function Min(a: real, b: real): real { if a <= b then a else b }

  function Max(a: real, b: real): real { if a <= b then b else a }

  /** Length of the common part of a and b; 0 when they do not overlap. */
  function Overlap(a: Segment, b: Segment): real {
    Max(0.0, Min(a.hi, b.hi) - Max(a.lo, b.lo))
  }

  /** Length of the part of a that lies before the point edge. */
  function Before(a: Segment, edge: real): real {
    Max(0.0, Min(a.hi, edge) - a.lo)
  }

  /** Length of the part of a that lies after the point edge. */
  function After(a: Segment, edge: real): real {
    Max(0.0, a.hi - Max(a.lo, edge))
  }

  /** Length of the gap between a and b; 0 when they touch or overlap. */
  function Distance(a: Segment, b: Segment): real {
    Max(0.0, Max(a.lo - b.hi, b.lo - a.hi))
  }

  /** The interiors of a and b have a point in common: merely touching end
      points do not count. */
  predicate Intersects(a: Segment, b: Segment) {
    a.hi > b.lo && a.lo < b.hi
  }

  /** a lies entirely inside b. */
  predicate Within(a: Segment, b: Segment) {
    b.lo <= a.lo && a.hi <= b.hi
  }

  /** Area of a rectangle whose sides have lengths a and b. */
  function RectangleArea(a: real, b: real): real { a * b }

  /** x / d, or None where the division has no finite value. */
  function Ratio(x: real, d: real): Option<real> {
    if d == 0.0 then None else Some(x / d)
  }

  /** Product of two ratios; undefined when either factor is. */
  function Product(p: Option<real>, q: Option<real>): Option<real> {
    if p.Some? && q.Some? then Some(p.value * q.value) else None
  }

  /** The overlap is no longer than either interval. */
  lemma OverlapBounded(a: Segment, b: Segment)
    requires a.Length() >= 0.0
    ensures 0.0 <= Overlap(a, b) <= a.Length()
    ensures b.Length() >= 0.0 ==> Overlap(a, b) <= b.Length()
  {
  }

  /** An interval splits into what lies before, inside and after another
      non-empty interval. */
  lemma Partition(a: Segment, b: Segment)
    requires a.Length() >= 0.0 && b.Length() >= 0.0
    ensures Before(a, b.lo) + Overlap(a, b) + After(a, b.hi) == a.Length()
  {
  }

  /** For intervals of positive length, the interiors meet exactly when
      the overlap has positive length. */
  lemma IntersectsIffOverlap(a: Segment, b: Segment)
    requires a.Length() > 0.0 && b.Length() > 0.0
    ensures Intersects(a, b) <==> Overlap(a, b) > 0.0
  {
  }

  /** Intervals whose interiors are apart have no overlap. */
  lemma ApartHasNoOverlap(a: Segment, b: Segment)
    requires !Intersects(a, b)
    ensures Overlap(a, b) == 0.0
  {
  }

  /** An interval of positive length lies inside another exactly when all
      of it overlaps. */
  lemma WithinIffFullOverlap(a: Segment, b: Segment)
    requires a.Length() > 0.0
    ensures Within(a, b) <==> Overlap(a, b) == a.Length()
  {
  }

  /** Overlapping intervals are at distance 0, and intervals at distance 0
      at least touch. */
  lemma DistanceZeroIffTouching(a: Segment, b: Segment)
    ensures Distance(a, b) == 0.0 <==> a.hi >= b.lo && a.lo <= b.hi
  {
  }

  /** A part x of a whole d > 0 is a fraction between 0 and 1, which is 1
      exactly for the whole and 0 exactly for nothing. */
  lemma FractionOfWhole(x: real, d: real)
    requires 0.0 <= x <= d && d > 0.0
    ensures Ratio(x, d).Some?
    ensures 0.0 <= Ratio(x, d).value <= 1.0
    ensures Ratio(x, d).value == 1.0 <==> x == d
    ensures Ratio(x, d).value == 0.0 <==> x == 0.0
  {
  }

  /** The product of two ratios is the ratio of the products. */
  lemma ProductOfRatios(x: real, a: real, y: real, b: real)
    ensures Product(Ratio(x, a), Ratio(y, b)) == Ratio(RectangleArea(y, x), RectangleArea(b, a))
  {
    if a == 0.0 || b == 0.0 {
      assert b * a == 0.0;
    } else {
      assert b * a != 0.0;
      var p, q := x / a, y / b;
      assert p * a == x && q * b == y;
      assert (p * q) * (b * a) == (q * b) * (p * a);
      var lhs, rhs := Product(Ratio(x, a), Ratio(y, b)), Ratio(RectangleArea(y, x), RectangleArea(b, a));
      assert lhs.Some? && lhs.value == p * q;
      assert rhs.Some? && rhs.value == p * q;
    }
  }

  /** A rectangle inside another has no larger area. */
  lemma AreaBounded(x: real, a: real, y: real, b: real)
    requires 0.0 <= x <= a && 0.0 <= y <= b
    ensures 0.0 <= RectangleArea(x, y) <= RectangleArea(a, b)
  {
  }
}
