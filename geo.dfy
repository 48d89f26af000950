/**
  Shared vocabulary of the two map components: a geographic
  point in `[lat, lng]` order (Leaflet's convention), and linear interpolation
  between two points, which both animation loops use to place a moving marker.
 */
module Geo {

  /** A Leaflet `[lat, lng]` pair. */
  datatype Point = Point(lat: real, lng: real)

  /** The smaller and larger of two reals. */
  function Min(a: real, b: real): real { if a <= b then a else b }
  function Max(a: real, b: real): real { if a <= b then b else a }

  /** One coordinate of `a + (b - a) * t`. */
  function LerpScalar(a: real, b: real, t: real): real
  {
    a + (b - a) * t
  }

  /** The point a fraction `t` of the way from `a` to `b`, coordinate by coordinate. */
  function Lerp(a: Point, b: Point, t: real): Point
  {
    Point(LerpScalar(a.lat, b.lat, t), LerpScalar(a.lng, b.lng, t))
  }

  /** For `t` in `[0, 1]` the interpolated coordinate lies between its two ends. */
  lemma LerpScalarBetween(a: real, b: real, t: real)
    requires 0.0 <= t <= 1.0
    ensures Min(a, b) <= LerpScalar(a, b, t) <= Max(a, b)
  {
    if a <= b {
      ScaleWithinUnit(b - a, t);
    } else {
      ScaleWithinUnit(a - b, t);
      assert (b - a) * t == -((a - b) * t);
    }
  }

  /** Scaling a non-negative length by a factor in `[0, 1]` keeps it within `[0, length]`. */
  lemma ScaleWithinUnit(c: real, t: real)
    requires 0.0 <= c && 0.0 <= t <= 1.0
    ensures 0.0 <= c * t <= c
  {
    assert c - c * t == c * (1.0 - t);
  }

  /** A factor in `[0, 1)` scales a positive length into `[0, length)`. */
  lemma ScaleBelowUnit(c: real, t: real)
    requires 0.0 < c && 0.0 <= t < 1.0
    ensures 0.0 <= c * t < c
  {
    assert c - c * t == c * (1.0 - t);
    assert c * (1.0 - t) > 0.0;
  }

  /** The interpolated point lies in the bounding box of the segment's two ends. */
  lemma LerpInBox(a: Point, b: Point, t: real)
    requires 0.0 <= t <= 1.0
    ensures Min(a.lat, b.lat) <= Lerp(a, b, t).lat <= Max(a.lat, b.lat)
    ensures Min(a.lng, b.lng) <= Lerp(a, b, t).lng <= Max(a.lng, b.lng)
  {
    LerpScalarBetween(a.lat, b.lat, t);
    LerpScalarBetween(a.lng, b.lng, t);
  }

  /** At `t = 0` the interpolation is exactly the start point, at `t = 1` the end point. */
  lemma LerpEnds(a: Point, b: Point)
    ensures Lerp(a, b, 0.0) == a && Lerp(a, b, 1.0) == b
  {
  }
}
