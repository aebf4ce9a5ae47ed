/** Points, the length of a polyline and walking along it (courier-service domain/geo.ts and route-progress.ts). */
module Geometry {
  import opened Common

  datatype GeoPoint = GeoPoint(lat: real, lng: real)

  /** Distance in metres. Only its sign is used: the trigonometry behind it is not modelled. */
  type Metric = d: (GeoPoint, GeoPoint) -> real | forall a, b :: d(a, b) >= 0.0
    witness (a: GeoPoint, b: GeoPoint) => 0.0

  /** The interior points of a great circle: arc(from, to, step, segments). */
  type Arc = (GeoPoint, GeoPoint, nat, nat) -> GeoPoint

  // ---------- length ----------

  function PolylineMeters(dist: Metric, points: seq<GeoPoint>): (total: real)
    ensures total >= 0.0
  {
    var n := |points|;
    if n < 2 then 0.0
    else PolylineMeters(dist, points[..n - 1]) + dist(points[n - 2], points[n - 1])
  }

  method MeasurePolyline(dist: Metric, points: seq<GeoPoint>) returns (total: real)
    ensures total == PolylineMeters(dist, points)
  {
    total := 0.0;
    if points == [] {
      return;
    }
    var index := 1;
    while index < |points|
      invariant 1 <= index <= |points|
      invariant total == PolylineMeters(dist, points[..index])
    {
      assert points[..index + 1][..index] == points[..index];
      total := total + dist(points[index - 1], points[index]);
      index := index + 1;
    }
    assert points[..index] == points;
  }

  // ---------- walking ----------

  function Interpolate(from: GeoPoint, to: GeoPoint, ratio: real): GeoPoint {
    GeoPoint(from.lat + (to.lat - from.lat) * ratio, from.lng + (to.lng - from.lng) * ratio)
  }

  /** Where `left` more metres lead when the walk stands at point index - 1. */
  function WalkFrom(dist: Metric, points: seq<GeoPoint>, index: nat, left: real): GeoPoint
    requires 1 <= index <= |points|
    decreases |points| - index
  {
    if index == |points| then points[|points| - 1]
    else
      var segment := dist(points[index - 1], points[index]);
      if left <= segment && segment > 0.0
      then Interpolate(points[index - 1], points[index], left / segment)
      else WalkFrom(dist, points, index + 1, left - segment)
  }

  function PointAlong(dist: Metric, points: seq<GeoPoint>, meters: real): GeoPoint
    requires points != []
  {
    WalkFrom(dist, points, 1, MaxReal(0.0, meters))
  }

  /** The walk as the source runs it; None is its "empty route" error. */
  method WalkPolyline(dist: Metric, points: seq<GeoPoint>, meters: real) returns (point: Option<GeoPoint>)
    ensures point == if points == [] then None else Some(PointAlong(dist, points, meters))
  {
    if points == [] {
      return None;
    }
    var left := MaxReal(0.0, meters);
    var index := 1;
    while index < |points|
      invariant 1 <= index <= |points|
      invariant WalkFrom(dist, points, index, left) == PointAlong(dist, points, meters)
    {
      var from, to := points[index - 1], points[index];
      var segment := dist(from, to);
      if left <= segment && segment > 0.0 {
        return Some(Interpolate(from, to, left / segment));
      }
      left := left - segment;
      index := index + 1;
    }
    return Some(points[|points| - 1]);
  }

  /** `p` lies on segment i at ratio r, exactly `meters` of road after the first point. */
  ghost predicate LiesOn(dist: Metric, points: seq<GeoPoint>, p: GeoPoint, meters: real, i: nat, r: real) {
    && i + 1 < |points|
    && 0.0 <= r <= 1.0
    && p == Interpolate(points[i], points[i + 1], r)
    && PolylineMeters(dist, points[..i + 1]) + r * dist(points[i], points[i + 1]) == meters
  }

  ghost predicate LiesAt(dist: Metric, points: seq<GeoPoint>, p: GeoPoint, meters: real) {
    exists i, r :: LiesOn(dist, points, p, meters, i, r)
  }

  /** The walk ends on the segment before `index`. */
  lemma EndsOnSegment(dist: Metric, points: seq<GeoPoint>, index: nat, left: real)
    requires 1 <= index < |points| && 0.0 <= left <= dist(points[index - 1], points[index])
    requires dist(points[index - 1], points[index]) > 0.0
    ensures LiesAt(dist, points, WalkFrom(dist, points, index, left), PolylineMeters(dist, points[..index]) + left)
  {
    var from, to := points[index - 1], points[index];
    RatioWithinUnit(left, dist(from, to));
    assert LiesOn(dist, points, Interpolate(from, to, left / dist(from, to)),
      PolylineMeters(dist, points[..index]) + left,
                  index - 1, left / dist(from, to));
  }

  lemma EndsAtLastPoint(dist: Metric, points: seq<GeoPoint>)
    requires 2 <= |points|
    ensures LiesAt(dist, points, points[|points| - 1], PolylineMeters(dist, points))
  {
    var n := |points|;
    assert points[..n] == points && points[..n][..n - 1] == points[..n - 1];
    assert LiesOn(dist, points, points[n - 1], PolylineMeters(dist, points), n - 2, 1.0);
  }

  lemma OneSegmentMore(dist: Metric, points: seq<GeoPoint>, index: nat)
    requires 1 <= index < |points|
    ensures PolylineMeters(dist, points[..index + 1])
         == PolylineMeters(dist, points[..index]) + dist(points[index - 1], points[index])
  {
    assert points[..index + 1][..index] == points[..index];
  }

  lemma {:induction false} WalkFromIsArcLength(dist: Metric, points: seq<GeoPoint>, index: nat, left: real)
    requires 1 <= index <= |points| && 2 <= |points|
    requires left >= 0.0
    ensures var walked := PolylineMeters(dist, points[..index]) + left;
            var total := PolylineMeters(dist, points);
            LiesAt(dist, points, WalkFrom(dist, points, index, left), if walked <= total then walked else total)
    ensures PolylineMeters(dist, points[..index]) + left > PolylineMeters(dist, points)
            ==> WalkFrom(dist, points, index, left) == points[|points| - 1]
    decreases |points| - index
  {
    PrefixIsShorter(dist, points, index);
    if index == |points| {
      assert points[..index] == points;
      EndsAtLastPoint(dist, points);
    } else {
      var segment := dist(points[index - 1], points[index]);
      OneSegmentMore(dist, points, index);
      PrefixIsShorter(dist, points, index + 1);
      if left <= segment && segment > 0.0 {
        EndsOnSegment(dist, points, index, left);
      } else {
        WalkFromIsArcLength(dist, points, index + 1, left - segment);
      }
    }
  }

  lemma RatioWithinUnit(part: real, whole: real)
    requires 0.0 <= part <= whole && 0.0 < whole
    ensures 0.0 <= part / whole <= 1.0
    ensures part / whole * whole == part
  {
    var r := part / whole;
    assert r * whole == part;
    assert (1.0 - r) * whole == whole - part;
  }

  lemma {:induction false} PrefixIsShorter(dist: Metric, points: seq<GeoPoint>, k: nat)
    requires k <= |points|
    ensures PolylineMeters(dist, points[..k]) <= PolylineMeters(dist, points)
    decreases |points| - k
  {
    if k == |points| {
      assert points[..k] == points;
    } else {
      assert points[..k + 1][..k] == points[..k];
      PrefixIsShorter(dist, points, k + 1);
    }
  }

  /** Walking a polyline is walking by arc length, zero-length segments included. */
  lemma PointAlongIsArcLength(dist: Metric, points: seq<GeoPoint>, meters: real)
    requires points != []
    ensures var total := PolylineMeters(dist, points);
            var clamped := if meters < 0.0 then 0.0 else if meters > total then total else meters;
            2 <= |points| ==> LiesAt(dist, points, PointAlong(dist, points, meters), clamped)
    ensures |points| == 1 || meters > PolylineMeters(dist, points)
            ==> PointAlong(dist, points, meters) == points[|points| - 1]
  {
    if 2 <= |points| {
      WalkFromIsArcLength(dist, points, 1, MaxReal(0.0, meters));
    }
  }

  // ---------- great circles ----------

  function GreatCirclePoints(arc: Arc, from: GeoPoint, to: GeoPoint, segments: nat): (points: seq<GeoPoint>)
    ensures |points| == segments + 1
    ensures points[0] == from
    ensures segments > 0 ==> points[segments] == to
  {
    if segments == 0 then [from]
    else [from] + seq(segments - 1, k requires 0 <= k => arc(from, to, k + 1, segments)) + [to]
  }

  /** Between its ends, the k-th point is the k-th part of the way. */
  lemma GreatCircleFollowsTheArc(arc: Arc, from: GeoPoint, to: GeoPoint, segments: nat, k: nat)
    requires 0 < k < segments
    ensures GreatCirclePoints(arc, from, to, segments)[k] == arc(from, to, k, segments)
  {
  }

  method BuildGreatCircle(arc: Arc, from: GeoPoint, to: GeoPoint, segments: nat) returns (points: seq<GeoPoint>)
    ensures points == GreatCirclePoints(arc, from, to, segments)
  {
    if segments == 0 {
      return [from];
    }
    points := [from];
    var step := 1;
    while step < segments
      invariant 1 <= step <= segments
      invariant points == [from] + seq(step - 1, k requires 0 <= k => arc(from, to, k + 1, segments))
    {
      points := points + [arc(from, to, step, segments)];
      step := step + 1;
    }
    points := points + [to];
  }
}
