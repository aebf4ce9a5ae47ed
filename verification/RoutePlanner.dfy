/** Planning a route of two great circles through the market (courier-service domain/route-planner.ts). */
module RoutePlanner {
  import opened Common
  import opened Geometry

  datatype RouteRule = RouteRule(spacingMeters: real, minPoints: nat, maxPoints: nat, speedKmh: real)

  /** A rule the planner can work with: three points leave a segment for each leg. */
  predicate UsableRule(rule: RouteRule) {
    rule.spacingMeters > 0.0 && 3 <= rule.minPoints <= rule.maxPoints && rule.speedKmh > 0.0
  }

  datatype RouteLegs = RouteLegs(from: GeoPoint, pickup: GeoPoint, dropoff: GeoPoint)

  datatype RoutePlan = RoutePlan(points: seq<GeoPoint>, pickupIndex: nat, distanceMeters: int, etaSeconds: int)

  function RoutePointCount(totalMeters: real, rule: RouteRule): (count: nat)
    requires UsableRule(rule)
    ensures rule.minPoints <= count <= rule.maxPoints
  {
    Min(rule.maxPoints, Max(rule.minPoints, Ceil(totalMeters / rule.spacingMeters)))
  }

  /** The segments of the first leg: in proportion to its length, at least one for each leg that has a length. */
  function FirstLegSegments(toPickup: real, toDropoff: real, segments: nat): (first: nat)
    requires toPickup >= 0.0 && toDropoff >= 0.0 && segments >= 2
    ensures first <= segments
    ensures first == 0 <==> toPickup == 0.0
    ensures first == segments ==> toDropoff == 0.0
    ensures toPickup > 0.0 && toDropoff == 0.0 ==> first == segments
  {
    if toPickup == 0.0 then 0
    else
      var proportional := Round(segments as real * toPickup / (toPickup + toDropoff));
      var upper := if toDropoff == 0.0 then segments else segments - 1;
      assert toDropoff == 0.0 ==> segments as real * toPickup / (toPickup + toDropoff) == segments as real by {
        if toDropoff == 0.0 {
          assert segments as real * toPickup / toPickup == segments as real;
        }
      }
      Min(upper, Max(1, proportional))
  }

  /** Between the clamps, the count is the least one whose gaps are no wider than the wanted spacing. */
  lemma PointsKeepTheSpacing(totalMeters: real, rule: RouteRule)
    requires UsableRule(rule) && totalMeters >= 0.0
    ensures var count := RoutePointCount(totalMeters, rule);
            && (count < rule.maxPoints ==> totalMeters / rule.spacingMeters <= count as real)
            && (count > rule.minPoints ==> count as real - 1.0 < totalMeters / rule.spacingMeters)
  {
    var wanted := totalMeters / rule.spacingMeters;
    assert wanted <= Ceil(wanted) as real < wanted + 1.0;
  }

  /** Between the clamps, the first leg gets its share of the segments, to the nearest whole one. */
  lemma FirstLegIsProportional(toPickup: real, toDropoff: real, segments: nat)
    requires toPickup > 0.0 && toDropoff > 0.0 && segments >= 2
    ensures var first := FirstLegSegments(toPickup, toDropoff, segments);
            var share := segments as real * toPickup / (toPickup + toDropoff);
            && (first > 1 ==> first as real <= share + 0.5)
            && (first < segments - 1 ==> share < first as real + 0.5)
  {
  }

  function EtaSeconds(totalMeters: int, speedKmh: real): int
    requires speedKmh > 0.0
  {
    Ceil(totalMeters as real * 3600.0 / (speedKmh * 1000.0))
  }

  function PlanRoute(dist: Metric, arc: Arc, legs: RouteLegs, rule: RouteRule): RoutePlan
    requires UsableRule(rule)
  {
    var toPickup := dist(legs.from, legs.pickup);
    var toDropoff := dist(legs.pickup, legs.dropoff);
    var total := toPickup + toDropoff;
    var segments := RoutePointCount(total, rule) - 1;
    var first := FirstLegSegments(toPickup, toDropoff, segments);
    var firstLeg := GreatCirclePoints(arc, legs.from, legs.pickup, first);
    var secondLeg := GreatCirclePoints(arc, legs.pickup, legs.dropoff, segments - first)[1..];
    RoutePlan(
      if first == 0 then [legs.pickup] + secondLeg else firstLeg + secondLeg,
      first,
      Round(total),
      EtaSeconds(Round(total), rule.speedKmh))
  }

  /** The numbers of a plan: its length to the nearest metre, and the time for that length rounded up. */
  lemma PlanNumbers(dist: Metric, arc: Arc, legs: RouteLegs, rule: RouteRule)
    requires UsableRule(rule)
    ensures var plan := PlanRoute(dist, arc, legs, rule);
            && IsRounded(plan.distanceMeters, dist(legs.from, legs.pickup) + dist(legs.pickup, legs.dropoff))
            && (plan.etaSeconds as real - 1.0) * (rule.speedKmh * 1000.0) < plan.distanceMeters as real * 3600.0
               <= plan.etaSeconds as real * (rule.speedKmh * 1000.0)
  {
    NumbersFit(PlanRoute(dist, arc, legs, rule), dist(legs.from, legs.pickup) + dist(legs.pickup, legs.dropoff),
      rule.speedKmh);
  }

  lemma NumbersFit(plan: RoutePlan, total: real, speedKmh: real)
    requires speedKmh > 0.0 && plan.distanceMeters == Round(total)
    requires plan.etaSeconds == EtaSeconds(plan.distanceMeters, speedKmh)
    ensures IsRounded(plan.distanceMeters, total)
    ensures (plan.etaSeconds as real - 1.0) * (speedKmh * 1000.0) < plan.distanceMeters as real * 3600.0
            <= plan.etaSeconds as real * (speedKmh * 1000.0)
  {
    RoundIsNearest(total);
    TimeForRoad(plan.distanceMeters as real * 3600.0, speedKmh * 1000.0, plan.etaSeconds);
  }

  lemma TimeForRoad(road: real, speed: real, time: int)
    requires speed > 0.0 && time == Ceil(road / speed)
    ensures (time as real - 1.0) * speed < road <= time as real * speed
  {
    var exact := road / speed;
    RoundIsNearest(exact);
    assert exact * speed == road;
    Stretches(time as real - 1.0, exact, speed);
    if exact < time as real {
      Stretches(exact, time as real, speed);
    }
  }

  lemma Stretches(a: real, b: real, speed: real)
    requires a < b && speed > 0.0
    ensures a * speed < b * speed
  {
    assert (b - a) * speed > 0.0;
  }

  /** The points of two great circles, the corner taken once. */
  predicate FollowsTheArcs(arc: Arc, legs: RouteLegs, plan: RoutePlan) {
    forall k :: 0 < k < |plan.points| - 1 && k != plan.pickupIndex ==>
      plan.points[k] == if k < plan.pickupIndex then arc(legs.from, legs.pickup, k, plan.pickupIndex)
                        else arc(legs.pickup, legs.dropoff, k - plan.pickupIndex, |plan.points| - 1 - plan.pickupIndex)
  }

  /** The plan follows the two great circles, in equal parts of each. */
  lemma PlanFollowsTheArcs(dist: Metric, arc: Arc, legs: RouteLegs, rule: RouteRule)
    requires UsableRule(rule)
    ensures FollowsTheArcs(arc, legs, PlanRoute(dist, arc, legs, rule))
  {
    var toPickup, toDropoff := dist(legs.from, legs.pickup), dist(legs.pickup, legs.dropoff);
    var segments := RoutePointCount(toPickup + toDropoff, rule) - 1;
    AnyPlanFollowsTheArcs(arc, legs, FirstLegSegments(toPickup, toDropoff, segments), segments,
      PlanRoute(dist, arc, legs, rule));
  }

  lemma AnyPlanFollowsTheArcs(arc: Arc, legs: RouteLegs, first: nat, segments: nat, plan: RoutePlan)
    requires first <= segments && plan.pickupIndex == first
    requires var second := GreatCirclePoints(arc, legs.pickup, legs.dropoff, segments - first)[1..];
             plan.points == if first == 0 then [legs.pickup] + second
                            else GreatCirclePoints(arc, legs.from, legs.pickup, first) + second
    ensures FollowsTheArcs(arc, legs, plan)
  {
    forall k | 0 < k < |plan.points| - 1 && k != first
      ensures plan.points[k] == if k < first then arc(legs.from, legs.pickup, k, first)
                                else arc(legs.pickup, legs.dropoff, k - first, |plan.points| - 1 - first)
    {
      TwoArcs(arc, legs, first, segments, k);
    }
  }

  lemma TwoArcs(arc: Arc, legs: RouteLegs, first: nat, segments: nat, k: nat)
    requires first <= segments && 0 < k < segments && k != first
    ensures var second := GreatCirclePoints(arc, legs.pickup, legs.dropoff, segments - first)[1..];
            var points := if first == 0 then [legs.pickup] + second
                          else GreatCirclePoints(arc, legs.from, legs.pickup, first) + second;
            && |points| == segments + 1
            && points[k] == if k < first then arc(legs.from, legs.pickup, k, first)
                            else arc(legs.pickup, legs.dropoff, k - first, segments - first)
  {
    if k < first {
      GreatCircleFollowsTheArc(arc, legs.from, legs.pickup, first, k);
    } else {
      GreatCircleFollowsTheArc(arc, legs.pickup, legs.dropoff, segments - first, k - first);
    }
  }

  /**
   * The plan has the planned number of points, its corner is the market, and it ends at the address
   * exactly when the second leg got a segment (or the address is the market point itself).
   */
  lemma PlanIsSound(dist: Metric, arc: Arc, legs: RouteLegs, rule: RouteRule)
    requires UsableRule(rule)
    ensures var plan := PlanRoute(dist, arc, legs, rule);
            var toPickup := dist(legs.from, legs.pickup);
            var toDropoff := dist(legs.pickup, legs.dropoff);
            && |plan.points| == RoutePointCount(toPickup + toDropoff, rule)
            && rule.minPoints <= |plan.points| <= rule.maxPoints
            && plan.pickupIndex < |plan.points|
            && plan.points[plan.pickupIndex] == legs.pickup
            && (toPickup > 0.0 ==> plan.points[0] == legs.from)
            && (plan.points[|plan.points| - 1] == legs.dropoff
                <==> toPickup == 0.0 || toDropoff > 0.0 || legs.pickup == legs.dropoff)
  {
    var toPickup := dist(legs.from, legs.pickup);
    var toDropoff := dist(legs.pickup, legs.dropoff);
    var segments := RoutePointCount(toPickup + toDropoff, rule) - 1;
    var first := FirstLegSegments(toPickup, toDropoff, segments);
    var firstLeg := GreatCirclePoints(arc, legs.from, legs.pickup, first);
    var secondLeg := GreatCirclePoints(arc, legs.pickup, legs.dropoff, segments - first);
    assert firstLeg[|firstLeg| - 1] == legs.pickup || first == 0;
    if first < segments {
      assert secondLeg[1..][|secondLeg| - 2] == legs.dropoff;
    }
  }
}
