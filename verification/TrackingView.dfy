/** What a customer may see of a route (courier-service domain/tracking-view.ts). */
module TrackingView {
  import opened Common
  import opened Geometry
  import opened Routes
  import opened RouteProgress
  import opened TrackingContract

  datatype View = View(shape: TrackingShape, route: seq<GeoPoint>, marketLocation: GeoPoint, deliveryLocation: GeoPoint)

  function RecordedPhase(route: Route): Phase {
    if route.deliveredAt.Some? then Delivered
    else if route.pickedUpAt.Some? then ToCustomer
    else ToMarket
  }

  function RoundedBeforePickup(etaSeconds: int): int {
    Ceil(etaSeconds as real / ETA_STEP_BEFORE_PICKUP_SECONDS as real) * ETA_STEP_BEFORE_PICKUP_SECONDS
  }

  function Later(left: Phase, right: Phase): Phase {
    if PhaseRank(left) >= PhaseRank(right) then left else right
  }

  /** Pickup and delivery shown once delivered. */
  function DeliveredMilestones(route: Route, progress: Progress): (Option<Instant>, Option<Instant>) {
    var delivered := if route.deliveredAt.Some? then route.deliveredAt else progress.deliveredAt;
    if delivered.None? then (None, None)
    else
      var computedPickup := if route.deliveredAt.None? then progress.pickedUpAt else None;
      var pickedUpAt :=
        if route.pickedUpAt.Some? then route.pickedUpAt
        else if computedPickup.Some? then computedPickup
        else delivered;
      (pickedUpAt, Some(DeliveredNoEarlierThan(delivered.value, pickedUpAt)))
  }

  function TrackingViewOf(route: Route, progress: Progress): View
  {
    var legTwo := LegTwo(route);
    var market := legTwo[0];
    var dropoff := legTwo[|legTwo| - 1];
    var phase := Later(progress.phase, RecordedPhase(route));
    var pickedUpAt := if route.pickedUpAt.Some? then route.pickedUpAt else progress.pickedUpAt;
    var shape := match phase
      case ToMarket =>
        TrackingShape(phase, None, progress.legTwoRemainingMeters, RoundedBeforePickup(progress.etaSeconds), None, None)
      case ToCustomer =>
        var ahead := progress.phase == ToCustomer;
        TrackingShape(phase, Some(if ahead then progress.position else market), progress.legTwoRemainingMeters,
                      if ahead then progress.etaSeconds else RoundedBeforePickup(progress.etaSeconds), pickedUpAt, None)
      case Delivered =>
        var milestones := DeliveredMilestones(route, progress);
        TrackingShape(phase, Some(dropoff), 0, 0, milestones.0, milestones.1);
    View(shape, legTwo, market, dropoff)
  }

  function ViewAt(dist: Metric, route: Route, at: Instant, current: Movement): View
  {
    TrackingViewOf(route, ProgressAt(dist, route, at, current))
  }

  lemma RoundingUpIsHarmless(etaSeconds: int)
    requires etaSeconds >= 0
    ensures var r := RoundedBeforePickup(etaSeconds);
            r % ETA_STEP_BEFORE_PICKUP_SECONDS == 0 && etaSeconds <= r < etaSeconds + ETA_STEP_BEFORE_PICKUP_SECONDS
  {
    var steps := Ceil(etaSeconds as real / 60.0);
    assert steps * 60 % 60 == 0;
  }

  /** Every view of every well-formed route at every instant meets the other package's schema. */
  lemma ViewMeetsTheContract(dist: Metric, route: Route, at: Instant, current: Movement)
    ensures var view := ViewAt(dist, route, at, current);
            && PhaseIssues(view.shape) == []
            && view.shape.remainingMeters >= 0 && view.shape.etaSeconds >= 0
            && 1 <= |view.route| <= |route.points|
            && view.route[0] == view.marketLocation && view.route[|view.route| - 1] == view.deliveryLocation
  {
    var progress := ProgressAt(dist, route, at, current);
    ProgressFitsRoute(dist, route, at, current);
    ProgressIsMonotone(dist, route, at, at, current);
    RoundingUpIsHarmless(progress.etaSeconds);
    NoIssuesExactlyWhenConsistent(TrackingViewOf(route, progress).shape);
  }

  /** Recorded milestones are never taken back, and a delivered view always has both times in order. */
  lemma ViewNeverTakesBackAMilestone(dist: Metric, route: Route, at: Instant, current: Movement)
    ensures var shape := ViewAt(dist, route, at, current).shape;
            && PhaseRank(shape.phase) >= PhaseRank(RecordedPhase(route))
            && PhaseRank(shape.phase) >= PhaseRank(ProgressAt(dist, route, at, current).phase)
            && (shape.phase == Delivered ==>
                  shape.pickedUpAt.Some? && shape.deliveredAt.Some?
                    && shape.pickedUpAt.value <= shape.deliveredAt.value)
            && (shape.phase == Delivered && route.pickedUpAt.Some? ==> shape.pickedUpAt == route.pickedUpAt)
            && (shape.phase == Delivered && route.deliveredAt.Some? && route.pickedUpAt.None? ==>
                  shape.pickedUpAt == shape.deliveredAt == route.deliveredAt)
  {
    ProgressFitsRoute(dist, route, at, current);
  }

  /** The view of a fixed document never goes back in phase as time passes. */
  lemma ViewPhaseIsMonotone(dist: Metric, route: Route, earlier: Instant, later: Instant, current: Movement)
    requires earlier <= later
    ensures PhaseRank(ViewAt(dist, route, earlier, current).shape.phase)
            <= PhaseRank(ViewAt(dist, route, later, current).shape.phase)
  {
    ProgressIsMonotone(dist, route, earlier, later, current);
  }

  /**
   * Privacy: before the pickup a view says nothing about the first leg. Two routes that agree on the
   * market-to-address leg and on the rounded estimate look exactly the same.
   */
  lemma FirstLegIsHidden(dist: Metric, left: Route, right: Route, at: Instant, current: Movement)
    requires LegTwo(left) == LegTwo(right)
    requires ViewAt(dist, left, at, current).shape.phase == ToMarket
    requires ViewAt(dist, right, at, current).shape.phase == ToMarket
    requires RoundedBeforePickup(ProgressAt(dist, left, at, current).etaSeconds)
             == RoundedBeforePickup(ProgressAt(dist, right, at, current).etaSeconds)
    ensures ViewAt(dist, left, at, current) == ViewAt(dist, right, at, current)
  {
    ProgressNumbers(dist, left, at, current);
    ProgressNumbers(dist, right, at, current);
  }
}
