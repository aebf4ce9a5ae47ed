/** What a tracking answer tells: which route, whose courier, and the moment of the ride it shows. */
module TrackingMeaning {
  import opened Common
  import opened Geometry
  import opened Routes
  import opened RouteProgress
  import opened RouteMeaning
  import opened TrackingContract
  import opened TrackingView
  import opened Stores
  import opened GetTracking

  // ---------- the view ----------

  /** Whole minutes, the fewest that cover the time until the arrival. */
  predicate CountsDownInMinutes(etaSeconds: int, m: Milestones, elapsed: int) {
    && etaSeconds % 60 == 0
    && (if elapsed >= m.arrivalMs then etaSeconds == 0
        else (etaSeconds - 60) * 1000 < m.arrivalMs - elapsed <= etaSeconds * 1000)
  }

  lemma MinutesCountDown(etaSeconds: int, m: Milestones, elapsed: int)
    requires CountsDown(etaSeconds, m, elapsed)
    ensures CountsDownInMinutes(RoundedBeforePickup(etaSeconds), m, elapsed)
  {
    RoundingUpIsHarmless(etaSeconds);
  }

  /** Nothing recorded and nothing due: no place, no times, whole minutes and the whole second road. */
  predicate ShowsWaiting(dist: Metric, route: Route, m: Milestones, elapsed: int, shape: TrackingShape) {
    && shape.phase == ToMarket && shape.location.None? && shape.pickedUpAt.None? && shape.deliveredAt.None?
    && IsRounded(shape.remainingMeters, PolylineMeters(dist, ToCustomerRoad(route)))
    && CountsDownInMinutes(shape.etaSeconds, m, elapsed)
  }

  /** A pickup is recorded for later: the courier is shown at the market, the time in whole minutes. */
  predicate ShowsMarket(dist: Metric, route: Route, m: Milestones, elapsed: int, shape: TrackingShape) {
    && shape.phase == ToCustomer && shape.location == Some(route.points[route.pickupIndex])
    && shape.pickedUpAt == route.pickedUpAt && shape.deliveredAt.None?
    && IsRounded(shape.remainingMeters, PolylineMeters(dist, ToCustomerRoad(route)))
    && CountsDownInMinutes(shape.etaSeconds, m, elapsed)
  }

  /**
   * On the second road: the courier as far along it as it has ridden since the pickup, and the rest of road and time.
   */
  ghost predicate ShowsRide(dist: Metric, route: Route, speed: real, m: Milestones, elapsed: int, shape: TrackingShape,
                            meters: real) {
    var road := PolylineMeters(dist, ToCustomerRoad(route));
    && IsRidden(meters, elapsed - m.pickupMs, speed)
    && shape.phase == ToCustomer && shape.location.Some?
    && StandsAt(dist, ToCustomerRoad(route), shape.location.value, meters)
    && (if meters <= road then IsRounded(shape.remainingMeters, road - meters) else shape.remainingMeters == 0)
    && CountsDown(shape.etaSeconds, m, elapsed)
    && shape.pickedUpAt == Some(route.createdAt + m.pickupMs) && shape.deliveredAt.None?
  }

  /** The delivery as recorded, else as computed; the pickup likewise, and never after the delivery. */
  predicate ShowsDelivery(route: Route, m: Milestones, shape: TrackingShape) {
    && shape.phase == Delivered && shape.location == Some(route.points[|route.points| - 1])
    && shape.remainingMeters == 0 && shape.etaSeconds == 0
    && match route.deliveredAt
       case None =>
         && shape.pickedUpAt == Some(route.createdAt + m.pickupMs)
         && shape.deliveredAt == Some(route.createdAt + m.arrivalMs)
       case Some(delivered) =>
         match route.pickedUpAt
         case None => shape.pickedUpAt == shape.deliveredAt == Some(delivered)
         case Some(picked) =>
           shape.pickedUpAt == Some(picked)
             && shape.deliveredAt == Some(if picked > delivered then picked else delivered)
  }

  /** A view is a moment of the ride; what is recorded goes before what is computed. */
  ghost predicate IsViewOfTheRide(dist: Metric, route: Route, speed: real, m: Milestones, elapsed: int, view: View) {
    var arrived := m.pickupMs <= elapsed && m.arrivalMs <= elapsed;
    && view.route == ToCustomerRoad(route) && view.marketLocation == route.points[route.pickupIndex]
    && view.deliveryLocation == route.points[|route.points| - 1]
    && (route.deliveredAt.Some? || arrived ==> ShowsDelivery(route, m, view.shape))
    && (route.deliveredAt.None? && m.pickupMs <= elapsed < m.arrivalMs ==>
          exists meters :: ShowsRide(dist, route, speed, m, elapsed, view.shape, meters))
    && (route.deliveredAt.None? && elapsed < m.pickupMs && route.pickedUpAt.Some? ==>
          ShowsMarket(dist, route, m, elapsed, view.shape))
    && (route.deliveredAt.None? && elapsed < m.pickupMs && route.pickedUpAt.None? ==>
          ShowsWaiting(dist, route, m, elapsed, view.shape))
  }

  lemma ViewOnTheWay(dist: Metric, route: Route, speed: real, m: Milestones, elapsed: int, p: Progress)
    requires IsOnTheRide(dist, route, speed, m, elapsed, p) && route.deliveredAt.None?
    requires m.pickupMs <= elapsed < m.arrivalMs
    requires route.pickedUpAt.Some? ==> route.pickedUpAt == Some(route.createdAt + m.pickupMs)
    ensures exists meters :: ShowsRide(dist, route, speed, m, elapsed, TrackingViewOf(route, p).shape, meters)
  {
    var meters :| RidesToCustomer(dist, route, speed, m, elapsed, p, meters);
    assert ShowsRide(dist, route, speed, m, elapsed, TrackingViewOf(route, p).shape, meters);
  }

  lemma ViewBeforeThePickup(dist: Metric, route: Route, speed: real, m: Milestones, elapsed: int, p: Progress)
    requires IsOnTheRide(dist, route, speed, m, elapsed, p) && route.deliveredAt.None? && elapsed < m.pickupMs
    ensures route.pickedUpAt.None? ==> ShowsWaiting(dist, route, m, elapsed, TrackingViewOf(route, p).shape)
    ensures route.pickedUpAt.Some? ==> ShowsMarket(dist, route, m, elapsed, TrackingViewOf(route, p).shape)
  {
    var meters :| RidesToMarket(dist, route, speed, elapsed, p, meters);
    MinutesCountDown(p.etaSeconds, m, elapsed);
  }

  lemma ViewOfADelivery(dist: Metric, route: Route, speed: real, m: Milestones, elapsed: int, p: Progress)
    requires IsOnTheRide(dist, route, speed, m, elapsed, p) && m.pickupMs <= m.arrivalMs
    requires route.deliveredAt.Some? || (m.pickupMs <= elapsed && m.arrivalMs <= elapsed)
    requires route.pickedUpAt.Some? ==> route.pickedUpAt == Some(route.createdAt + m.pickupMs)
    ensures ShowsDelivery(route, m, TrackingViewOf(route, p).shape)
  {
  }

  /** Every view of every route at every instant shows the moment of its ride. */
  lemma ViewShowsTheRide(dist: Metric, route: Route, at: Instant, current: Movement)
    returns (speed: real, m: Milestones, elapsed: int)
    ensures IsTimetable(dist, route, current, speed, m) && IsElapsed(route, at, elapsed)
    ensures IsViewOfTheRide(dist, route, speed, m, elapsed, ViewAt(dist, route, at, current))
  {
    speed, m, elapsed := ProgressIsTheRide(dist, route, at, current);
    var p := ProgressAt(dist, route, at, current);
    TimetableKeepsThePickup(dist, route, current, speed, m);
    if route.deliveredAt.Some? || (m.pickupMs <= elapsed && m.arrivalMs <= elapsed) {
      ViewOfADelivery(dist, route, speed, m, elapsed, p);
    } else if elapsed < m.pickupMs {
      ViewBeforeThePickup(dist, route, speed, m, elapsed, p);
    } else {
      ViewOnTheWay(dist, route, speed, m, elapsed, p);
    }
  }

  lemma TimetableKeepsThePickup(dist: Metric, route: Route, current: Movement, speed: real, m: Milestones)
    requires IsTimetable(dist, route, current, speed, m)
    ensures route.pickedUpAt.Some? ==> route.pickedUpAt == Some(route.createdAt + m.pickupMs)
    ensures m.pickupMs <= m.arrivalMs
  {
    MilestonesAreTheRides(dist, route, current);
    TimetableIsUnique(dist, route, current, speed, m, MetersPerSecond(MovementOf(route, current)),
      MilestonesOf(dist, route, current));
    ArrivalFollowsPickup(dist, route, current);
  }

  // ---------- which route is shown ----------

  /** The three reads of a tracking answer, each from the stores as they are then. */
  function Read(first: Db, second: Db, third: Db, orderId: OrderId): TrackPc {
    TrackStep(third, TrackStep(second, TrackStep(first, TrkBegin(orderId))))
  }

  predicate HasOpenRoute(db: Db, orderId: OrderId) {
    orderId in db.docs.routes && db.docs.routes[orderId].state != Some(Ended)
  }

  predicate IsOver(r: Route) {
    r.deliveredAt.Some? || r.state == Some(Done)
  }

  /** The route's courier is busy with its order. */
  predicate IsUnderWay(db: Db, r: Route) {
    && r.courierId in db.couriers && db.couriers[r.courierId].status == Busy
    && db.couriers[r.courierId].currentOrderId == Some(r.orderId)
  }

  /** ... under the assignment the route was planned for. */
  predicate IsOfThisAssignment(db: Db, r: Route)
    requires r.courierId in db.couriers
  {
    var c := db.couriers[r.courierId];
    c.id == r.courierId && (c.lastAssignedAt.None? || c.lastAssignedAt.value <= r.createdAt)
  }

  /** The same route, delivered when it is looked at again. */
  predicate IsOverBy(db: Db, r: Route) {
    && HasOpenRoute(db, r.orderId)
    && var again := db.docs.routes[r.orderId];
    again.courierId == r.courierId && again.createdAt == r.createdAt && IsOver(again)
  }

  function ShownName(db: Db, r: Route): string {
    if r.courierId in db.couriers then db.couriers[r.courierId].name else COURIER_FALLBACK_NAME
  }

  /**
   * Whatever others write between the reads: the first look decides for a route that is over, the courier for one
   * under way, and the last look for the rest.
   */
  lemma ReadAnswersExactly(first: Db, second: Db, third: Db, orderId: OrderId)
    requires orderId in first.docs.routes ==> first.docs.routes[orderId].orderId == orderId
    ensures var answer := Read(first, second, third, orderId);
            && answer.TrkDone?
            && if !HasOpenRoute(first, orderId) then answer.answer == NotFound
               else
                 var r := first.docs.routes[orderId];
                 if IsOver(r) || (IsUnderWay(second, r) && IsOfThisAssignment(second, r))
                 then answer.answer == Tracked(r, ShownName(second, r))
                 else if !IsUnderWay(second, r) && IsOverBy(third, r)
                 then answer.answer == Tracked(third.docs.routes[orderId], ShownName(second, r))
                 else answer.answer == NotFound
  {
  }

  /** A read that nothing disturbs shows the stored route while it is under way or over, and nothing otherwise. */
  lemma QuietReadAnswersExactly(db: Db, orderId: OrderId)
    requires orderId in db.docs.routes ==> db.docs.routes[orderId].orderId == orderId
    ensures Read(db, db, db, orderId) == TrkDone(NotFound)
       <==> || !HasOpenRoute(db, orderId)
            || var r := db.docs.routes[orderId];
               !IsOver(r) && !(IsUnderWay(db, r) && IsOfThisAssignment(db, r))
    ensures Read(db, db, db, orderId) != TrkDone(NotFound) ==>
              && orderId in db.docs.routes
              && var r := db.docs.routes[orderId];
              Read(db, db, db, orderId) == TrkDone(Tracked(r, ShownName(db, r)))
  {
    ReadAnswersExactly(db, db, db, orderId);
  }
}
