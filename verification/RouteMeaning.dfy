/**
 * The ride a route stands for, told by roads, speed and waiting time: how long it takes, where the courier is on it,
 * and how much is left. Positions and times recomputed by the service are those of this ride.
 */
module RouteMeaning {
  import opened Common
  import opened Geometry
  import opened Routes
  import opened RouteProgress

  // ---------- the ride ----------

  function ToMarketRoad(route: Route): seq<GeoPoint> {
    route.points[..route.pickupIndex + 1]
  }

  function ToCustomerRoad(route: Route): seq<GeoPoint> {
    route.points[route.pickupIndex..]
  }

  /** The rule the route moves by: its own, or the current one. */
  predicate MovesBy(route: Route, current: Movement, rule: Movement) {
    (route.movement.Some? && rule == route.movement.value) || (route.movement.None? && rule == current)
  }

  /** Kilometres per hour in metres per second. */
  predicate IsSpeed(rule: Movement, speed: real) {
    speed > 0.0 && speed * 3600.0 == rule.speedKmh * 1000.0
  }

  predicate RidesIn(seconds: real, meters: real, speed: real) {
    seconds * speed == meters
  }

  /** The first moment at which the road is ridden and the preparation over. */
  predicate IsPickupTime(seconds: real, meters: real, speed: real, prepSeconds: real) {
    seconds * speed >= meters && seconds >= prepSeconds && (seconds * speed == meters || seconds == prepSeconds)
  }

  /**
   * The milestones of a route without a recorded pickup: the pickup at the later of arriving at the market and the
   * end of the preparation, the arrival when the second road is ridden too.
   */
  predicate IsPlanned(dist: Metric, route: Route, rule: Movement, speed: real, m: Milestones, pickup: real,
                      ride: real) {
    && IsPickupTime(pickup, PolylineMeters(dist, ToMarketRoad(route)), speed, rule.prepSeconds)
    && RidesIn(ride, PolylineMeters(dist, ToCustomerRoad(route)), speed)
    && IsRounded(m.pickupMs, pickup * 1000.0) && IsRounded(m.arrivalMs, (pickup + ride) * 1000.0)
  }

  /** With a recorded pickup: that instant, and the arrival when the second road is ridden from then on. */
  predicate IsRecorded(dist: Metric, route: Route, speed: real, m: Milestones, ride: real) {
    && route.pickedUpAt == Some(route.createdAt + m.pickupMs)
    && RidesIn(ride, PolylineMeters(dist, ToCustomerRoad(route)), speed)
    && IsRounded(m.arrivalMs - m.pickupMs, ride * 1000.0)
  }

  /** The speed and the milestones of the ride. */
  ghost predicate IsTimetable(dist: Metric, route: Route, current: Movement, speed: real, m: Milestones) {
    exists rule ::
      && MovesBy(route, current, rule) && IsSpeed(rule, speed)
      && (route.pickedUpAt.None? ==> exists pickup, ride :: IsPlanned(dist, route, rule, speed, m, pickup, ride))
      && (route.pickedUpAt.Some? ==> exists ride :: IsRecorded(dist, route, speed, m, ride))
  }

  lemma QuotientTimes(x: real, y: real)
    requires y > 0.0
    ensures x / y * y == x
  {
  }

  lemma LaterOfBoth(meters: real, speed: real, prepSeconds: real)
    requires speed > 0.0
    ensures IsPickupTime(MaxReal(meters / speed, prepSeconds), meters, speed, prepSeconds)
  {
    var ride := meters / speed;
    QuotientTimes(meters, speed);
    if prepSeconds > ride {
      assert (prepSeconds - ride) * speed >= 0.0;
      assert prepSeconds * speed == ride * speed + (prepSeconds - ride) * speed;
    }
  }

  /** The schedule is that of the ride. */
  lemma ScheduleIsTheRides(dist: Metric, route: Route, rule: Movement)
    ensures var speed, schedule := MetersPerSecond(rule), RouteSchedule(dist, route, rule);
            && IsPickupTime(schedule.pickupSeconds, PolylineMeters(dist, ToMarketRoad(route)), speed, rule.prepSeconds)
            && RidesIn(schedule.legTwoSeconds, PolylineMeters(dist, ToCustomerRoad(route)), speed)
            && schedule.arrivalSeconds == schedule.pickupSeconds + schedule.legTwoSeconds
  {
    var speed := MetersPerSecond(rule);
    LaterOfBoth(PolylineMeters(dist, ToMarketRoad(route)), speed, rule.prepSeconds);
    QuotientTimes(PolylineMeters(dist, ToCustomerRoad(route)), speed);
  }

  lemma PlannedMilestones(dist: Metric, route: Route, rule: Movement, schedule: Schedule)
    requires route.pickedUpAt.None? && schedule.pickupSeconds <= schedule.arrivalSeconds
    requires IsPickupTime(schedule.pickupSeconds, PolylineMeters(dist, ToMarketRoad(route)), MetersPerSecond(rule),
                          rule.prepSeconds)
    requires RidesIn(schedule.legTwoSeconds, PolylineMeters(dist, ToCustomerRoad(route)), MetersPerSecond(rule))
    requires schedule.arrivalSeconds == schedule.pickupSeconds + schedule.legTwoSeconds
    ensures IsPlanned(dist, route, rule, MetersPerSecond(rule), MilestonesMs(route, schedule), schedule.pickupSeconds,
                      schedule.legTwoSeconds)
  {
    RoundedMilestones(route, schedule);
  }

  lemma RoundedMilestones(route: Route, schedule: Schedule)
    requires route.pickedUpAt.None? && schedule.pickupSeconds <= schedule.arrivalSeconds
    ensures var m := MilestonesMs(route, schedule);
            && IsRounded(m.pickupMs, schedule.pickupSeconds * 1000.0)
            && IsRounded(m.arrivalMs, schedule.arrivalSeconds * 1000.0)
  {
    var p, a := schedule.pickupSeconds * 1000.0, schedule.arrivalSeconds * 1000.0;
    RoundIsNearest(p);
    RoundIsNearest(a);
    RoundMonotone(p, a);
  }

  lemma RecordedMilestones(dist: Metric, route: Route, speed: real, schedule: Schedule)
    requires route.pickedUpAt.Some?
    requires RidesIn(schedule.legTwoSeconds, PolylineMeters(dist, ToCustomerRoad(route)), speed)
    ensures IsRecorded(dist, route, speed, MilestonesMs(route, schedule), schedule.legTwoSeconds)
  {
    RoundIsNearest(schedule.legTwoSeconds * 1000.0);
  }

  /** The milestones the service computes are those of the ride. */
  lemma MilestonesAreTheRides(dist: Metric, route: Route, current: Movement)
    ensures IsTimetable(dist, route, current, MetersPerSecond(MovementOf(route, current)),
                        MilestonesOf(dist, route, current))
  {
    var rule := MovementOf(route, current);
    var schedule := RouteSchedule(dist, route, rule);
    assert MovesBy(route, current, rule) && IsSpeed(rule, MetersPerSecond(rule));
    ScheduleIsTheRides(dist, route, rule);
    if route.pickedUpAt.None? {
      PlannedMilestones(dist, route, rule, schedule);
    } else {
      RecordedMilestones(dist, route, MetersPerSecond(rule), schedule);
    }
  }

  /** A timetable leaves no choice. */
  lemma TimetableIsUnique(dist: Metric, route: Route, current: Movement, speed: real, m: Milestones, speed': real,
                          m': Milestones)
    requires IsTimetable(dist, route, current, speed, m) && IsTimetable(dist, route, current, speed', m')
    ensures speed == speed' && m == m'
  {
    var rule :|
      && MovesBy(route, current, rule) && IsSpeed(rule, speed)
      && (route.pickedUpAt.None? ==> exists pickup, ride :: IsPlanned(dist, route, rule, speed, m, pickup, ride))
      && (route.pickedUpAt.Some? ==> exists ride :: IsRecorded(dist, route, speed, m, ride));
    assert speed == speed';
    if route.pickedUpAt.None? {
      var pickup, ride :| IsPlanned(dist, route, rule, speed, m, pickup, ride);
      var pickup', ride' :| IsPlanned(dist, route, rule, speed, m', pickup', ride');
      SameRide(ride, ride', PolylineMeters(dist, ToCustomerRoad(route)), speed);
      SamePickup(pickup, pickup', PolylineMeters(dist, ToMarketRoad(route)), speed, rule.prepSeconds);
    } else {
      var ride :| IsRecorded(dist, route, speed, m, ride);
      var ride' :| IsRecorded(dist, route, speed, m', ride');
      SameRide(ride, ride', PolylineMeters(dist, ToCustomerRoad(route)), speed);
    }
  }

  lemma SameRide(a: real, b: real, meters: real, speed: real)
    requires speed > 0.0 && RidesIn(a, meters, speed) && RidesIn(b, meters, speed)
    ensures a == b
  {
    assert (a - b) * speed == 0.0;
  }

  lemma SamePickup(a: real, b: real, meters: real, speed: real, prepSeconds: real)
    requires speed > 0.0 && IsPickupTime(a, meters, speed, prepSeconds) && IsPickupTime(b, meters, speed, prepSeconds)
    ensures a == b
  {
    if a < b {
      LongerIsFarther(a, b, speed);
    } else if b < a {
      LongerIsFarther(b, a, speed);
    }
  }

  lemma LongerIsFarther(a: real, b: real, speed: real)
    requires a < b && speed > 0.0
    ensures a * speed < b * speed
  {
    assert (b - a) * speed > 0.0;
  }

  // ---------- where the courier is ----------

  /** A point that divides the way from a to b in the ratio r : 1 - r, in both coordinates. */
  lemma InterpolateDivides(a: GeoPoint, b: GeoPoint, r: real)
    ensures var p := Interpolate(a, b, r);
            && (p.lat - a.lat) * (1.0 - r) == (b.lat - p.lat) * r
            && (p.lng - a.lng) * (1.0 - r) == (b.lng - p.lng) * r
    ensures Interpolate(a, b, 0.0) == a && Interpolate(a, b, 1.0) == b
  {
    DividesTheWay(a.lat, b.lat, r);
    DividesTheWay(a.lng, b.lng, r);
  }

  lemma DividesTheWay(a: real, b: real, r: real)
    ensures (a + (b - a) * r - a) * (1.0 - r) == (b - (a + (b - a) * r)) * r
  {
    var d := b - a;
    assert (a + d * r - a) * (1.0 - r) == d * r * (1.0 - r);
    assert (b - (a + d * r)) * r == (d - d * r) * r == d * r * (1.0 - r);
  }

  /** `p` is `meters` along the road, or at its end when the road is shorter. */
  ghost predicate StandsAt(dist: Metric, road: seq<GeoPoint>, p: GeoPoint, meters: real) {
    var length := PolylineMeters(dist, road);
    && road != []
    && (|road| == 1 || meters > length ==> p == road[|road| - 1])
    && (|road| >= 2 && 0.0 <= meters <= length ==> LiesAt(dist, road, p, meters))
  }

  lemma WalkStands(dist: Metric, road: seq<GeoPoint>, meters: real)
    requires road != [] && meters >= 0.0
    ensures StandsAt(dist, road, PointAlong(dist, road, meters), meters)
  {
    PointAlongIsArcLength(dist, road, meters);
  }

  /** The road ridden in `ms` milliseconds. */
  predicate IsRidden(meters: real, ms: int, speed: real) {
    meters * 1000.0 == ms as real * speed
  }

  lemma MetersAreRidden(ms: int, speed: real)
    requires ms >= 0 && speed > 0.0
    ensures IsRidden(MetersIn(ms, speed), ms, speed) && MetersIn(ms, speed) >= 0.0
  {
    var seconds := ms as real / 1000.0;
    assert seconds * 1000.0 == ms as real;
    assert seconds * speed * 1000.0 == (seconds * 1000.0) * speed;
    MetersGrow(0, ms, speed);
  }

  /** Milliseconds since the route was created; before that the ride has not begun. */
  predicate IsElapsed(route: Route, at: Instant, ms: int) {
    if at <= route.createdAt then ms == 0 else route.createdAt + ms == at
  }

  /** On the way to the market: still the whole second road ahead. */
  ghost predicate RidesToMarket(dist: Metric, route: Route, speed: real, elapsed: int, p: Progress, meters: real) {
    && IsRidden(meters, elapsed, speed)
    && p.phase == ToMarket && StandsAt(dist, ToMarketRoad(route), p.position, meters)
    && IsRounded(p.legTwoRemainingMeters, PolylineMeters(dist, ToCustomerRoad(route)))
    && p.pickedUpAt.None? && p.deliveredAt.None?
  }

  /** On the way to the customer: what is ridden since the pickup and what remains make up the second road. */
  ghost predicate RidesToCustomer(dist: Metric, route: Route, speed: real, m: Milestones, elapsed: int, p: Progress,
                                  meters: real) {
    var road := PolylineMeters(dist, ToCustomerRoad(route));
    && IsRidden(meters, elapsed - m.pickupMs, speed)
    && p.phase == ToCustomer && StandsAt(dist, ToCustomerRoad(route), p.position, meters)
    && (if meters <= road then IsRounded(p.legTwoRemainingMeters, road - meters) else p.legTwoRemainingMeters == 0)
    && p.pickedUpAt == Some(route.createdAt + m.pickupMs) && p.deliveredAt.None?
  }

  predicate HasArrived(route: Route, m: Milestones, p: Progress) {
    && p.phase == Delivered && p.position == route.points[|route.points| - 1] && p.legTwoRemainingMeters == 0
    && p.pickedUpAt == Some(route.createdAt + m.pickupMs) && p.deliveredAt == Some(route.createdAt + m.arrivalMs)
  }

  /** The seconds until the arrival, rounded up; none after it. */
  predicate CountsDown(etaSeconds: int, m: Milestones, elapsed: int) {
    if elapsed >= m.arrivalMs then etaSeconds == 0
    else (etaSeconds - 1) * 1000 < m.arrivalMs - elapsed <= etaSeconds * 1000
  }

  ghost predicate IsOnTheRide(dist: Metric, route: Route, speed: real, m: Milestones, elapsed: int, p: Progress) {
    && CountsDown(p.etaSeconds, m, elapsed)
    && (elapsed < m.pickupMs ==> exists meters :: RidesToMarket(dist, route, speed, elapsed, p, meters))
    && (m.pickupMs <= elapsed < m.arrivalMs ==>
          exists meters :: RidesToCustomer(dist, route, speed, m, elapsed, p, meters))
    && (m.pickupMs <= elapsed && m.arrivalMs <= elapsed ==> HasArrived(route, m, p))
  }

  lemma EtaCountsDown(m: Milestones, elapsed: int)
    ensures CountsDown(EtaAt(m.arrivalMs, elapsed), m, elapsed)
  {
    var left := Max(0, m.arrivalMs - elapsed);
    var x := left as real / 1000.0;
    RoundIsNearest(x);
    assert x * 1000.0 == left as real;
    var eta := Ceil(x);
    assert (eta as real - 1.0) * 1000.0 < left as real <= eta as real * 1000.0;
    assert (eta - 1) * 1000 < left <= eta * 1000;
  }

  lemma OnTheWayToMarket(dist: Metric, route: Route, at: Instant, current: Movement)
    requires ElapsedMs(route, at) < MilestonesOf(dist, route, current).pickupMs
    ensures var speed := MetersPerSecond(MovementOf(route, current));
            exists meters ::
              RidesToMarket(dist, route, speed, ElapsedMs(route, at), ProgressAt(dist, route, at, current), meters)
  {
    var rule := MovementOf(route, current);
    var speed, elapsed := MetersPerSecond(rule), ElapsedMs(route, at);
    var meters := MetersIn(elapsed, speed);
    MetersAreRidden(elapsed, speed);
    WalkStands(dist, LegOne(route), meters);
    RoundIsNearest(PolylineMeters(dist, ToCustomerRoad(route)));
    assert RidesToMarket(dist, route, speed, elapsed, ProgressAt(dist, route, at, current), meters);
  }

  lemma OnTheWayToCustomer(dist: Metric, route: Route, at: Instant, current: Movement)
    requires var m := MilestonesOf(dist, route, current); m.pickupMs <= ElapsedMs(route, at) < m.arrivalMs
    ensures var speed, m := MetersPerSecond(MovementOf(route, current)), MilestonesOf(dist, route, current);
            exists meters ::
              RidesToCustomer(dist, route, speed, m, ElapsedMs(route, at), ProgressAt(dist, route, at, current), meters)
  {
    var rule := MovementOf(route, current);
    var m := MilestonesOf(dist, route, current);
    var speed, elapsed := MetersPerSecond(rule), ElapsedMs(route, at);
    var meters := MetersIn(elapsed - m.pickupMs, speed);
    MetersAreRidden(elapsed - m.pickupMs, speed);
    WalkStands(dist, LegTwo(route), meters);
    RoundIsNearest(MaxReal(0.0, PolylineMeters(dist, ToCustomerRoad(route)) - meters));
    assert RidesToCustomer(dist, route, speed, m, elapsed, ProgressAt(dist, route, at, current), meters);
  }

  /**
   * The progress of a route at any instant is a moment of its ride: the only speed and milestones that fit the roads,
   * the rule and the recorded pickup, the position that far along the road, and the rest of the road and time.
   */
  lemma ProgressIsTheRide(dist: Metric, route: Route, at: Instant, current: Movement)
    returns (speed: real, m: Milestones, elapsed: int)
    ensures IsTimetable(dist, route, current, speed, m) && IsElapsed(route, at, elapsed)
    ensures IsOnTheRide(dist, route, speed, m, elapsed, ProgressAt(dist, route, at, current))
  {
    speed, m := MetersPerSecond(MovementOf(route, current)), MilestonesOf(dist, route, current);
    elapsed := ElapsedMs(route, at);
    MilestonesAreTheRides(dist, route, current);
    ArrivalFollowsPickup(dist, route, current);
    ProgressNumbers(dist, route, at, current);
    EtaCountsDown(m, elapsed);
    if elapsed < m.pickupMs {
      OnTheWayToMarket(dist, route, at, current);
    } else if elapsed < m.arrivalMs {
      OnTheWayToCustomer(dist, route, at, current);
    } else {
      assert LegTwo(route)[|LegTwo(route)| - 1] == route.points[|route.points| - 1];
    }
  }

  /** The location that is written down: the courier's, or the market while the clock is behind a recorded pickup. */
  lemma WrittenLocation(dist: Metric, route: Route, at: Instant, current: Movement)
    ensures var p := ProgressAt(dist, route, at, current);
            PositionAt(dist, route, at, current)
            == if route.pickedUpAt.Some? && p.phase == ToMarket then route.points[route.pickupIndex] else p.position
    ensures Dropoff(route) == Some(route.points[|route.points| - 1])
  {
  }
}
