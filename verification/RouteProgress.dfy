/** Where a courier is at an instant, recomputed from elapsed time (courier-service domain/route-progress.ts). */
module RouteProgress {
  import opened Common
  import opened Geometry
  import opened Routes

  datatype Phase = ToMarket | ToCustomer | Delivered

  function PhaseRank(phase: Phase): nat {
    match phase
    case ToMarket => 0
    case ToCustomer => 1
    case Delivered => 2
  }

  datatype Schedule = Schedule(
    legOneMeters: real, legTwoMeters: real, legTwoSeconds: real, pickupSeconds: real, arrivalSeconds: real)

  datatype Progress = Progress(
    phase: Phase,
    position: GeoPoint,
    legTwoRemainingMeters: int,
    etaSeconds: int,
    pickedUpAt: Option<Instant>,
    deliveredAt: Option<Instant>)

  function MovementOf(route: Route, current: Movement): Movement {
    if route.movement.Some? then route.movement.value else current
  }

  function MetersPerSecond(rule: Movement): (speed: real)
    ensures speed > 0.0
  {
    rule.speedKmh / 3.6
  }

  function LegOne(route: Route): seq<GeoPoint>
  {
    route.points[..route.pickupIndex + 1]
  }

  function LegTwo(route: Route): seq<GeoPoint>
  {
    route.points[route.pickupIndex..]
  }

  lemma QuotientNonNegative(x: real, y: real)
    requires x >= 0.0 && y > 0.0
    ensures x / y >= 0.0
  {
  }

  function RouteSchedule(dist: Metric, route: Route, rule: Movement): (schedule: Schedule)
    ensures 0.0 <= schedule.legTwoSeconds && 0.0 <= schedule.pickupSeconds <= schedule.arrivalSeconds
    ensures 0.0 <= schedule.legTwoMeters
  {
    var speed := MetersPerSecond(rule);
    var legOneMeters := PolylineMeters(dist, LegOne(route));
    var legTwoMeters := PolylineMeters(dist, LegTwo(route));
    QuotientNonNegative(legTwoMeters, speed);
    var pickupSeconds := MaxReal(legOneMeters / speed, rule.prepSeconds);
    var legTwoSeconds := legTwoMeters / speed;
    Schedule(legOneMeters, legTwoMeters, legTwoSeconds, pickupSeconds, pickupSeconds + legTwoSeconds)
  }

  /** Pickup and arrival in milliseconds after the route was created. */
  datatype Milestones = Milestones(pickupMs: int, arrivalMs: int)

  function MilestonesMs(route: Route, schedule: Schedule): Milestones {
    if route.pickedUpAt.None? then
      var pickupMs := Round(schedule.pickupSeconds * 1000.0);
      Milestones(pickupMs, Max(pickupMs, Round(schedule.arrivalSeconds * 1000.0)))
    else
      var pickupMs := route.pickedUpAt.value - route.createdAt;
      Milestones(pickupMs, pickupMs + Round(schedule.legTwoSeconds * 1000.0))
  }

  function MilestonesOf(dist: Metric, route: Route, current: Movement): Milestones
  {
    MilestonesMs(route, RouteSchedule(dist, route, MovementOf(route, current)))
  }

  function ElapsedMs(route: Route, at: Instant): (ms: int)
    ensures ms >= 0
  {
    Max(0, at - route.createdAt)
  }

  /** The road covered in `ms` milliseconds. */
  function MetersIn(ms: int, speed: real): real {
    ms as real / 1000.0 * speed
  }

  /** Metres of the second leg still ahead `ms` milliseconds after the pickup. */
  function RemainingMeters(legTwoMeters: real, speed: real, ms: int): int {
    Round(MaxReal(0.0, legTwoMeters - MetersIn(ms, speed)))
  }

  function ProgressAt(dist: Metric, route: Route, at: Instant, current: Movement): Progress
  {
    var rule := MovementOf(route, current);
    var speed := MetersPerSecond(rule);
    var schedule := RouteSchedule(dist, route, rule);
    var elapsed := ElapsedMs(route, at);
    var m := MilestonesMs(route, schedule);
    var eta := Ceil(Max(0, m.arrivalMs - elapsed) as real / 1000.0);
    if elapsed < m.pickupMs then
      Progress(ToMarket, PointAlong(dist, LegOne(route), MetersIn(elapsed, speed)),
               Round(schedule.legTwoMeters), eta, None, None)
    else if elapsed < m.arrivalMs then
      Progress(ToCustomer, PointAlong(dist, LegTwo(route), MetersIn(elapsed - m.pickupMs, speed)),
               RemainingMeters(schedule.legTwoMeters, speed, elapsed - m.pickupMs), eta,
               Some(route.createdAt + m.pickupMs), None)
    else
      var legTwo := LegTwo(route);
      Progress(Delivered, legTwo[|legTwo| - 1], 0, 0,
               Some(route.createdAt + m.pickupMs), Some(route.createdAt + m.arrivalMs))
  }

  /** The location that may be written down: never the first leg once a pickup is recorded. */
  function CourierLocation(route: Route, progress: Progress): GeoPoint
  {
    if route.pickedUpAt.Some? && progress.phase == ToMarket then LegTwo(route)[0] else progress.position
  }

  function PositionAt(dist: Metric, route: Route, at: Instant, current: Movement): GeoPoint
  {
    CourierLocation(route, ProgressAt(dist, route, at, current))
  }

  function Dropoff(route: Route): Option<GeoPoint> {
    if route.points == [] then None else Some(route.points[|route.points| - 1])
  }

  // ---------- milestones ----------

  lemma ArrivalFollowsPickup(dist: Metric, route: Route, current: Movement)
    ensures var m := MilestonesOf(dist, route, current); m.pickupMs <= m.arrivalMs
    ensures route.pickedUpAt.None? ==> 0 <= MilestonesOf(dist, route, current).pickupMs
  {
    var schedule := RouteSchedule(dist, route, MovementOf(route, current));
    assert schedule.legTwoSeconds * 1000.0 >= 0.0 && schedule.pickupSeconds * 1000.0 >= 0.0;
  }

  /** The instant at which the tick will see the package picked up. */
  function PickupInstant(dist: Metric, route: Route, current: Movement): Instant
  {
    route.createdAt + MilestonesOf(dist, route, current).pickupMs
  }

  /** Writing the computed pickup down keeps it and moves the arrival by at most one millisecond. */
  lemma RecordingPickupKeepsTheSchedule(dist: Metric, route: Route, current: Movement)
    requires route.pickedUpAt.None?
    ensures var before := MilestonesOf(dist, route, current);
            var recorded := route.(pickedUpAt := Some(PickupInstant(dist, route, current)));
            var later := MilestonesOf(dist, recorded, current);
            && later.pickupMs == before.pickupMs
            && before.arrivalMs - 1 <= later.arrivalMs <= before.arrivalMs + 1
  {
    var schedule := RouteSchedule(dist, route, MovementOf(route, current));
    var recorded := route.(pickedUpAt := Some(PickupInstant(dist, route, current)));
    assert RouteSchedule(dist, recorded, MovementOf(recorded, current)) == schedule;
    var p, l := schedule.pickupSeconds * 1000.0, schedule.legTwoSeconds * 1000.0;
    assert schedule.arrivalSeconds * 1000.0 == p + l;
    RoundOfSum(p, l);
    RoundMonotone(p, p + l);
  }

  /** What a progress value says about a route's milestones; the tick relies on nothing else. */
  ghost predicate FitsRoute(dist: Metric, route: Route, progress: Progress, current: Movement)
  {
    && (progress.deliveredAt.Some? ==>
         progress.pickedUpAt.Some? && progress.pickedUpAt.value <= progress.deliveredAt.value)
    && (progress.pickedUpAt.Some? ==>
          progress.pickedUpAt.value
          == if route.pickedUpAt.Some? then route.pickedUpAt.value else PickupInstant(dist, route, current))
    && (progress.phase == Delivered <==> progress.deliveredAt.Some?)
    && (progress.phase == ToMarket <==> progress.pickedUpAt.None?)
  }

  lemma ProgressFitsRoute(dist: Metric, route: Route, at: Instant, current: Movement)
    ensures FitsRoute(dist, route, ProgressAt(dist, route, at, current), current)
  {
    ArrivalFollowsPickup(dist, route, current);
  }

  // ---------- monotonicity ----------

  lemma CeilMonotone(x: real, y: real)
    requires x <= y
    ensures Ceil(x) <= Ceil(y)
  {
  }

  lemma MetersGrow(earlier: int, later: int, speed: real)
    requires earlier <= later && speed > 0.0
    ensures MetersIn(earlier, speed) <= MetersIn(later, speed)
    ensures MetersIn(0, speed) == 0.0
  {
    var a, b := earlier as real / 1000.0, later as real / 1000.0;
    ProductNonNegative(b - a, speed);
    assert b * speed == a * speed + (b - a) * speed;
  }

  lemma ProductNonNegative(x: real, y: real)
    requires x >= 0.0 && y >= 0.0
    ensures x * y >= 0.0
  {
  }

  lemma RemainingShrinks(meters: real, speed: real, earlier: int, later: int)
    requires 0 <= earlier <= later && speed > 0.0 && meters >= 0.0
    ensures 0 <= RemainingMeters(meters, speed, later) <= RemainingMeters(meters, speed, earlier) <= Round(meters)
  {
    MetersGrow(earlier, later, speed);
    MetersGrow(0, earlier, speed);
    RoundMonotone(MaxReal(0.0, meters - MetersIn(later, speed)), MaxReal(0.0, meters - MetersIn(earlier, speed)));
    RoundMonotone(MaxReal(0.0, meters - MetersIn(earlier, speed)), meters);
  }

  function PhaseAt(m: Milestones, elapsed: int): Phase {
    if elapsed < m.pickupMs then ToMarket else if elapsed < m.arrivalMs then ToCustomer else Delivered
  }

  function EtaAt(arrivalMs: int, elapsed: int): int {
    Ceil(Max(0, arrivalMs - elapsed) as real / 1000.0)
  }

  function RemainingAt(legTwoMeters: real, speed: real, m: Milestones, elapsed: int): int {
    match PhaseAt(m, elapsed)
    case ToMarket => Round(legTwoMeters)
    case ToCustomer => RemainingMeters(legTwoMeters, speed, elapsed - m.pickupMs)
    case Delivered => 0
  }

  /** The numbers of a progress value, without its position. */
  lemma ProgressNumbers(dist: Metric, route: Route, at: Instant, current: Movement)
    ensures var p, m := ProgressAt(dist, route, at, current), MilestonesOf(dist, route, current);
            var elapsed := ElapsedMs(route, at);
            var rule := MovementOf(route, current);
            && p.phase == PhaseAt(m, elapsed)
            && p.etaSeconds == EtaAt(m.arrivalMs, elapsed)
            && p.legTwoRemainingMeters
               == RemainingAt(RouteSchedule(dist, route, rule).legTwoMeters, MetersPerSecond(rule), m, elapsed)
            && p.pickedUpAt == (if p.phase == ToMarket then None else Some(route.createdAt + m.pickupMs))
            && p.deliveredAt == (if p.phase == Delivered then Some(route.createdAt + m.arrivalMs) else None)
  {
    ArrivalFollowsPickup(dist, route, current);
  }

  lemma RemainingNeverGrows(legTwoMeters: real, speed: real, m: Milestones, earlier: int, later: int)
    requires earlier <= later && speed > 0.0 && legTwoMeters >= 0.0 && m.pickupMs <= m.arrivalMs
    ensures 0 <= RemainingAt(legTwoMeters, speed, m, later) <= RemainingAt(legTwoMeters, speed, m, earlier)
  {
    RoundMonotone(0.0, legTwoMeters);
    RemainingShrinks(legTwoMeters, speed, Max(0, earlier - m.pickupMs), Max(0, later - m.pickupMs));
  }

  /** Time only moves a courier forward: phase, remaining road and remaining time never go back. */
  lemma ProgressIsMonotone(dist: Metric, route: Route, earlier: Instant, later: Instant, current: Movement)
    requires earlier <= later
    ensures var p, q := ProgressAt(dist, route, earlier, current), ProgressAt(dist, route, later, current);
            && PhaseRank(p.phase) <= PhaseRank(q.phase)
            && 0 <= q.legTwoRemainingMeters <= p.legTwoRemainingMeters
            && 0 <= q.etaSeconds <= p.etaSeconds
            && (p.pickedUpAt.Some? ==> q.pickedUpAt == p.pickedUpAt)
            && (p.deliveredAt.Some? ==> q.deliveredAt == p.deliveredAt)
  {
    ArrivalFollowsPickup(dist, route, current);
    ProgressNumbers(dist, route, earlier, current);
    ProgressNumbers(dist, route, later, current);
    var rule := MovementOf(route, current);
    var m := MilestonesOf(dist, route, current);
    var e, l := ElapsedMs(route, earlier), ElapsedMs(route, later);
    EtaShrinks(m.arrivalMs, e, l);
    RemainingNeverGrows(RouteSchedule(dist, route, rule).legTwoMeters, MetersPerSecond(rule), m, e, l);
  }

  lemma EtaShrinks(arrivalMs: int, earlier: int, later: int)
    requires earlier <= later
    ensures 0 <= EtaAt(arrivalMs, later) <= EtaAt(arrivalMs, earlier)
    ensures earlier < arrivalMs <==> EtaAt(arrivalMs, earlier) >= 1
  {
    var a, b := Max(0, arrivalMs - later), Max(0, arrivalMs - earlier);
    assert 0.0 <= a as real / 1000.0 <= b as real / 1000.0;
    CeilMonotone(a as real / 1000.0, b as real / 1000.0);
  }

  /** The countdown reaches zero exactly at the delivery, and the road ends there too. */
  lemma EtaIsZeroExactlyAtDelivery(dist: Metric, route: Route, at: Instant, current: Movement)
    ensures var p := ProgressAt(dist, route, at, current);
            && (p.phase == Delivered <==> p.etaSeconds == 0)
            && p.etaSeconds >= 0
            && (p.phase == Delivered ==> p.legTwoRemainingMeters == 0 && Some(p.position) == Dropoff(route))
  {
    ArrivalFollowsPickup(dist, route, current);
    var m := MilestonesOf(dist, route, current);
    EtaShrinks(m.arrivalMs, ElapsedMs(route, at), ElapsedMs(route, at));
    assert LegTwo(route)[|LegTwo(route)| - 1] == route.points[|route.points| - 1];
  }

  /** Privacy: with the pickup recorded, the written location always lies on the market-to-address leg. */
  lemma RecordedPickupHidesTheFirstLeg(dist: Metric, route: Route, at: Instant, current: Movement)
    requires route.pickedUpAt.Some?
    ensures var p := PositionAt(dist, route, at, current);
            p in LegTwo(route) || exists meters :: LiesAt(dist, LegTwo(route), p, meters)
  {
    var m := MilestonesOf(dist, route, current);
    var elapsed := ElapsedMs(route, at);
    if m.pickupMs <= elapsed < m.arrivalMs {
      var meters := MetersIn(elapsed - m.pickupMs, MetersPerSecond(MovementOf(route, current)));
      OnTheRoad(dist, LegTwo(route), meters);
    }
  }

  lemma OnTheRoad(dist: Metric, points: seq<GeoPoint>, meters: real)
    requires points != []
    ensures var p := PointAlong(dist, points, meters); p in points || exists m :: LiesAt(dist, points, p, m)
  {
    PointAlongIsArcLength(dist, points, meters);
  }
}
