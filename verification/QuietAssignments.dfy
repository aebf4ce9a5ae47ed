/** An assignment that nothing interrupts: who gets the order, and the route that is planned and kept for it. */
module QuietAssignments {
  import opened Common
  import opened Geometry
  import opened Routes
  import opened RoutePlanner
  import opened Stores
  import opened AssignCourier

  /** A new route of this courier for this order: planned now from where it stands, with nothing recorded yet. */
  predicate IsPlannedFor(cfg: Config, cmd: Command, from: GeoPoint, courierId: CourierId, pickup: GeoPoint,
                         movement: Movement, now: Instant, r: Route) {
    && r.orderId == cmd.orderId && r.courierId == courierId && r.createdAt == now
    && r.marketId == Some(cmd.marketId) && r.movement == Some(movement)
    && r.state == Some(Moving) && r.endedAt.None?
    && r.pickedUpAt.None? && !r.pickupPublished && r.deliveredAt.None? && !r.deliveryPublished
    && r.points[r.pickupIndex] == pickup
    && (cfg.dist(from, pickup) > 0.0 ==> r.points[0] == from)
    && (cfg.dist(pickup, cmd.deliveryLocation) > 0.0 ==> r.points[|r.points| - 1] == cmd.deliveryLocation)
    && IsRounded(r.distanceMeters, cfg.dist(from, pickup) + cfg.dist(pickup, cmd.deliveryLocation))
    && (r.etaSeconds as real - 1.0) * (movement.speedKmh * 1000.0) < r.distanceMeters as real * 3600.0
       <= r.etaSeconds as real * (movement.speedKmh * 1000.0)
  }

  lemma RouteForIsPlanned(cfg: Config, cmd: Command, courier: Courier, pickup: GeoPoint, movement: Movement,
                          now: Instant)
    ensures IsPlannedFor(cfg, cmd, courier.lastLocation, courier.id, pickup, movement, now,
                         RouteFor(cfg, cmd, courier, pickup, movement, now))
  {
    var legs := RouteLegs(courier.lastLocation, pickup, cmd.deliveryLocation);
    PlanIsSound(cfg.dist, cfg.arc, legs, cfg.rule.(speedKmh := movement.speedKmh));
    PlanNumbers(cfg.dist, cfg.arc, legs, cfg.rule.(speedKmh := movement.speedKmh));
  }

  /** The stored route is this courier's, from this assignment or a later one. */
  predicate HasOwnRoute(db: Db, orderId: OrderId, courier: Courier) {
    && orderId in db.docs.routes && db.docs.routes[orderId].courierId == courier.id
    && (courier.lastAssignedAt.None? || courier.lastAssignedAt.value <= db.docs.routes[orderId].createdAt)
  }

  /** The order's route is this one, and other orders' routes, couriers, events and locations are as they were. */
  ghost predicate OnlyStores(db: Db, after: Db, r: Route) {
    && FindRoute(after.docs, r.orderId) == Some(r)
    && (forall o :: o != r.orderId ==> FindRoute(after.docs, o) == FindRoute(db.docs, o))
    && after.couriers == db.couriers && after.events == db.events && after.live == db.live
  }

  /** Writing the route ends the call. */
  lemma QuietStoring(cfg: Config, db: Db, cmd: Command, route: Route, courier: Courier, reused: bool, now: Instant,
                     pick: CourierId)
    requires route.orderId == cmd.orderId
    ensures var pc := if cmd.orderId in db.docs.routes then AsnReplace(cmd, route, courier, reused)
                      else AsnInsert(cmd, route, courier, reused);
            var (after, result) := RunAssign(cfg, db, pc, now, pick);
            result == Assigned(courier, Some(route), reused) && OnlyStores(db, after, route)
  {
    var pc := if cmd.orderId in db.docs.routes then AsnReplace(cmd, route, courier, reused)
              else AsnInsert(cmd, route, courier, reused);
    OneAssignCall(cfg, db, pc, now, pick);
    var (stored, last) := AssignStep(cfg, db, pc, now, pick);
    OneAssignCall(cfg, stored, last, now, pick);
  }

  /** The place the route is planned over. */
  function MarketOf(cfg: Config, cmd: Command, known: Option<GeoPoint>): GeoPoint
    requires known.Some? || cmd.marketId in cfg.markets
  {
    if known.Some? then known.value else cfg.markets[cmd.marketId]
  }

  lemma QuietPlanning(cfg: Config, db: Db, cmd: Command, movement: Movement, courier: Courier, known: Option<GeoPoint>,
                      reused: bool, now: Instant, pick: CourierId)
    requires known.Some? || cmd.marketId in cfg.markets
    ensures var pc := AsnPlan(cmd, movement, courier, known, cmd.orderId in db.docs.routes, reused);
            var route := RouteFor(cfg, cmd, courier, MarketOf(cfg, cmd, known), movement, now);
            var (after, result) := RunAssign(cfg, db, pc, now, pick);
            result == Assigned(courier, Some(route), reused) && OnlyStores(db, after, route)
  {
    var pc := AsnPlan(cmd, movement, courier, known, cmd.orderId in db.docs.routes, reused);
    OneAssignCall(cfg, db, pc, now, pick);
    QuietStoring(cfg, db, cmd, RouteFor(cfg, cmd, courier, MarketOf(cfg, cmd, known), movement, now), courier, reused,
      now, pick);
  }

  /**
   * With a courier in hand that has no route for the order: one is planned and stored, unless the market is unknown.
   */
  lemma QuietRouting(cfg: Config, db: Db, cmd: Command, movement: Movement, courier: Courier, known: Option<GeoPoint>,
                     reused: bool, now: Instant, pick: CourierId)
    requires !HasOwnRoute(db, cmd.orderId, courier)
    ensures var (after, result) := RunAssign(cfg, db, AsnRoute(cmd, movement, courier, known, reused), now, pick);
            && result.Assigned? && result.courier == courier && result.reused == reused
            && if known.None? && cmd.marketId !in cfg.markets then after == db && result.route.None?
               else
                 && result.route.Some? && OnlyStores(db, after, result.route.value)
                 && IsPlannedFor(cfg, cmd, courier.lastLocation, courier.id, MarketOf(cfg, cmd, known), movement, now,
                                 result.route.value)
  {
    OneAssignCall(cfg, db, AsnRoute(cmd, movement, courier, known, reused), now, pick);
    if known.None? && cmd.marketId !in cfg.markets {
      OneAssignCall(cfg, db, AsnPlan(cmd, movement, courier, known, cmd.orderId in db.docs.routes, reused), now, pick);
      OneAssignCall(cfg, db, AsnDone(cmd, Assigned(courier, None, reused)), now, pick);
    } else {
      QuietPlanning(cfg, db, cmd, movement, courier, known, reused, now, pick);
      RouteForIsPlanned(cfg, cmd, courier, MarketOf(cfg, cmd, known), movement, now);
    }
  }

  /**
   * An order nobody carries, a known market and a free courier in its pool: the courier is claimed now, and gets a
   * route from where it stands over the market to the address.
   */
  lemma QuietAssignment(cfg: Config, db: Db, cmd: Command, movement: Movement, now: Instant, pick: CourierId)
    requires CouriersOk(db.couriers) && !IsCarried(db.couriers, cmd.orderId) && cmd.marketId in cfg.markets
    requires pick in db.couriers && InPool(cfg.dist, cfg.markets[cmd.marketId], cfg.pool, db.couriers[pick])
    requires cmd.orderId in db.docs.routes ==>
               db.docs.routes[cmd.orderId].courierId != pick || db.docs.routes[cmd.orderId].createdAt < now
    ensures var (after, result) := RunAssign(cfg, db, AsnBegin(cmd, movement), now, pick);
            var taken := db.(couriers := after.couriers);
            && OnlyDiffersAt(db.couriers, after.couriers, pick)
            && IsTaken(db.couriers[pick], after.couriers[pick], cmd.orderId, now)
            && result.Assigned? && result.courier == after.couriers[pick] && !result.reused && result.route.Some?
            && OnlyStores(taken, after, result.route.value)
            && IsPlannedFor(cfg, cmd, db.couriers[pick].lastLocation, pick, cfg.markets[cmd.marketId], movement, now,
                            result.route.value)
  {
    var market := cfg.markets[cmd.marketId];
    OneAssignCall(cfg, db, AsnBegin(cmd, movement), now, pick);
    OneAssignCall(cfg, db, AsnLocate(cmd, movement), now, pick);
    var claim := AsnClaim(cmd, movement, market, now);
    assert !PoolIsEmpty(cfg.dist, market, cfg.pool, db.couriers);
    OneAssignCall(cfg, db, claim, now, pick);
    ClaimTakesTheCourier(cfg.dist, market, cfg.pool, db.couriers, pick, cmd.orderId, now);
    var (taken, routing) := AssignStep(cfg, db, claim, now, pick);
    QuietRouting(cfg, taken, cmd, movement, taken.couriers[pick], Some(market), false, now, pick);
  }

  /** An order that is carried without a route of its own assignment gets one, if its market is known. */
  lemma QuietAssignmentOfACarriedOrder(cfg: Config, db: Db, cmd: Command, movement: Movement, now: Instant,
                                       pick: CourierId, courier: Courier)
    requires CouriersOk(db.couriers) && Carries(db.couriers, courier.id, cmd.orderId)
             && db.couriers[courier.id] == courier
    requires !HasOwnRoute(db, cmd.orderId, courier)
    ensures var (after, result) := RunAssign(cfg, db, AsnBegin(cmd, movement), now, pick);
            && result.Assigned? && result.courier == courier && result.reused
            && if cmd.marketId !in cfg.markets then after == db && result.route.None?
               else
                 && result.route.Some? && OnlyStores(db, after, result.route.value)
                 && IsPlannedFor(cfg, cmd, courier.lastLocation, courier.id, cfg.markets[cmd.marketId], movement, now,
                                 result.route.value)
  {
    CarrierIsUnique(db.couriers, courier.id, cmd.orderId);
    OneAssignCall(cfg, db, AsnBegin(cmd, movement), now, pick);
    QuietRouting(cfg, db, cmd, movement, courier, None, true, now, pick);
  }

  /** Nobody carries the order, and its market is unknown or has no free courier around it: nothing is written. */
  lemma QuietRefusals(cfg: Config, db: Db, cmd: Command, movement: Movement, now: Instant, pick: CourierId)
    requires !IsCarried(db.couriers, cmd.orderId)
    ensures cmd.marketId !in cfg.markets ==>
              RunAssign(cfg, db, AsnBegin(cmd, movement), now, pick) == (db, MarketUnknown)
    ensures cmd.marketId in cfg.markets && PoolIsEmpty(cfg.dist, cfg.markets[cmd.marketId], cfg.pool, db.couriers) ==>
              RunAssign(cfg, db, AsnBegin(cmd, movement), now, pick) == (db, NoCourier)
  {
    OneAssignCall(cfg, db, AsnBegin(cmd, movement), now, pick);
    OneAssignCall(cfg, db, AsnLocate(cmd, movement), now, pick);
    OneAssignCall(cfg, db, AsnDone(cmd, MarketUnknown), now, pick);
    if cmd.marketId in cfg.markets && PoolIsEmpty(cfg.dist, cfg.markets[cmd.marketId], cfg.pool, db.couriers) {
      OneAssignCall(cfg, db, AsnClaim(cmd, movement, cfg.markets[cmd.marketId], now), now, pick);
      OneAssignCall(cfg, db, AsnWinner(cmd, movement, false), now, pick);
      OneAssignCall(cfg, db, AsnDone(cmd, NoCourier), now, pick);
    }
  }

  /**
   * A claim that finds the order taken, or the pool empty, looks who carries the order: that courier's route is next,
   * and with nobody the call ends as it was refused.
   */
  lemma LostClaimsLookAgain(cfg: Config, db: Db, cmd: Command, movement: Movement, near: GeoPoint, at: Instant,
                            now: Instant, pick: CourierId, refused: bool)
    ensures var claimed := AssignStep(cfg, db, AsnClaim(cmd, movement, near, at), now, pick);
            && (PoolIsEmpty(cfg.dist, near, cfg.pool, db.couriers) ==> claimed == (db, AsnWinner(cmd, movement, false)))
            && (!PoolIsEmpty(cfg.dist, near, cfg.pool, db.couriers) && IsCarried(db.couriers, cmd.orderId) ==>
                  claimed == (db, AsnWinner(cmd, movement, true)))
    ensures var (after, next) := AssignStep(cfg, db, AsnWinner(cmd, movement, refused), now, pick);
            && after == db
            && (if IsCarried(db.couriers, cmd.orderId) then
                  && next.AsnRoute? && next.reused && next == AsnRoute(cmd, movement, next.courier, None, true)
                  && exists id :: Carries(db.couriers, id, cmd.orderId) && db.couriers[id] == next.courier
                else next == AsnDone(cmd, if refused then AssignConflict else NoCourier))
  {
  }
}
