/** Assigning a courier and its route (courier-service application/assign-courier.ts and assignment-route.ts). */
module AssignCourier {
  import opened Common
  import opened Geometry
  import opened Routes
  import opened RoutePlanner
  import RouteProgress
  import opened Stores
  import TrackingContract
  import TrackingView

  type PlanRule = r: RouteRule | UsableRule(r) witness RouteRule(1.0, 3, 3, 1.0)

  /** What the service is configured with; the market copy does not change during a run. */
  datatype Config = Config(dist: Metric, arc: Arc, markets: map<MarketId, GeoPoint>, pool: UsablePool, rule: PlanRule)

  datatype Command = Command(orderId: OrderId, marketId: MarketId, deliveryLocation: GeoPoint)

  datatype AssignResult =
    | Assigned(courier: Courier, route: Option<Route>, reused: bool)
    | MarketUnknown
    | NoCourier
    | AssignConflict

  datatype AssignPc =
    | AsnBegin(cmd: Command, movement: Movement)
    | AsnLocate(cmd: Command, movement: Movement)
    | AsnClaim(cmd: Command, movement: Movement, near: GeoPoint, at: Instant)
    | AsnWinner(cmd: Command, movement: Movement, conflict: bool)
    | AsnRoute(cmd: Command, movement: Movement, courier: Courier, known: Option<GeoPoint>, reused: bool)
    | AsnPlan(cmd: Command, movement: Movement, courier: Courier, known: Option<GeoPoint>, stored: bool, reused: bool)
    | AsnInsert(cmd: Command, route: Route, courier: Courier, reused: bool)
    | AsnReplace(cmd: Command, route: Route, courier: Courier, reused: bool)
    | AsnDone(cmd: Command, result: AssignResult)

  /** The route of a new assignment: planned from where the courier stands, moving by the current rule. */
  function RouteFor(cfg: Config, cmd: Command, courier: Courier, pickup: GeoPoint, movement: Movement,
                    now: Instant): Route {
    var legs := RouteLegs(courier.lastLocation, pickup, cmd.deliveryLocation);
    var rule := cfg.rule.(speedKmh := movement.speedKmh);
    PlanIsSound(cfg.dist, cfg.arc, legs, rule);
    var plan := PlanRoute(cfg.dist, cfg.arc, legs, rule);
    RouteDocument(cmd.orderId, courier.id, plan.points, plan.pickupIndex, plan.distanceMeters, plan.etaSeconds,
                  now, Some(movement), Some(cmd.marketId), Some(Moving), None, false, None, false, None)
  }

  function EtaOf(route: Option<Route>): int {
    if route.Some? then route.value.etaSeconds else 0
  }

  /** The free courier a claim gets: the one the pool query prefers, if it is in the pool, else any other. */
  ghost function Chosen(cfg: Config, couriers: Couriers, near: GeoPoint, pick: CourierId): (id: CourierId)
    requires !PoolIsEmpty(cfg.dist, near, cfg.pool, couriers)
    ensures id in couriers && InPool(cfg.dist, near, cfg.pool, couriers[id])
  {
    if pick in couriers && InPool(cfg.dist, near, cfg.pool, couriers[pick]) then pick
    else
      var id :| id in couriers && InPool(cfg.dist, near, cfg.pool, couriers[id]);
      id
  }

  /** One port call; `pick` is the free courier the pool query prefers. */
  ghost function AssignStep(cfg: Config, db: Db, pc: AssignPc, now: Instant, pick: CourierId): (Db, AssignPc) {
    match pc
    case AsnBegin(cmd, movement) =>
      var existing := CarrierOf(db.couriers, cmd.orderId);
      (db, if existing.Some? then AsnRoute(cmd, movement, existing.value, None, true) else AsnLocate(cmd, movement))
    case AsnLocate(cmd, movement) =>
      (db,
       if cmd.marketId in cfg.markets then AsnClaim(cmd, movement, cfg.markets[cmd.marketId], now)
       else AsnDone(cmd, MarketUnknown))
    case AsnClaim(cmd, movement, near, at) =>
      if PoolIsEmpty(cfg.dist, near, cfg.pool, db.couriers) then (db, AsnWinner(cmd, movement, false))
      else if IsCarried(db.couriers, cmd.orderId) then (db, AsnWinner(cmd, movement, true))
      else
        var id := Chosen(cfg, db.couriers, near, pick);
        var couriers := ClaimCourier(db.couriers, id, cmd.orderId, at);
        (db.(couriers := couriers), AsnRoute(cmd, movement, couriers[id], Some(near), false))
    case AsnWinner(cmd, movement, conflict) =>
      var winner := CarrierOf(db.couriers, cmd.orderId);
      (db,
       if winner.Some? then AsnRoute(cmd, movement, winner.value, None, true)
       else AsnDone(cmd, if conflict then AssignConflict else NoCourier))
    case AsnRoute(cmd, movement, courier, known, reused) =>
      var stored := FindRoute(db.docs, cmd.orderId);
      (db,
       if stored.Some? && BelongsToAssignment(stored.value, courier)
         then AsnDone(cmd, Assigned(courier, stored, reused))
       else AsnPlan(cmd, movement, courier, known, stored.Some?, reused))
    case AsnPlan(cmd, movement, courier, known, stored, reused) =>
      if known.None? && cmd.marketId !in cfg.markets then (db, AsnDone(cmd, Assigned(courier, None, reused)))
      else
        var pickup := if known.Some? then known.value else cfg.markets[cmd.marketId];
        var route := RouteFor(cfg, cmd, courier, pickup, movement, now);
        (db, if stored then AsnReplace(cmd, route, courier, reused) else AsnInsert(cmd, route, courier, reused))
    case AsnInsert(cmd, route, courier, reused) =>
      var (docs, kept) := InsertDocs(db.docs, route);
      (db.(docs := docs), AsnDone(cmd, Assigned(courier, Some(kept), reused)))
    case AsnReplace(cmd, route, courier, reused) =>
      (db.(docs := Write(db.docs, route)), AsnDone(cmd, Assigned(courier, Some(route), reused)))
    case AsnDone(_, _) => (db, pc)
  }

  function AssignCallsLeft(pc: AssignPc): nat {
    match pc
    case AsnBegin(_, _) => 7
    case AsnLocate(_, _) => 6
    case AsnClaim(_, _, _, _) => 5
    case AsnWinner(_, _, _) => 4
    case AsnRoute(_, _, _, _, _) => 3
    case AsnPlan(_, _, _, _, _, _) => 2
    case AsnInsert(_, _, _, _) => 1
    case AsnReplace(_, _, _, _) => 1
    case AsnDone(_, _) => 0
  }

  lemma EveryCallLeavesFewer(cfg: Config, db: Db, pc: AssignPc, now: Instant, pick: CourierId)
    requires !pc.AsnDone?
    ensures AssignCallsLeft(AssignStep(cfg, db, pc, now, pick).1) < AssignCallsLeft(pc)
  {
  }

  ghost function RunAssign(cfg: Config, db: Db, pc: AssignPc, now: Instant, pick: CourierId): (Db, AssignResult)
    decreases AssignCallsLeft(pc)
  {
    match pc
    case AsnDone(_, result) => (db, result)
    case _ =>
      EveryCallLeavesFewer(cfg, db, pc, now, pick);
      var next := AssignStep(cfg, db, pc, now, pick);
      RunAssign(cfg, next.0, next.1, now, pick)
  }

  lemma OneAssignCall(cfg: Config, db: Db, pc: AssignPc, now: Instant, pick: CourierId)
    ensures var next := AssignStep(cfg, db, pc, now, pick);
            RunAssign(cfg, db, pc, now, pick) == RunAssign(cfg, next.0, next.1, now, pick)
    ensures pc.AsnDone? ==> RunAssign(cfg, db, pc, now, pick) == (db, pc.result)
  {
  }

  /**
   * The planned route end to end: the customer's view of it starts at the market and, when the address is
   * apart from it, ends at the address, within the points the tracking contract allows.
   */
  lemma PlannedRouteIsWhatCustomersSee(cfg: Config, cmd: Command, courier: Courier, pickup: GeoPoint,
                                       movement: Movement, created: Instant, at: Instant)
    requires cfg.rule.maxPoints <= TrackingContract.COURIER_ROUTE_MAX_POINTS
    ensures var route := RouteFor(cfg, cmd, courier, pickup, movement, created);
            var view := TrackingView.ViewAt(cfg.dist, route, at, movement);
            && view.marketLocation == pickup
            && (cfg.dist(pickup, cmd.deliveryLocation) > 0.0 ==> view.deliveryLocation == cmd.deliveryLocation)
            && 1 <= |view.route| <= TrackingContract.COURIER_ROUTE_MAX_POINTS
            && TrackingContract.PhaseIssues(view.shape) == []
            && RouteProgress.LegTwo(route)[0] == pickup
            && RouteProgress.LegOne(route)[|RouteProgress.LegOne(route)| - 1] == pickup
            && |route.points|
              == RoutePointCount(cfg.dist(courier.lastLocation, pickup) + cfg.dist(pickup, cmd.deliveryLocation),
                                                 cfg.rule.(speedKmh := movement.speedKmh))
  {
    var route := RouteFor(cfg, cmd, courier, pickup, movement, created);
    PlannedRouteMeetsAtTheMarket(cfg, cmd, courier, pickup, movement, created);
    ViewShowsTheSecondLeg(cfg.dist, route, at, movement);
  }

  /** The plan itself: its length, its market corner and its end. */
  lemma PlannedRouteMeetsAtTheMarket(cfg: Config, cmd: Command, courier: Courier, pickup: GeoPoint, movement: Movement,
                                     created: Instant)
    ensures var route := RouteFor(cfg, cmd, courier, pickup, movement, created);
            && route.points[route.pickupIndex] == pickup
            && (cfg.dist(pickup, cmd.deliveryLocation) > 0.0 ==>
                 route.points[|route.points| - 1] == cmd.deliveryLocation)
            && |route.points| <= cfg.rule.maxPoints
            && |route.points|
              == RoutePointCount(cfg.dist(courier.lastLocation, pickup) + cfg.dist(pickup, cmd.deliveryLocation),
                                                 cfg.rule.(speedKmh := movement.speedKmh))
  {
    var rule := cfg.rule.(speedKmh := movement.speedKmh);
    PlanIsSound(cfg.dist, cfg.arc, RouteLegs(courier.lastLocation, pickup, cmd.deliveryLocation), rule);
  }

  /** The view of any route runs from its market point to its last one. */
  lemma ViewShowsTheSecondLeg(dist: Metric, route: Route, at: Instant, movement: Movement)
    ensures var view := TrackingView.ViewAt(dist, route, at, movement);
            && view.marketLocation == route.points[route.pickupIndex]
            && view.deliveryLocation == route.points[|route.points| - 1]
            && 1 <= |view.route| <= |route.points|
            && TrackingContract.PhaseIssues(view.shape) == []
    ensures RouteProgress.LegOne(route)[|RouteProgress.LegOne(route)| - 1] == RouteProgress.LegTwo(route)[0]
            == route.points[route.pickupIndex]
  {
    TrackingView.ViewMeetsTheContract(dist, route, at, movement);
  }

  /** A stored route that belongs to the order's carrier is what every later call answers, changing nothing. */
  lemma StoredAssignmentIsAnswered(cfg: Config, db: Db, cmd: Command, movement: Movement, now: Instant, pick: CourierId,
                                   courier: Courier, route: Route)
    requires CouriersOk(db.couriers) && Carries(db.couriers, courier.id, cmd.orderId)
             && db.couriers[courier.id] == courier
    requires cmd.orderId in db.docs.routes && db.docs.routes[cmd.orderId] == route
             && BelongsToAssignment(route, courier)
    ensures RunAssign(cfg, db, AsnBegin(cmd, movement), now, pick) == (db, Assigned(courier, Some(route), true))
  {
    CarrierIsUnique(db.couriers, courier.id, cmd.orderId);
    OneAssignCall(cfg, db, AsnBegin(cmd, movement), now, pick);
    OneAssignCall(cfg, db, AsnRoute(cmd, movement, courier, None, true), now, pick);
  }

  /** What an assignment with a route leaves behind: the courier carries the order and owns the stored route. */
  ghost predicate SettledFor(db: Db, cmd: Command, result: AssignResult) {
    && result.Assigned? && result.route.Some?
    && Carries(db.couriers, result.courier.id, cmd.orderId) && db.couriers[result.courier.id] == result.courier
    && cmd.orderId in db.docs.routes && db.docs.routes[cmd.orderId] == result.route.value
    && BelongsToAssignment(result.route.value, result.courier)
  }

  lemma RouteStepSettles(cfg: Config, db: Db, cmd: Command, movement: Movement, courier: Courier,
                         known: Option<GeoPoint>, reused: bool, now: Instant, pick: CourierId)
    requires Carries(db.couriers, courier.id, cmd.orderId) && db.couriers[courier.id] == courier
    requires courier.lastAssignedAt.Some? ==> courier.lastAssignedAt.value <= now
    ensures var (after, result) := RunAssign(cfg, db, AsnRoute(cmd, movement, courier, known, reused), now, pick);
            after.couriers == db.couriers && result.Assigned? && (result.route.Some? ==> SettledFor(after, cmd, result))
  {
    var pc := AsnRoute(cmd, movement, courier, known, reused);
    OneAssignCall(cfg, db, pc, now, pick);
    var plan := AssignStep(cfg, db, pc, now, pick).1;
    if plan.AsnPlan? {
      OneAssignCall(cfg, db, plan, now, pick);
      var write := AssignStep(cfg, db, plan, now, pick).1;
      if !write.AsnDone? {
        assert write.route.courierId == courier.id && write.route.createdAt == now
          && write.route.orderId == cmd.orderId;
        StoreStepSettles(cfg, db, write, now, pick);
      }
    }
  }

  lemma StoreStepSettles(cfg: Config, db: Db, pc: AssignPc, now: Instant, pick: CourierId)
    requires (pc.AsnInsert? && pc.cmd.orderId !in db.docs.routes) || pc.AsnReplace?
    requires pc.route.orderId == pc.cmd.orderId && BelongsToAssignment(pc.route, pc.courier)
    requires Carries(db.couriers, pc.courier.id, pc.cmd.orderId) && db.couriers[pc.courier.id] == pc.courier
    ensures var (after, result) := RunAssign(cfg, db, pc, now, pick);
            after.couriers == db.couriers && SettledFor(after, pc.cmd, result)
  {
    OneAssignCall(cfg, db, pc, now, pick);
  }

  /** Asking again is safe: the second call changes nothing and answers the first one's courier and route. */
  lemma AssigningTwiceIsAssigningOnce(cfg: Config, db: Db, cmd: Command, movement: Movement, now: Instant,
                                      pick: CourierId, movement': Movement, now': Instant, pick': CourierId)
    requires CouriersOk(db.couriers)
    requires forall id :: id in db.couriers && db.couriers[id].lastAssignedAt.Some? ==>
             db.couriers[id].lastAssignedAt.value <= now
    ensures var (after, first) := RunAssign(cfg, db, AsnBegin(cmd, movement), now, pick);
            first.Assigned? && first.route.Some? ==>
              RunAssign(cfg, after, AsnBegin(cmd, movement'), now', pick') == (after, first.(reused := true))
  {
    var (after, first) := RunAssign(cfg, db, AsnBegin(cmd, movement), now, pick);
    OneAssignCall(cfg, db, AsnBegin(cmd, movement), now, pick);
    var pc := AssignStep(cfg, db, AsnBegin(cmd, movement), now, pick).1;
    if pc.AsnRoute? {
      RouteStepSettles(cfg, db, cmd, movement, pc.courier, None, true, now, pick);
    } else {
      FreshClaimSettles(cfg, db, cmd, movement, now, pick);
    }
    if first.Assigned? && first.route.Some? {
      StoredAssignmentIsAnswered(cfg, after, cmd, movement', now', pick', first.courier, first.route.value);
    }
  }

  lemma FreshClaimSettles(cfg: Config, db: Db, cmd: Command, movement: Movement, now: Instant, pick: CourierId)
    requires CouriersOk(db.couriers) && !IsCarried(db.couriers, cmd.orderId)
    ensures var (after, result) := RunAssign(cfg, db, AsnLocate(cmd, movement), now, pick);
            result.Assigned? ==> CouriersOk(after.couriers) && (result.route.Some? ==> SettledFor(after, cmd, result))
  {
    OneAssignCall(cfg, db, AsnLocate(cmd, movement), now, pick);
    var claim := AssignStep(cfg, db, AsnLocate(cmd, movement), now, pick).1;
    if claim.AsnClaim? {
      OneAssignCall(cfg, db, claim, now, pick);
      var (db2, pc2) := AssignStep(cfg, db, claim, now, pick);
      if pc2.AsnRoute? {
        ClaimKeepsCouriersOk(db.couriers, Chosen(cfg, db.couriers, claim.near, pick), cmd.orderId, now);
        RouteStepSettles(cfg, db2, cmd, movement, pc2.courier, pc2.known, false, now, pick);
      } else {
        OneAssignCall(cfg, db2, pc2, now, pick);
      }
    }
  }

  // ---------- the program ----------

  class AssignCourierUseCase {
    const cfg: Config
    const routes: RouteStore
    const couriers: CourierStore
    const events: EventLog
    const live: LiveLocationStore

    constructor (cfg: Config, routes: RouteStore, couriers: CourierStore, events: EventLog, live: LiveLocationStore)
      ensures this.cfg == cfg && this.routes == routes && this.couriers == couriers
      ensures this.events == events && this.live == live
    {
      this.cfg, this.routes, this.couriers, this.events, this.live := cfg, routes, couriers, events, live;
    }

    ghost function Contents(): Db
      reads routes, couriers, events, live
    {
      Db(routes.Contents(), couriers.couriers, events.events, live.locations)
    }

    /** Without interference the program is a run of its port calls that claims the first courier of the pool. */
    method Assign(cmd: Command, movement: Movement, now: Instant) returns (result: AssignResult, ghost pick: CourierId)
      requires couriers.Valid()
      modifies routes, couriers
      ensures couriers.Valid()
      ensures (Contents(), result) == RunAssign(cfg, old(Contents()), AsnBegin(cmd, movement), now, pick)
      ensures result.Assigned? && !result.reused ==>
        && pick in old(couriers.couriers) && cmd.marketId in cfg.markets
        && InPool(cfg.dist, cfg.markets[cmd.marketId], cfg.pool, old(couriers.couriers)[pick])
        && (forall other :: other in old(couriers.couriers) && other != pick
                            && InPool(cfg.dist, cfg.markets[cmd.marketId], cfg.pool, old(couriers.couriers)[other])
                            ==> Precedes(cfg.dist, cfg.markets[cmd.marketId], cfg.pool,
                                         old(couriers.couriers)[pick], old(couriers.couriers)[other]))
    {
      pick := 0;
      OneAssignCall(cfg, Contents(), AsnBegin(cmd, movement), now, pick);
      var existing := couriers.FindByOrder(cmd.orderId);
      if existing.Some? {
        result := AssignRoute(cmd, movement, existing.value, None, true, now, pick);
        return;
      }
      OneAssignCall(cfg, Contents(), AsnLocate(cmd, movement), now, pick);
      if cmd.marketId !in cfg.markets {
        return MarketUnknown, pick;
      }
      var near := cfg.markets[cmd.marketId];
      ghost var start := Contents();
      var claim := couriers.ClaimNearest(cfg.dist, cmd.orderId, near, cfg.pool, now);
      if claim.Claimed? {
        pick := claim.courier.id;
        OneAssignCall(cfg, start, AsnBegin(cmd, movement), now, pick);
        OneAssignCall(cfg, start, AsnLocate(cmd, movement), now, pick);
        OneAssignCall(cfg, start, AsnClaim(cmd, movement, near, now), now, pick);
        result := AssignRoute(cmd, movement, claim.courier, Some(near), false, now, pick);
        return;
      }
      OneAssignCall(cfg, start, AsnClaim(cmd, movement, near, now), now, pick);
      OneAssignCall(cfg, Contents(), AsnWinner(cmd, movement, claim.Conflict?), now, pick);
      // The second look finds a winner only when another call interfered.
      var winner := couriers.FindByOrder(cmd.orderId);
      if winner.Some? {
        assert false;
      }
      return if claim.Conflict? then AssignConflict else NoCourier, pick;
    }

    /** The assignment's route: the stored one, or a new one written once or in place of another assignment's. */
    method AssignRoute(cmd: Command, movement: Movement, courier: Courier, known: Option<GeoPoint>, reused: bool,
                       now: Instant, ghost pick: CourierId)
      returns (result: AssignResult)
      requires couriers.Valid()
      modifies routes
      ensures couriers.couriers == old(couriers.couriers)
      ensures (Contents(), result)
           == RunAssign(cfg, old(Contents()), AsnRoute(cmd, movement, courier, known, reused), now, pick)
      ensures result.Assigned? && result.reused == reused
    {
      OneAssignCall(cfg, Contents(), AsnRoute(cmd, movement, courier, known, reused), now, pick);
      var stored := routes.FindByOrder(cmd.orderId);
      if stored.Some? && BelongsToAssignment(stored.value, courier) {
        return Assigned(courier, stored, reused);
      }
      result := PlanAndStore(cmd, movement, courier, known, stored.Some?, reused, now, pick);
    }

    method PlanAndStore(cmd: Command, movement: Movement, courier: Courier, known: Option<GeoPoint>, stored: bool,
                        reused: bool, now: Instant, ghost pick: CourierId)
      returns (result: AssignResult)
      requires couriers.Valid()
      modifies routes
      ensures couriers.couriers == old(couriers.couriers)
      ensures (Contents(), result)
           == RunAssign(cfg, old(Contents()), AsnPlan(cmd, movement, courier, known, stored, reused), now, pick)
      ensures result.Assigned? && result.reused == reused
    {
      OneAssignCall(cfg, Contents(), AsnPlan(cmd, movement, courier, known, stored, reused), now, pick);
      if known.None? && cmd.marketId !in cfg.markets {
        return Assigned(courier, None, reused);
      }
      var pickup := if known.Some? then known.value else cfg.markets[cmd.marketId];
      result := Store(cmd, RouteFor(cfg, cmd, courier, pickup, movement, now), courier, stored, reused, now, pick);
    }

    method Store(cmd: Command, route: Route, courier: Courier, stored: bool, reused: bool, ghost now: Instant,
                 ghost pick: CourierId)
      returns (result: AssignResult)
      requires couriers.Valid()
      modifies routes
      ensures couriers.couriers == old(couriers.couriers)
      ensures (Contents(), result)
           == RunAssign(cfg, old(Contents()),
                        if stored then AsnReplace(cmd, route, courier, reused)
                        else AsnInsert(cmd, route, courier, reused), now, pick)
      ensures result.Assigned? && result.reused == reused
    {
      if stored {
        OneAssignCall(cfg, Contents(), AsnReplace(cmd, route, courier, reused), now, pick);
        routes.Replace(route);
        return Assigned(courier, Some(route), reused);
      }
      OneAssignCall(cfg, Contents(), AsnInsert(cmd, route, courier, reused), now, pick);
      var kept := routes.InsertOnce(route);
      return Assigned(courier, Some(kept), reused);
    }
  }
}
