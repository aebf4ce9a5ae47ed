/** Freeing couriers left BUSY by a failed release (courier-service application/reconcile-carriers.ts). */
module ReconcileCarriers {
  import opened Common
  import opened Geometry
  import opened Routes
  import opened RouteProgress
  import opened Stores

  datatype StuckRelease = StuckRelease(at: Instant, location: Option<GeoPoint>)

  predicate Settled(at: Instant, now: Instant, graceMs: nat) {
    at <= now - graceMs
  }

  /** When and where a stuck courier is freed; None for the normal path and for another assignment's route. */
  function StuckReleaseOf(dist: Metric, carrier: Courier, route: Route, now: Instant, graceMs: nat, rule: Movement)
    : Option<StuckRelease>
  {
    if carrier.status != Busy || !BelongsToAssignment(route, carrier) then None
    else if StateOf(route) == Ended then
      if route.endedAt.None? then Some(StuckRelease(now, None))
      else if Settled(route.endedAt.value, now, graceMs)
      then Some(StuckRelease(route.endedAt.value, Some(PositionAt(dist, route, route.endedAt.value, rule))))
      else None
    else if StateOf(route) == Done && route.deliveredAt.Some? then
      if Settled(route.deliveredAt.value, now, graceMs)
      then Some(StuckRelease(route.deliveredAt.value, Dropoff(route)))
      else None
    else None
  }

  /**
   * A carrier is stuck exactly when the route of its own assignment is over, and has been for the grace time: it is
   * freed at the end of the route where the route stood then, or at the delivery at the address. An ENDED route
   * without an end of its own frees it now, its place unknown.
   */
  lemma StuckExactly(dist: Metric, carrier: Courier, route: Route, now: Instant, graceMs: nat, rule: Movement)
    ensures var stuck := StuckReleaseOf(dist, carrier, route, now, graceMs, rule);
            var own := carrier.status == Busy && carrier.id == route.courierId
                       && (carrier.lastAssignedAt.None? || carrier.lastAssignedAt.value <= route.createdAt);
            match route.state
            case Some(Ended) =>
              && (stuck.Some? <==> own && (route.endedAt.None? || route.endedAt.value + graceMs <= now))
              && (stuck.Some? ==>
                    stuck.value == match route.endedAt
                                   case None => StuckRelease(now, None)
                                   case Some(at) => StuckRelease(at, Some(PositionAt(dist, route, at, rule))))
            case Some(Done) =>
              && (stuck.Some? <==> own && route.deliveredAt.Some? && route.deliveredAt.value + graceMs <= now)
              && (stuck.Some? ==>
                    stuck.value == StuckRelease(route.deliveredAt.value, Some(route.points[|route.points| - 1])))
            case _ => stuck.None?
  {
  }

  datatype ReconcilePc =
    | RecBegin(rule: Movement, graceMs: nat)
    | RecRoutes(carriers: seq<Courier>, rule: Movement, graceMs: nat)
    | RecLoop(carriers: seq<Courier>, routes: map<OrderId, Route>, now: Instant, rule: Movement, graceMs: nat,
              released: nat)
    | RecDone(released: nat)

  function OrdersOf(carriers: seq<Courier>): set<OrderId> {
    set c | c in carriers && c.currentOrderId.Some? :: c.currentOrderId.value
  }

  /** The routes of a page of carriers, read at once. */
  function FindByOrders(docs: Docs, orderIds: set<OrderId>): map<OrderId, Route> {
    map o | o in orderIds && o in docs.routes :: docs.routes[o]
  }

  /** The release the loop is about to ask for, if the head of the page is stuck. */
  function HeadRelease(dist: Metric, pc: ReconcilePc): Option<(Courier, Route, StuckRelease)>
    requires pc.RecLoop? && pc.carriers != []
  {
    var carrier := pc.carriers[0];
    if carrier.currentOrderId.None? || carrier.currentOrderId.value !in pc.routes then None
    else
      var route := pc.routes[carrier.currentOrderId.value];
      var stuck := StuckReleaseOf(dist, carrier, route, pc.now, pc.graceMs, pc.rule);
      if stuck.None? then None else Some((carrier, route, stuck.value))
  }

  /** One port call; `page` is the page of carriers the listing returns. */
  function ReconcileStep(dist: Metric, db: Db, pc: ReconcilePc, now: Instant, page: seq<Courier>): (Db, ReconcilePc) {
    match pc
    case RecBegin(rule, graceMs) =>
      if forall c :: c in page ==> c.id in db.couriers && db.couriers[c.id] == c
      then (db, RecRoutes(page, rule, graceMs))
      else (db, pc)
    case RecRoutes(carriers, rule, graceMs) =>
      (db, RecLoop(carriers, FindByOrders(db.docs, OrdersOf(carriers)), now, rule, graceMs, 0))
    case RecLoop(carriers, routes, at, rule, graceMs, released) =>
      if carriers == [] then (db, RecDone(released))
      else
        var head := HeadRelease(dist, pc);
        if head.None? then (db, pc.(carriers := carriers[1..]))
        else
          var (carrier, route, stuck) := head.value;
          var (couriers, freed) := ReleaseCouriers(db.couriers, route.orderId, stuck.at, carrier.id, stuck.location);
          (db.(couriers := couriers),
           pc.(carriers := carriers[1..], released := if freed.Some? then released + 1 else released))
    case RecDone(_) => (db, pc)
  }

  // ---------- the keyed cursor ----------

  /** A page of a keyed listing: the first `limit` orders after the cursor, in order. */
  ghost predicate IsPage(carried: set<OrderId>, limit: nat, after: Option<OrderId>, page: seq<OrderId>) {
    && |page| <= limit
    && (forall i, j :: 0 <= i < j < |page| ==> page[i] < page[j])
    && (forall i :: 0 <= i < |page| ==> page[i] in carried && (after.Some? ==> after.value < page[i]))
    && (forall o :: o in carried && (after.Some? ==> after.value < o) && o !in page ==>
          |page| == limit && forall i :: 0 <= i < |page| ==> page[i] < o)
  }

  /** A short page wraps around; a full one continues after its last order. */
  function NextCursor(limit: nat, page: seq<OrderId>): Option<OrderId>
    requires limit > 0
  {
    if |page| < limit then None else Some(page[|page| - 1])
  }
}
