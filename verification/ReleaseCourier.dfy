/** Giving a courier back (courier-service application/release-courier.ts): the cancel side of the race. */
module ReleaseCourier {
  import opened Common
  import opened Geometry
  import opened Routes
  import opened RouteProgress
  import opened Stores
  import opened AdvanceRoute

  /** Which side won; a cancellation names the route it found or made ENDED, when there was one. */
  datatype Decision = DeliveryWins(route: Route) | Cancelled(location: Option<GeoPoint>, ended: Option<Route>)

  datatype ReleaseResult = NobodyCarries | Undecided | Decided(decision: Decision, released: Option<CourierId>)

  datatype ReleasePc =
    | RelBegin(orderId: OrderId, rule: Movement, routed: bool)
    | RelFindCarrier(orderId: OrderId, rule: Movement, routed: bool, at: Instant)
    | RelReadRoute(orderId: OrderId, carrier: Courier, rule: Movement, at: Instant)
    | RelEnd(orderId: OrderId, route: Route, carrier: Courier, rule: Movement, at: Instant)
    | RelReread(orderId: OrderId, route: Route, carrier: Courier, rule: Movement, at: Instant)
    | RelFree(orderId: OrderId, carrier: Courier, decision: Decision, at: Instant)
    | RelDone(orderId: OrderId, result: ReleaseResult)

  /** An already ENDED route: the courier stands where it was when the route ended. */
  function EndedDecision(dist: Metric, route: Route, rule: Movement): Decision {
    Cancelled(
      if route.endedAt.None? then None else Some(PositionAt(dist, route, route.endedAt.value, rule)), Some(route))
  }

  function Decide(orderId: OrderId, carrier: Courier, decision: Decision, at: Instant): ReleasePc {
    if decision.DeliveryWins? then RelDone(orderId, Decided(decision, None))
    else RelFree(orderId, carrier, decision, at)
  }

  /** With the route as read: a delivery wins, an ended route stays as it ended, a moving one is to be ended. */
  function AfterRead(dist: Metric, found: Option<Route>, orderId: OrderId, carrier: Courier, rule: Movement,
                     at: Instant): ReleasePc {
    if found.None? || !BelongsToAssignment(found.value, carrier)
      then Decide(orderId, carrier, Cancelled(None, None), at)
    else if IsDelivered(found.value) then Decide(orderId, carrier, DeliveryWins(found.value), at)
    else if StateOf(found.value) != Moving then Decide(orderId, carrier, EndedDecision(dist, found.value, rule), at)
    else RelEnd(orderId, found.value, carrier, rule, at)
  }

  /** After the ending: the courier stands where it was, or someone else was faster. */
  function AfterEnd(dist: Metric, ended: Option<Route>, orderId: OrderId, route: Route, carrier: Courier,
                    rule: Movement, at: Instant): ReleasePc
  {
    if ended.Some? then Decide(orderId, carrier, Cancelled(Some(PositionAt(dist, route, at, rule)), ended), at)
    else RelReread(orderId, route, carrier, rule, at)
  }

  /** After a rejected ending: whoever was faster has decided. */
  function AfterReread(
    dist: Metric, again: Option<Route>, orderId: OrderId, route: Route, carrier: Courier, rule: Movement,
    at: Instant): ReleasePc
  {
    if DeliveredMeanwhile(route, again) then Decide(orderId, carrier, DeliveryWins(again.value), at)
    else if again.None? || !SameRoute(again.value, route) then Decide(orderId, carrier, Cancelled(None, None), at)
    else if StateOf(again.value) == Moving then RelDone(orderId, Undecided)
    else Decide(orderId, carrier, EndedDecision(dist, again.value, rule), at)
  }

  ghost function ReleaseStep(dist: Metric, db: Db, pc: ReleasePc, now: Instant): (Db, ReleasePc) {
    match pc
    case RelBegin(orderId, rule, routed) => (db, RelFindCarrier(orderId, rule, routed, now))
    case RelFindCarrier(orderId, rule, routed, at) =>
      var carrier := CarrierOf(db.couriers, orderId);
      (db,
       if carrier.None? then RelDone(orderId, NobodyCarries)
       else if !routed then Decide(orderId, carrier.value, Cancelled(None, None), at)
       else RelReadRoute(orderId, carrier.value, rule, at))
    case RelReadRoute(orderId, carrier, rule, at) =>
      (db, AfterRead(dist, FindRoute(db.docs, orderId), orderId, carrier, rule, at))
    case RelEnd(orderId, route, carrier, rule, at) =>
      var (docs, ended) := UpdateDocs(db.docs, route, EndPatch(at));
      (db.(docs := docs), AfterEnd(dist, ended, orderId, route, carrier, rule, at))
    case RelReread(orderId, route, carrier, rule, at) =>
      (db, AfterReread(dist, FindRoute(db.docs, route.orderId), orderId, route, carrier, rule, at))
    case RelFree(orderId, carrier, decision, at) =>
      var location := if decision.Cancelled? then decision.location else None;
      var (couriers, freed) := ReleaseCouriers(db.couriers, orderId, at, carrier.id, location);
      (db.(couriers := couriers),
       RelDone(orderId, Decided(decision, if freed.None? then None else Some(freed.value.id))))
    case RelDone(_, _) => (db, pc)
  }

  function CallsLeft(pc: ReleasePc): nat {
    match pc
    case RelBegin(_, _, _) => 6
    case RelFindCarrier(_, _, _, _) => 5
    case RelReadRoute(_, _, _, _) => 4
    case RelEnd(_, _, _, _, _) => 3
    case RelReread(_, _, _, _, _) => 2
    case RelFree(_, _, _, _) => 1
    case RelDone(_, _) => 0
  }

  ghost function RunRelease(dist: Metric, db: Db, pc: ReleasePc, now: Instant): (Db, ReleaseResult)
    decreases CallsLeft(pc)
  {
    match pc
    case RelDone(_, result) => (db, result)
    case _ =>
      var next := ReleaseStep(dist, db, pc, now);
      RunRelease(dist, next.0, next.1, now)
  }

  lemma OneReleaseCall(dist: Metric, db: Db, pc: ReleasePc, now: Instant)
    ensures var next := ReleaseStep(dist, db, pc, now);
            RunRelease(dist, db, pc, now) == RunRelease(dist, next.0, next.1, now)
    ensures pc.RelDone? ==> RunRelease(dist, db, pc, now) == (db, pc.result)
  {
  }

  predicate Owns(db: Db, orderId: OrderId, carrier: Courier) {
    orderId in db.docs.routes && BelongsToAssignment(db.docs.routes[orderId], carrier)
  }

  /** The delivery stands: nothing is written, and the caller learns the delivered route. */
  ghost predicate DeliveryStands(db: Db, orderId: OrderId, after: Db, result: ReleaseResult) {
    after == db && orderId in db.docs.routes && result == Decided(DeliveryWins(db.docs.routes[orderId]), None)
  }

  /** The carrier is free at the decided place, and nobody carries the order. */
  ghost predicate CarrierIsFree(db: Db, orderId: OrderId, carrier: Courier, now: Instant, after: Db,
                                result: ReleaseResult) {
    && result.Decided? && result.decision.Cancelled? && result.released == Some(carrier.id)
    && after == db.(docs := after.docs, couriers := after.couriers)
    && after.couriers == db.couriers[carrier.id := FreedAt(carrier, now, result.decision.location)]
    && !IsCarried(after.couriers, orderId)
  }

  /** The route is ENDED, at this moment if it was moving, and the decided place is where it stood then. */
  ghost predicate RouteIsEnded(dist: Metric, db: Db, orderId: OrderId, rule: Movement, now: Instant, after: Db,
                               result: ReleaseResult) {
    && orderId in db.docs.routes && orderId in after.docs.routes && StateOf(after.docs.routes[orderId]) == Ended
    && after.docs.routes == db.docs.routes[orderId := after.docs.routes[orderId]]
    && (StateOf(db.docs.routes[orderId]) == Moving ==> after.docs.routes[orderId].endedAt == Some(now))
    && (StateOf(db.docs.routes[orderId]) == Ended ==> after.docs == db.docs)
    && result.Decided? && result.decision.Cancelled?
    && result.decision.location
       == (var ended := after.docs.routes[orderId];
           if ended.endedAt.None? then None else Some(PositionAt(dist, ended, ended.endedAt.value, rule)))
  }

  lemma NobodyElseCarries(db: Db, orderId: OrderId)
    requires CouriersOk(db.couriers) && IsCarried(db.couriers, orderId)
    ensures var carrier := CarrierOf(db.couriers, orderId).value;
            Carries(db.couriers, carrier.id, orderId)
            && forall id :: id in db.couriers && id != carrier.id ==> db.couriers[id].currentOrderId != Some(orderId)
  {
    var carrier := CarrierOf(db.couriers, orderId).value;
    assert Carries(db.couriers, carrier.id, orderId);
    forall id | id in db.couriers && id != carrier.id
      ensures db.couriers[id].currentOrderId != Some(orderId)
    {
      assert !Carries(db.couriers, id, orderId) || id == carrier.id;
    }
  }

  lemma ReachesTheRoute(dist: Metric, db: Db, orderId: OrderId, rule: Movement, now: Instant)
    requires IsCarried(db.couriers, orderId)
    ensures RunRelease(dist, db, RelBegin(orderId, rule, true), now)
         == RunRelease(dist, db, RelReadRoute(orderId, CarrierOf(db.couriers, orderId).value, rule, now), now)
  {
    OneReleaseCall(dist, db, RelBegin(orderId, rule, true), now);
    OneReleaseCall(dist, db, RelFindCarrier(orderId, rule, true, now), now);
  }

  lemma FreeingEnds(dist: Metric, db: Db, orderId: OrderId, carrier: Courier, decision: Decision, now: Instant)
    requires CouriersOk(db.couriers) && IsCarried(db.couriers, orderId)
             && carrier == CarrierOf(db.couriers, orderId).value
    requires decision.Cancelled?
    ensures var (after, result) := RunRelease(dist, db, RelFree(orderId, carrier, decision, now), now);
            after.docs == db.docs && result == Decided(decision, Some(carrier.id))
              && CarrierIsFree(db, orderId, carrier, now, after, result)
  {
    NobodyElseCarries(db, orderId);
    OneReleaseCall(dist, db, RelFree(orderId, carrier, decision, now), now);
  }

  /** A release that finds the order's own route delivered changes nothing. */
  lemma QuietReleaseOfADelivery(dist: Metric, db: Db, orderId: OrderId, rule: Movement, now: Instant)
    requires CouriersOk(db.couriers) && IsCarried(db.couriers, orderId)
    requires Owns(db, orderId, CarrierOf(db.couriers, orderId).value) && IsDelivered(db.docs.routes[orderId])
    ensures var (after, result) := RunRelease(dist, db, RelBegin(orderId, rule, true), now);
            DeliveryStands(db, orderId, after, result)
  {
    var carrier := CarrierOf(db.couriers, orderId).value;
    ReachesTheRoute(dist, db, orderId, rule, now);
    OneReleaseCall(dist, db, RelReadRoute(orderId, carrier, rule, now), now);
    var decided := ReleaseStep(dist, db, RelReadRoute(orderId, carrier, rule, now), now).1;
    OneReleaseCall(dist, db, decided, now);
  }

  /** Without a route of this assignment only the courier is freed, and nothing is known of its place. */
  lemma QuietReleaseWithoutRoute(dist: Metric, db: Db, orderId: OrderId, rule: Movement, now: Instant)
    requires CouriersOk(db.couriers) && IsCarried(db.couriers, orderId)
    requires !Owns(db, orderId, CarrierOf(db.couriers, orderId).value)
    ensures var (after, result) := RunRelease(dist, db, RelBegin(orderId, rule, true), now);
            && CarrierIsFree(db, orderId, CarrierOf(db.couriers, orderId).value, now, after, result)
            && after.docs == db.docs && result.decision.location.None?
  {
    var carrier := CarrierOf(db.couriers, orderId).value;
    ReachesTheRoute(dist, db, orderId, rule, now);
    OneReleaseCall(dist, db, RelReadRoute(orderId, carrier, rule, now), now);
    FreeingEnds(dist, db, orderId, carrier, Cancelled(None, None), now);
  }

  /** Nobody carries the order: nothing happens. */
  lemma NobodyToRelease(dist: Metric, db: Db, orderId: OrderId, rule: Movement, routed: bool, now: Instant)
    requires !IsCarried(db.couriers, orderId)
    ensures RunRelease(dist, db, RelBegin(orderId, rule, routed), now) == (db, NobodyCarries)
  {
    OneReleaseCall(dist, db, RelBegin(orderId, rule, routed), now);
    OneReleaseCall(dist, db, RelFindCarrier(orderId, rule, routed, now), now);
    OneReleaseCall(dist, db, RelDone(orderId, NobodyCarries), now);
  }

  /** A release that does not ask for the route frees the courier whatever the route says. */
  lemma QuietReleaseWithoutLooking(dist: Metric, db: Db, orderId: OrderId, rule: Movement, now: Instant)
    requires CouriersOk(db.couriers) && IsCarried(db.couriers, orderId)
    ensures var (after, result) := RunRelease(dist, db, RelBegin(orderId, rule, false), now);
            && CarrierIsFree(db, orderId, CarrierOf(db.couriers, orderId).value, now, after, result)
            && after.docs == db.docs && result.decision.location.None? && result.decision.ended.None?
  {
    var carrier := CarrierOf(db.couriers, orderId).value;
    OneReleaseCall(dist, db, RelBegin(orderId, rule, false), now);
    OneReleaseCall(dist, db, RelFindCarrier(orderId, rule, false, now), now);
    FreeingEnds(dist, db, orderId, carrier, Cancelled(None, None), now);
  }

  /** The stored route is the one the release wanted to end. */
  predicate IsStillTheRoute(db: Db, route: Route) {
    && route.orderId in db.docs.routes
    && db.docs.routes[route.orderId].courierId == route.courierId
    && db.docs.routes[route.orderId].createdAt == route.createdAt
  }

  /**
   * After a refused ending the stored route decides: another route leaves only the courier to free, an ENDED one also
   * tells its place, a delivered one wins, and one still on its way is a failure to report.
   */
  lemma RefusedEndingDecidesExactly(dist: Metric, db: Db, orderId: OrderId, route: Route, carrier: Courier,
                                    rule: Movement, at: Instant, now: Instant)
    ensures var (after, next) := ReleaseStep(dist, db, RelReread(orderId, route, carrier, rule, at), now);
            && after == db
            && if !IsStillTheRoute(db, route) then next == RelFree(orderId, carrier, Cancelled(None, None), at)
               else
                 var r := db.docs.routes[route.orderId];
                 match r.state
                 case Some(Ended) =>
                   && next == RelFree(orderId, carrier, Cancelled(next.decision.location, Some(r)), at)
                   && next.decision.location
                      == (if r.endedAt.None? then None else Some(PositionAt(dist, r, r.endedAt.value, rule)))
                 case Some(Done) => next == RelDone(orderId, Decided(DeliveryWins(r), None))
                 case _ =>
                   if r.deliveredAt.Some? then next == RelDone(orderId, Decided(DeliveryWins(r), None))
                   else next == RelDone(orderId, Undecided)
  {
  }

  /** The last call frees the courier, at the decided place, exactly if it still carries the order, and tells so. */
  lemma FreeingTellsExactly(dist: Metric, db: Db, orderId: OrderId, carrier: Courier, decision: Decision, at: Instant,
                            now: Instant)
    requires CouriersOk(db.couriers) && decision.Cancelled?
    ensures var (after, next) := ReleaseStep(dist, db, RelFree(orderId, carrier, decision, at), now);
            if Carries(db.couriers, carrier.id, orderId) then
              && next == RelDone(orderId, Decided(decision, Some(carrier.id)))
              && after == db.(couriers := after.couriers) && OnlyDiffersAt(db.couriers, after.couriers, carrier.id)
              && IsFreed(db.couriers[carrier.id], after.couriers[carrier.id], at, decision.location)
            else next == RelDone(orderId, Decided(decision, None)) && after == db
  {
    ReleaseFreesTheCarrier(db.couriers, orderId, at, carrier.id, decision.location);
  }

  /** Otherwise the assignment's route ends, and the courier is free where the route had brought it. */
  lemma QuietReleaseOfARoute(dist: Metric, db: Db, orderId: OrderId, rule: Movement, now: Instant)
    requires CouriersOk(db.couriers) && IsCarried(db.couriers, orderId)
    requires Owns(db, orderId, CarrierOf(db.couriers, orderId).value) && !IsDelivered(db.docs.routes[orderId])
    requires db.docs.routes[orderId].orderId == orderId
    ensures var (after, result) := RunRelease(dist, db, RelBegin(orderId, rule, true), now);
            && CarrierIsFree(db, orderId, CarrierOf(db.couriers, orderId).value, now, after, result)
            && RouteIsEnded(dist, db, orderId, rule, now, after, result)
  {
    var carrier := CarrierOf(db.couriers, orderId).value;
    var route := db.docs.routes[orderId];
    ReachesTheRoute(dist, db, orderId, rule, now);
    OneReleaseCall(dist, db, RelReadRoute(orderId, carrier, rule, now), now);
    if StateOf(route) == Moving {
      QuietEnding(dist, db, orderId, carrier, rule, now);
    } else {
      FreeingEnds(dist, db, orderId, carrier, EndedDecision(dist, route, rule), now);
    }
  }

  lemma QuietEnding(dist: Metric, db: Db, orderId: OrderId, carrier: Courier, rule: Movement, now: Instant)
    requires CouriersOk(db.couriers) && IsCarried(db.couriers, orderId)
             && carrier == CarrierOf(db.couriers, orderId).value
    requires orderId in db.docs.routes && db.docs.routes[orderId].orderId == orderId
    requires StateOf(db.docs.routes[orderId]) == Moving && !IsDelivered(db.docs.routes[orderId])
    ensures var (after, result) := RunRelease(dist, db, RelEnd(orderId, db.docs.routes[orderId], carrier, rule, now),
              now);
            && CarrierIsFree(db, orderId, carrier, now, after, result)
            && RouteIsEnded(dist, db, orderId, rule, now, after, result)
  {
    var route := db.docs.routes[orderId];
    OneReleaseCall(dist, db, RelEnd(orderId, route, carrier, rule, now), now);
    var (docs, ended) := UpdateDocs(db.docs, route, EndPatch(now));
    PositionIgnoresTheEnd(dist, route, ended.value, now, rule);
    FreeingEnds(dist, db.(docs := docs), orderId, carrier, Cancelled(Some(PositionAt(dist, route, now, rule)), ended),
      now);
  }

  lemma PlanIgnoresTheEnd(dist: Metric, route: Route, at: Instant, rule: Movement, schedule: Schedule)
    ensures var ended := Patched(route, EndPatch(at));
            && LegOne(ended) == LegOne(route) && LegTwo(ended) == LegTwo(route)
            && MovementOf(ended, rule) == MovementOf(route, rule)
            && ElapsedMs(ended, at) == ElapsedMs(route, at)
            && MilestonesMs(ended, schedule) == MilestonesMs(route, schedule)
  {
  }

  lemma ProgressIgnoresTheEnd(dist: Metric, route: Route, at: Instant, rule: Movement)
    ensures ProgressAt(dist, Patched(route, EndPatch(at)), at, rule) == ProgressAt(dist, route, at, rule)
  {
    PlanIgnoresTheEnd(dist, route, at, rule, RouteSchedule(dist, route, MovementOf(route, rule)));
  }

  lemma PositionIgnoresTheEnd(dist: Metric, route: Route, ended: Route, at: Instant, rule: Movement)
    requires ended == Patched(route, EndPatch(at))
    ensures PositionAt(dist, ended, at, rule) == PositionAt(dist, route, at, rule)
  {
    ProgressIgnoresTheEnd(dist, route, at, rule);
  }

  // ---------- the program ----------

  class ReleaseCourierUseCase {
    const dist: Metric
    const routes: RouteStore
    const couriers: CourierStore
    const events: EventLog
    const live: LiveLocationStore

    constructor (dist: Metric, routes: RouteStore, couriers: CourierStore, events: EventLog, live: LiveLocationStore)
      ensures this.dist == dist && this.routes == routes && this.couriers == couriers
      ensures this.events == events && this.live == live
    {
      this.dist, this.routes, this.couriers, this.events, this.live := dist, routes, couriers, events, live;
    }

    ghost function Contents(): Db
      reads routes, couriers, events, live
    {
      Db(routes.Contents(), couriers.couriers, events.events, live.locations)
    }

    /** Without interference the program is exactly the run of its port calls. */
    method Release(orderId: OrderId, rule: Movement, routed: bool, at: Instant) returns (result: ReleaseResult)
      requires couriers.Valid()
      modifies routes, couriers
      ensures couriers.Valid()
      ensures (Contents(), result) == RunRelease(dist, old(Contents()), RelBegin(orderId, rule, routed), at)
    {
      OneReleaseCall(dist, Contents(), RelBegin(orderId, rule, routed), at);
      OneReleaseCall(dist, Contents(), RelFindCarrier(orderId, rule, routed, at), at);
      var carrier := couriers.FindByOrder(orderId);
      if carrier.None? {
        return NobodyCarries;
      }
      var decision := Some(Cancelled(None, None));
      if routed {
        decision := RouteDecision(orderId, carrier.value, rule, at);
      }
      if decision.None? {
        return Undecided;
      }
      OneReleaseCall(dist, Contents(), Decide(orderId, carrier.value, decision.value, at), at);
      if decision.value.DeliveryWins? {
        return Decided(decision.value, None);
      }
      var freed := couriers.ReleaseByOrder(orderId, at, carrier.value.id, decision.value.location);
      return Decided(decision.value, if freed.None? then None else Some(freed.value.id));
    }

    /** The route decides; None is the "could not end the route" error. */
    method RouteDecision(orderId: OrderId, carrier: Courier, rule: Movement, at: Instant)
      returns (decision: Option<Decision>)
      requires couriers.Valid()
      modifies routes
      ensures couriers.couriers == old(couriers.couriers) && events.events == old(events.events)
      ensures live.locations == old(live.locations)
      ensures RunRelease(dist, old(Contents()), RelReadRoute(orderId, carrier, rule, at), at)
           == RunRelease(dist, Contents(),
                         if decision.None? then RelDone(orderId, Undecided)
                         else Decide(orderId, carrier, decision.value, at), at)
    {
      OneReleaseCall(dist, Contents(), RelReadRoute(orderId, carrier, rule, at), at);
      var found := routes.FindByOrder(orderId);
      if found.None? || !BelongsToAssignment(found.value, carrier) {
        return Some(Cancelled(None, None));
      }
      var route := found.value;
      if IsDelivered(route) {
        return Some(DeliveryWins(route));
      }
      if StateOf(route) != Moving {
        return Some(EndedDecision(dist, route, rule));
      }
      OneReleaseCall(dist, Contents(), RelEnd(orderId, route, carrier, rule, at), at);
      var ended := routes.Update(route, EndPatch(at));
      if ended.Some? {
        return Some(Cancelled(Some(PositionAt(dist, route, at, rule)), ended));
      }
      OneReleaseCall(dist, Contents(), RelReread(orderId, route, carrier, rule, at), at);
      var again := routes.FindByOrder(route.orderId);
      if DeliveredMeanwhile(route, again) {
        return Some(DeliveryWins(again.value));
      }
      if again.Some? && SameRoute(again.value, route) && StateOf(again.value) == Moving {
        return None;
      }
      return Some(if again.Some? && SameRoute(again.value, route) then EndedDecision(dist, again.value, rule)
                  else Cancelled(None, None));
    }
  }
}
