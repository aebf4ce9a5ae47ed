/** One tick of one route (courier-service application/advance-route.ts), step by step and as a program. */
module AdvanceRoute {
  import opened Common
  import opened Geometry
  import opened Routes
  import opened RouteProgress
  import opened Stores

  datatype Outcome = OutMoving | OutPickedUp | OutDelivered | OutEnded | OutStale

  datatype Locals = Locals(now: Instant, progress: Progress, outcome: Outcome)

  /** Where a tick stands: the port call it makes next, with the copies it holds. */
  datatype TickPc =
    | TickWatch(orderId: OrderId, rule: Movement)
    | TickListed(route: Route, rule: Movement)
    | TickBegin(route: Route, courier: Option<Courier>, rule: Movement)
    | TickEnd(route: Route, now: Instant)
    | TickRecordPickup(route: Route, t: Locals)
    | TickPublishPickup(route: Route, t: Locals)
    | TickFlagPickup(route: Route, t: Locals)
    | TickRecordDelivery(route: Route, t: Locals)
    | TickConfirm(route: Route, deliveredAt: Instant)
    | TickFreeCourier(route: Route, deliveredAt: Instant)
    | TickPublishDelivery(route: Route, deliveredAt: Instant)
    | TickFlagDone(route: Route, deliveredAt: Instant)
    | TickSaveLive(route: Route, t: Locals)
    | TickFinished(outcome: Outcome)

  // ---------- the decisions between two port calls ----------

  function Begin(dist: Metric, route: Route, courier: Option<Courier>, rule: Movement, now: Instant): TickPc {
    var progress := ProgressAt(dist, route, now, rule);
    if route.deliveredAt.None? && !CarriesOrder(courier, route.orderId) then TickEnd(route, now)
    else if progress.pickedUpAt.Some? && route.pickedUpAt.None?
    then TickRecordPickup(route, Locals(now, progress, OutPickedUp))
    else AfterPickup(route, Locals(now, progress, OutMoving))
  }

  function AfterPickup(current: Route, t: Locals): TickPc {
    if current.pickedUpAt.Some? && !current.pickupPublished then
      if current.marketId.Some? then TickPublishPickup(current, t) else TickFlagPickup(current, t)
    else AfterPublish(current, t)
  }

  function AfterPublish(current: Route, t: Locals): TickPc {
    if t.progress.deliveredAt.Some? && current.deliveredAt.None? then TickRecordDelivery(current, t)
    else if current.deliveredAt.Some? then TickConfirm(current, current.deliveredAt.value)
    else TickSaveLive(current, t)
  }

  function PickupPatch(t: Locals): RoutePatch {
    NO_PATCH.(pickedUpAt := t.progress.pickedUpAt)
  }

  const FLAG_PICKUP := NO_PATCH.(pickupPublished := true)
  const FLAG_DONE := NO_PATCH.(deliveryPublished := true, state := Some(Done))

  function DeliveryPatch(current: Route, t: Locals): RoutePatch
    requires t.progress.deliveredAt.Some?
  {
    NO_PATCH.(deliveredAt := Some(DeliveredNoEarlierThan(t.progress.deliveredAt.value, current.pickedUpAt)))
  }

  function EndPatch(now: Instant): RoutePatch {
    NO_PATCH.(state := Some(Ended), endedAt := Some(now))
  }

  function PickupEvent(route: Route, t: Locals): RouteEvent
    requires route.marketId.Some? && route.pickedUpAt.Some?
  {
    PickedUpEvent(Key(route), route.marketId.value, route.pickedUpAt.value)
  }

  /** The conditions under which a tick stands where it stands. */
  predicate Sensible(pc: TickPc) {
    match pc
    case TickRecordPickup(route, t) => t.progress.pickedUpAt.Some?
    case TickPublishPickup(route, t) => route.pickedUpAt.Some? && route.marketId.Some?
    case TickFlagPickup(route, t) => route.pickedUpAt.Some?
    case TickRecordDelivery(route, t) => t.progress.deliveredAt.Some?
    case _ => true
  }

  function CourierIn(couriers: Couriers, route: Route): Option<Courier> {
    if route.courierId in couriers then Some(couriers[route.courierId]) else None
  }

  // ---------- one port call ----------

  function TickStep(dist: Metric, db: Db, pc: TickPc, now: Instant): (result: (Db, TickPc))
    requires Sensible(pc)
    ensures Sensible(result.1)
  {
    match pc
    case TickWatch(orderId, rule) =>
      var route := FindRoute(db.docs, orderId);
      if route.Some? && StateOf(route.value) == Moving then (db, TickListed(route.value, rule))
      else (db, TickFinished(OutStale))
    case TickListed(route, rule) =>
      (db, TickBegin(route, CourierIn(db.couriers, route), rule))
    case TickBegin(route, courier, rule) => (db, Begin(dist, route, courier, rule, now))
    case TickEnd(route, at) =>
      var (docs, ended) := UpdateDocs(db.docs, route, EndPatch(at));
      (db.(docs := docs), TickFinished(if ended.None? then OutStale else OutEnded))
    case TickRecordPickup(route, t) =>
      var (docs, current) := UpdateDocs(db.docs, route, PickupPatch(t));
      (db.(docs := docs), if current.None? then TickFinished(OutStale) else AfterPickup(current.value, t))
    case TickPublishPickup(route, t) =>
      (db.(events := db.events + [PickupEvent(route, t)]), TickFlagPickup(route, t))
    case TickFlagPickup(route, t) =>
      var (docs, current) := UpdateDocs(db.docs, route, FLAG_PICKUP);
      (db.(docs := docs), if current.None? then TickFinished(OutStale) else AfterPublish(current.value, t))
    case TickRecordDelivery(route, t) =>
      var (docs, current) := UpdateDocs(db.docs, route, DeliveryPatch(route, t));
      (db.(docs := docs),
       if current.None? then TickFinished(OutStale)
       else TickFreeCourier(current.value, current.value.deliveredAt.value))
    case TickConfirm(route, deliveredAt) =>
      var (docs, confirmed) := UpdateDocs(db.docs, route, NO_PATCH.(deliveredAt := Some(deliveredAt)));
      (db.(docs := docs),
       if confirmed.None? then TickFinished(OutStale) else TickFreeCourier(confirmed.value, deliveredAt))
    case TickFreeCourier(route, deliveredAt) =>
      var (couriers, _) := ReleaseCouriers(db.couriers, route.orderId, deliveredAt, route.courierId, Dropoff(route));
      (db.(couriers := couriers), TickPublishDelivery(route, deliveredAt))
    case TickPublishDelivery(route, deliveredAt) =>
      (db.(events := db.events + [DeliveredEvent(Key(route), deliveredAt)]), TickFlagDone(route, deliveredAt))
    case TickFlagDone(route, _) =>
      var (docs, done) := UpdateDocs(db.docs, route, FLAG_DONE);
      (db.(docs := docs), TickFinished(if done.None? then OutStale else OutDelivered))
    case TickSaveLive(route, t) =>
      (db.(live := db.live[route.courierId := LiveLocation(CourierLocation(route, t.progress), t.now)]),
       TickFinished(t.outcome))
    case TickFinished(_) => (db, pc)
  }

  // ---------- a tick that nothing interrupts ----------

  /** How many port calls a tick may still make: its termination measure. */
  function Remaining(pc: TickPc): nat {
    match pc
    case TickWatch(_, _) => 13
    case TickListed(_, _) => 12
    case TickBegin(_, _, _) => 11
    case TickRecordPickup(_, _) => 10
    case TickPublishPickup(_, _) => 9
    case TickFlagPickup(_, _) => 8
    case TickRecordDelivery(_, _) => 7
    case TickConfirm(_, _) => 7
    case TickFreeCourier(_, _) => 6
    case TickPublishDelivery(_, _) => 5
    case TickFlagDone(_, _) => 4
    case TickEnd(_, _) => 1
    case TickSaveLive(_, _) => 1
    case TickFinished(_) => 0
  }

  lemma EveryCallMakesProgress(dist: Metric, db: Db, pc: TickPc, now: Instant)
    requires Sensible(pc) && !pc.TickFinished?
    ensures Remaining(TickStep(dist, db, pc, now).1) < Remaining(pc)
  {
  }

  function RunTick(dist: Metric, db: Db, pc: TickPc, now: Instant): (Db, Outcome)
    requires Sensible(pc)
    decreases Remaining(pc)
  {
    match pc
    case TickFinished(outcome) => (db, outcome)
    case _ =>
      EveryCallMakesProgress(dist, db, pc, now);
      var next := TickStep(dist, db, pc, now);
      RunTick(dist, next.0, next.1, now)
  }

  /** Unfolds a run by one port call. */
  lemma OneCall(dist: Metric, db: Db, pc: TickPc, now: Instant)
    requires Sensible(pc)
    ensures var next := TickStep(dist, db, pc, now);
            RunTick(dist, db, pc, now) == RunTick(dist, next.0, next.1, now)
    ensures pc.TickFinished? ==> RunTick(dist, db, pc, now) == (db, pc.outcome)
  {
  }

  // ---------- recovery ----------

  /** The route is finished: delivered, announced, and its courier free of the order. */
  ghost predicate Completed(db: Db, key: RouteKey) {
    && key.orderId in db.docs.routes
    && var r := db.docs.routes[key.orderId];
    && Key(r) == key && StateOf(r) == Done && r.deliveryPublished && r.deliveredAt.Some?
    && DeliveredEvent(key, r.deliveredAt.value) in db.events
    && !Carries(db.couriers, key.courierId, key.orderId)
  }

  /** The stored route is the one in hand and still accepts the tick's patches. */
  ghost predicate StoredAndMoving(db: Db, route: Route) {
    && route.orderId in db.docs.routes
    && Key(db.docs.routes[route.orderId]) == Key(route)
    && StateOf(db.docs.routes[route.orderId]) == Moving
  }

  lemma FinishesFromFreeCourier(dist: Metric, db: Db, route: Route, deliveredAt: Instant, now: Instant)
    requires StoredAndMoving(db, route) && db.docs.routes[route.orderId].deliveredAt == Some(deliveredAt)
    ensures var (after, outcome) := RunTick(dist, db, TickFreeCourier(route, deliveredAt), now);
            outcome == OutDelivered && Completed(after, Key(route))
  {
    var (db1, pc1) := TickStep(dist, db, TickFreeCourier(route, deliveredAt), now);
    var (db2, pc2) := TickStep(dist, db1, pc1, now);
    var (db3, pc3) := TickStep(dist, db2, pc2, now);
    assert DeliveredEvent(Key(route), deliveredAt) in db2.events;
    assert RunTick(dist, db2, pc2, now) == RunTick(dist, db3, pc3, now);
    assert RunTick(dist, db1, pc1, now) == RunTick(dist, db2, pc2, now);
  }

  lemma FinishesFromAfterPublish(dist: Metric, db: Db, route: Route, t: Locals, now: Instant)
    requires StoredAndMoving(db, route) && db.docs.routes[route.orderId] == route
    requires route.deliveredAt.Some? || t.progress.deliveredAt.Some?
    ensures var (after, outcome) := RunTick(dist, db, AfterPublish(route, t), now);
            outcome == OutDelivered && Completed(after, Key(route))
  {
    var pc := AfterPublish(route, t);
    var (db1, pc1) := TickStep(dist, db, pc, now);
    var current := db1.docs.routes[route.orderId];
    FinishesFromFreeCourier(dist, db1, current, current.deliveredAt.value, now);
    assert RunTick(dist, db, pc, now) == RunTick(dist, db1, pc1, now);
  }

  lemma FinishesFromAfterPickup(dist: Metric, db: Db, route: Route, t: Locals, now: Instant)
    requires StoredAndMoving(db, route) && db.docs.routes[route.orderId] == route
    requires route.deliveredAt.Some? || t.progress.deliveredAt.Some?
    ensures var (after, outcome) := RunTick(dist, db, AfterPickup(route, t), now);
            outcome == OutDelivered && Completed(after, Key(route))
  {
    var pc := AfterPickup(route, t);
    if pc.TickPublishPickup? {
      var (db1, pc1) := TickStep(dist, db, pc, now);
      FinishesFromFlagPickup(dist, db1, route, t, now);
      assert RunTick(dist, db, pc, now) == RunTick(dist, db1, pc1, now);
    } else if pc.TickFlagPickup? {
      FinishesFromFlagPickup(dist, db, route, t, now);
    } else {
      FinishesFromAfterPublish(dist, db, route, t, now);
    }
  }

  lemma FinishesFromFlagPickup(dist: Metric, db: Db, route: Route, t: Locals, now: Instant)
    requires StoredAndMoving(db, route) && db.docs.routes[route.orderId] == route && route.pickedUpAt.Some?
    requires route.deliveredAt.Some? || t.progress.deliveredAt.Some?
    ensures var (after, outcome) := RunTick(dist, db, TickFlagPickup(route, t), now);
            outcome == OutDelivered && Completed(after, Key(route))
  {
    var pc := TickFlagPickup(route, t);
    var (db1, pc1) := TickStep(dist, db, pc, now);
    FinishesFromAfterPublish(dist, db1, db1.docs.routes[route.orderId], t, now);
    assert RunTick(dist, db, pc, now) == RunTick(dist, db1, pc1, now);
  }

  /** The route's delivery is recorded, or its arrival has passed while this courier carries the order. */
  ghost predicate IsDue(dist: Metric, route: Route, courier: Option<Courier>, rule: Movement, now: Instant) {
    || route.deliveredAt.Some?
    || (CarriesOrder(courier, route.orderId)
        && MilestonesOf(dist, route, rule).arrivalMs <= now - route.createdAt && now >= route.createdAt)
  }

  lemma QuietTickCompletes(dist: Metric, db: Db, route: Route, courier: Option<Courier>, rule: Movement, now: Instant)
    requires StoredAndMoving(db, route) && db.docs.routes[route.orderId] == route
             && IsDue(dist, route, courier, rule, now)
    ensures var (after, outcome) := RunTick(dist, db, TickBegin(route, courier, rule), now);
            outcome == OutDelivered && Completed(after, Key(route))
  {
    ProgressNumbers(dist, route, now, rule);
    ArrivalFollowsPickup(dist, route, rule);
    var progress := ProgressAt(dist, route, now, rule);
    OneCall(dist, db, TickBegin(route, courier, rule), now);
    var begun := Begin(dist, route, courier, rule, now);
    if begun.TickRecordPickup? {
      var (db', pc') := TickStep(dist, db, begun, now);
      FinishesFromAfterPickup(dist, db', db'.docs.routes[route.orderId], begun.t, now);
      OneCall(dist, db, begun, now);
    } else {
      FinishesFromAfterPickup(dist, db, route, Locals(now, progress, OutMoving), now);
    }
  }

  /**
   * Whatever earlier ticks left behind, one tick that nothing interrupts completes a route whose delivery
   * is recorded, or whose arrival has passed while its courier still carries the order.
   */
  lemma OneQuietTickCompletes(dist: Metric, db: Db, orderId: OrderId, rule: Movement, now: Instant)
    requires orderId in db.docs.routes && db.docs.routes[orderId].orderId == orderId
    requires var r := db.docs.routes[orderId];
             StateOf(r) == Moving && IsDue(dist, r, CourierIn(db.couriers, r), rule, now)
    ensures var (after, outcome) := RunTick(dist, db, TickWatch(orderId, rule), now);
            outcome == OutDelivered && Completed(after, Key(db.docs.routes[orderId]))
  {
    var route := db.docs.routes[orderId];
    OneCall(dist, db, TickWatch(orderId, rule), now);
    OneCall(dist, db, TickListed(route, rule), now);
    QuietTickCompletes(dist, db, route, CourierIn(db.couriers, route), rule, now);
  }

  // ---------- the program ----------

  class AdvanceRouteUseCase {
    const dist: Metric
    const routes: RouteStore
    const couriers: CourierStore
    const events: EventLog
    const live: LiveLocationStore

    constructor (dist: Metric, routes: RouteStore, couriers: CourierStore, events: EventLog, live: LiveLocationStore)
      ensures this.dist == dist && this.routes == routes && this.couriers == couriers
      ensures this.events == events && this.live == live
    {
      this.dist, this.routes, this.couriers, this.events, this.live := dist, routes, couriers, events, live;
    }

    ghost function Contents(): Db
      reads routes, couriers, events, live
    {
      Db(routes.Contents(), couriers.couriers, events.events, live.locations)
    }

    /** Without interference the program is exactly the run of its port calls. */
    method Advance(route: Route, courier: Option<Courier>, rule: Movement, now: Instant) returns (outcome: Outcome)
      requires couriers.Valid()
      modifies routes, couriers, events, live
      ensures couriers.Valid()
      ensures (Contents(), outcome) == RunTick(dist, old(Contents()), TickBegin(route, courier, rule), now)
    {
      var progress := ProgressAt(dist, route, now, rule);
      OneCall(dist, Contents(), TickBegin(route, courier, rule), now);
      OneCall(dist, Contents(), Begin(dist, route, courier, rule, now), now);
      if route.deliveredAt.None? && !CarriesOrder(courier, route.orderId) {
        var ended := routes.Update(route, EndPatch(now));
        return if ended.None? then OutStale else OutEnded;
      }
      if progress.pickedUpAt.Some? && route.pickedUpAt.None? {
        var recorded := routes.Update(route, NO_PATCH.(pickedUpAt := progress.pickedUpAt));
        if recorded.None? {
          return OutStale;
        }
        outcome := MoveOn(recorded.value, Locals(now, progress, OutPickedUp));
      } else {
        outcome := MoveOn(route, Locals(now, progress, OutMoving));
      }
    }

    /** From the recorded (or not yet due) pickup on. */
    method MoveOn(route: Route, t: Locals) returns (outcome: Outcome)
      requires couriers.Valid()
      modifies routes, couriers, events, live
      ensures couriers.Valid()
      ensures (Contents(), outcome) == RunTick(dist, old(Contents()), AfterPickup(route, t), t.now)
    {
      var current := Some(route);
      if route.pickedUpAt.Some? && !route.pickupPublished {
        current := PublishPickup(route, t);
      }
      if current.None? {
        return OutStale;
      }
      outcome := Deliver(current.value, t);
    }

    method PublishPickup(route: Route, ghost t: Locals) returns (current: Option<Route>)
      requires couriers.Valid() && route.pickedUpAt.Some? && !route.pickupPublished
      modifies routes, events
      ensures couriers.couriers == old(couriers.couriers) && live.locations == old(live.locations)
      ensures RunTick(dist, old(Contents()), AfterPickup(route, t), t.now)
           == RunTick(dist, Contents(),
                      if current.None? then TickFinished(OutStale) else AfterPublish(current.value, t), t.now)
    {
      if route.marketId.Some? {
        OneCall(dist, Contents(), TickPublishPickup(route, t), t.now);
        events.Publish(PickedUpEvent(Key(route), route.marketId.value, route.pickedUpAt.value));
      }
      OneCall(dist, Contents(), TickFlagPickup(route, t), t.now);
      current := routes.Update(route, FLAG_PICKUP);
    }

    /** From the announced (or not yet due) pickup on. */
    method Deliver(route: Route, t: Locals) returns (outcome: Outcome)
      requires couriers.Valid()
      modifies routes, couriers, events, live
      ensures couriers.Valid()
      ensures (Contents(), outcome) == RunTick(dist, old(Contents()), AfterPublish(route, t), t.now)
    {
      OneCall(dist, Contents(), AfterPublish(route, t), t.now);
      var current := Some(route);
      var recordedNow := false;
      if t.progress.deliveredAt.Some? && route.deliveredAt.None? {
        current := routes.Update(route,
          NO_PATCH.(deliveredAt := Some(DeliveredNoEarlierThan(t.progress.deliveredAt.value, route.pickedUpAt))));
        recordedNow := current.Some?;
      }
      if current.Some? && current.value.deliveredAt.Some? {
        var done := CompleteDelivery(current.value, current.value.deliveredAt.value, !recordedNow, t.now);
        return if done.None? then OutStale else OutDelivered;
      }
      if current.None? {
        return OutStale;
      }
      live.Save(current.value.courierId, LiveLocation(CourierLocation(current.value, t.progress), t.now));
      return t.outcome;
    }

    method CompleteDelivery(route: Route, deliveredAt: Instant, confirm: bool, ghost now: Instant)
      returns (done: Option<Route>)
      requires couriers.Valid()
      modifies routes, couriers, events
      ensures couriers.Valid() && live.locations == old(live.locations)
      ensures (Contents(), if done.None? then OutStale else OutDelivered)
           == RunTick(dist, old(Contents()),
                      if confirm then TickConfirm(route, deliveredAt) else TickFreeCourier(route, deliveredAt), now)
    {
      var confirmed := Some(route);
      if confirm {
        OneCall(dist, Contents(), TickConfirm(route, deliveredAt), now);
        confirmed := routes.Update(route, NO_PATCH.(deliveredAt := Some(deliveredAt)));
      }
      if confirmed.None? {
        return None;
      }
      FreeCourier(confirmed.value, deliveredAt, now);
      done := Announce(confirmed.value, deliveredAt, now);
    }

    method FreeCourier(route: Route, deliveredAt: Instant, ghost now: Instant)
      requires couriers.Valid()
      modifies couriers
      ensures couriers.Valid()
      ensures RunTick(dist, old(Contents()), TickFreeCourier(route, deliveredAt), now)
           == RunTick(dist, Contents(), TickPublishDelivery(route, deliveredAt), now)
    {
      OneCall(dist, Contents(), TickFreeCourier(route, deliveredAt), now);
      var freed := couriers.ReleaseByOrder(route.orderId, deliveredAt, route.courierId, Dropoff(route));
    }

    method Announce(route: Route, deliveredAt: Instant, ghost now: Instant) returns (done: Option<Route>)
      modifies routes, events
      ensures (Contents(), if done.None? then OutStale else OutDelivered)
           == RunTick(dist, old(Contents()), TickPublishDelivery(route, deliveredAt), now)
    {
      OneCall(dist, Contents(), TickPublishDelivery(route, deliveredAt), now);
      events.Publish(DeliveredEvent(Key(route), deliveredAt));
      OneCall(dist, Contents(), TickFlagDone(route, deliveredAt), now);
      done := routes.Update(route, FLAG_DONE);
    }
  }
}
