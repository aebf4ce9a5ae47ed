/** Everything a tick does that nothing interrupts: what it writes, announces, frees and answers, case by case. */
module QuietTicks {
  import opened Common
  import opened Geometry
  import opened Routes
  import opened RouteProgress
  import opened Stores
  import opened AdvanceRoute

  /** The stores with this version of the route. */
  function Put(db: Db, r: Route): Db {
    db.(docs := Docs(db.docs.routes[r.orderId := r], db.docs.archive[Key(r) := r]))
  }

  /** The route is stored, and on its way. */
  predicate InPlace(db: Db, r: Route) {
    && r.orderId in db.docs.routes && db.docs.routes[r.orderId] == r
    && Key(r) in db.docs.archive && db.docs.archive[Key(r)] == r && StateOf(r) == Moving
  }

  /** The pickup as recorded, or as the tick sees it. */
  function PickupSeen(r: Route, p: Progress): Option<Instant> {
    if r.pickedUpAt.Some? then r.pickedUpAt else p.pickedUpAt
  }

  /** The delivery as recorded; else as the tick sees it, but not before the pickup. */
  function DeliverySeen(r: Route, p: Progress): Instant
    requires r.deliveredAt.Some? || p.deliveredAt.Some?
  {
    if r.deliveredAt.Some? then r.deliveredAt.value
    else
      var picked := PickupSeen(r, p);
      if picked.Some? && picked.value > p.deliveredAt.value then picked.value else p.deliveredAt.value
  }

  /** The announcement of a pickup that has none yet. */
  function PickupNews(r: Route, picked: Option<Instant>): seq<RouteEvent> {
    if picked.Some? && !r.pickupPublished && r.marketId.Some?
    then [PickedUpEvent(Key(r), r.marketId.value, picked.value)] else []
  }

  function WithPickup(r: Route, picked: Option<Instant>): Route {
    r.(pickedUpAt := picked, pickupPublished := r.pickupPublished || picked.Some?)
  }

  function Closed(r: Route, delivered: Instant): Route {
    r.(deliveredAt := Some(delivered), deliveryPublished := true, state := Some(Done))
  }

  // ---------- the way there ----------

  lemma PuttingAgain(db: Db, r: Route)
    requires InPlace(db, r)
    ensures Put(db, r) == db
  {
    assert db.docs.routes[r.orderId := r] == db.docs.routes && db.docs.archive[Key(r) := r] == db.docs.archive;
  }

  lemma Updating(db: Db, r: Route, patch: RoutePatch)
    requires InPlace(db, r) && !(patch.state == Some(Ended) && r.deliveredAt.Some?)
    ensures UpdateDocs(db.docs, r, patch) == (Put(db, Patched(r, patch)).docs, Some(Patched(r, patch)))
    ensures patch.state.None? ==> InPlace(Put(db, Patched(r, patch)), Patched(r, patch))
  {
  }

  lemma PuttingTwice(db: Db, a: Route, b: Route)
    requires Key(a) == Key(b)
    ensures Put(Put(db, a), b) == Put(db, b)
  {
    assert db.docs.routes[a.orderId := a][b.orderId := b] == db.docs.routes[b.orderId := b];
    assert db.docs.archive[Key(a) := a][Key(b) := b] == db.docs.archive[Key(b) := b];
  }

  /** From a recorded pickup to the delivery: announced and flagged once. */
  lemma AnnouncesThePickup(dist: Metric, db: Db, r: Route, t: Locals, now: Instant)
    requires InPlace(db, r)
    ensures var after := Put(db, WithPickup(r, r.pickedUpAt)).(events := db.events + PickupNews(r, r.pickedUpAt));
            && InPlace(after, WithPickup(r, r.pickedUpAt))
            && RunTick(dist, db, AfterPickup(r, t), now)
               == RunTick(dist, after, AfterPublish(WithPickup(r, r.pickedUpAt), t), now)
  {
    PuttingAgain(db, r);
    if r.pickedUpAt.Some? && !r.pickupPublished {
      var told := db.(events := db.events + PickupNews(r, r.pickedUpAt));
      assert WithPickup(r, r.pickedUpAt) == Patched(r, FLAG_PICKUP);
      if r.marketId.Some? {
        OneCall(dist, db, TickPublishPickup(r, t), now);
      } else {
        assert told == db;
      }
      Updating(told, r, FLAG_PICKUP);
      OneCall(dist, told, TickFlagPickup(r, t), now);
    } else {
      assert WithPickup(r, r.pickedUpAt) == r && db.events + [] == db.events;
    }
  }

  /** The first call of a tick whose courier carries the order, or whose delivery is recorded. */
  lemma Begins(dist: Metric, db: Db, r: Route, courier: Option<Courier>, rule: Movement, now: Instant)
    returns (outcome: Outcome)
    requires InPlace(db, r) && (r.deliveredAt.Some? || CarriesOrder(courier, r.orderId))
    ensures var p := ProgressAt(dist, r, now, rule);
            var seen := r.(pickedUpAt := PickupSeen(r, p));
            && outcome == (if r.pickedUpAt.None? && p.pickedUpAt.Some? then OutPickedUp else OutMoving)
            && InPlace(Put(db, seen), seen)
            && RunTick(dist, db, TickBegin(r, courier, rule), now)
               == RunTick(dist, Put(db, seen), AfterPickup(seen, Locals(now, p, outcome)), now)
  {
    var p := ProgressAt(dist, r, now, rule);
    OneCall(dist, db, TickBegin(r, courier, rule), now);
    if r.pickedUpAt.None? && p.pickedUpAt.Some? {
      outcome := OutPickedUp;
      var t := Locals(now, p, outcome);
      Updating(db, r, PickupPatch(t));
      assert Patched(r, PickupPatch(t)) == r.(pickedUpAt := p.pickedUpAt);
      OneCall(dist, db, TickRecordPickup(r, t), now);
    } else {
      outcome := OutMoving;
      assert r.(pickedUpAt := PickupSeen(r, p)) == r;
      PuttingAgain(db, r);
    }
  }

  /** Up to the announced pickup. */
  lemma ReachesThePickup(dist: Metric, db: Db, r: Route, courier: Option<Courier>, rule: Movement, now: Instant)
    returns (outcome: Outcome)
    requires InPlace(db, r) && (r.deliveredAt.Some? || CarriesOrder(courier, r.orderId))
    ensures var p := ProgressAt(dist, r, now, rule);
            var picked := PickupSeen(r, p);
            var after := Put(db, WithPickup(r, picked)).(events := db.events + PickupNews(r, picked));
            && outcome == (if r.pickedUpAt.None? && p.pickedUpAt.Some? then OutPickedUp else OutMoving)
            && InPlace(after, WithPickup(r, picked))
            && RunTick(dist, db, TickBegin(r, courier, rule), now)
               == RunTick(dist, after, AfterPublish(WithPickup(r, picked), Locals(now, p, outcome)), now)
  {
    var p := ProgressAt(dist, r, now, rule);
    var seen := r.(pickedUpAt := PickupSeen(r, p));
    outcome := Begins(dist, db, r, courier, rule, now);
    AnnouncesThePickup(dist, Put(db, seen), seen, Locals(now, p, outcome), now);
    PuttingTwice(db, seen, WithPickup(r, seen.pickedUpAt));
    assert PickupNews(seen, seen.pickedUpAt) == PickupNews(r, seen.pickedUpAt);
  }

  // ---------- what a tick does ----------

  /**
   * Before the arrival a tick records and announces a pickup that is due, and saves where the courier is; nothing
   * else changes.
   */
  lemma QuietTickOnTheWay(dist: Metric, db: Db, r: Route, courier: Option<Courier>, rule: Movement, now: Instant)
    requires InPlace(db, r) && CarriesOrder(courier, r.orderId) && r.deliveredAt.None?
    requires ProgressAt(dist, r, now, rule).phase != Delivered
    ensures var picked := PickupSeen(r, ProgressAt(dist, r, now, rule));
            RunTick(dist, db, TickBegin(r, courier, rule), now)
            == (Put(db, WithPickup(r, picked)).(
                  events := db.events + PickupNews(r, picked),
                  live := db.live[r.courierId := LiveLocation(PositionAt(dist, r, now, rule), now)]),
                if r.pickedUpAt.None? && picked.Some? then OutPickedUp else OutMoving)
  {
    var p := ProgressAt(dist, r, now, rule);
    var current := WithPickup(r, PickupSeen(r, p));
    ProgressNumbers(dist, r, now, rule);
    var outcome := ReachesThePickup(dist, db, r, courier, rule, now);
    var reached := Put(db, current).(events := db.events + PickupNews(r, PickupSeen(r, p)));
    var last := TickSaveLive(current, Locals(now, p, outcome));
    OneCall(dist, reached, last, now);
    OneCall(dist, TickStep(dist, reached, last, now).0, TickFinished(outcome), now);
    assert CourierLocation(current, p) == PositionAt(dist, r, now, rule);
  }

  /** The delivery announced, the courier free at the address at that moment, and the route closed. */
  function Ending(db: Db, r: Route, delivered: Instant): Db {
    Put(db, Closed(r, delivered)).(
      events := db.events + [DeliveredEvent(Key(r), delivered)],
      couriers := ReleaseCouriers(db.couriers, r.orderId, delivered, r.courierId, Some(r.points[|r.points| - 1])).0)
  }

  lemma DeliveryEnds(dist: Metric, db: Db, r: Route, delivered: Instant, now: Instant)
    requires InPlace(db, r) && r.deliveredAt == Some(delivered)
    ensures RunTick(dist, db, TickFreeCourier(r, delivered), now)
         == (Ending(db, r, delivered), OutDelivered)
  {
    var freed := db.(couriers := ReleaseCouriers(db.couriers, r.orderId, delivered, r.courierId, Dropoff(r)).0);
    var told := freed.(events := db.events + [DeliveredEvent(Key(r), delivered)]);
    OneCall(dist, db, TickFreeCourier(r, delivered), now);
    OneCall(dist, freed, TickPublishDelivery(r, delivered), now);
    OneCall(dist, told, TickFlagDone(r, delivered), now);
    Updating(told, r, FLAG_DONE);
    assert Patched(r, FLAG_DONE) == Closed(r, delivered);
    OneCall(dist, Put(told, Closed(r, delivered)), TickFinished(OutDelivered), now);
  }

  /** From the announced pickup on, with a delivery recorded or seen. */
  lemma Delivers(dist: Metric, db: Db, r: Route, t: Locals, now: Instant)
    requires InPlace(db, r) && (r.deliveredAt.Some? || t.progress.deliveredAt.Some?)
    requires r.pickedUpAt.Some? || t.progress.pickedUpAt.None?
    ensures var delivered := DeliverySeen(r, t.progress);
            RunTick(dist, db, AfterPublish(r, t), now)
            == (Ending(db, r, delivered), OutDelivered)
  {
    var delivered := DeliverySeen(r, t.progress);
    var patch := NO_PATCH.(deliveredAt := Some(delivered));
    var recorded := r.(deliveredAt := Some(delivered));
    Updating(db, r, patch);
    assert Patched(r, patch) == recorded;
    OneCall(dist, db, AfterPublish(r, t), now);
    DeliveryEnds(dist, Put(db, recorded), recorded, delivered, now);
    SameEnding(db, r, recorded, delivered);
  }

  /** The ending of a route whose delivery was recorded on the way. */
  lemma SameEnding(db: Db, r: Route, recorded: Route, delivered: Instant)
    requires recorded == r.(deliveredAt := Some(delivered))
    ensures Ending(Put(db, recorded), recorded, delivered) == Ending(db, r, delivered)
  {
    PuttingTwice(db, recorded, Closed(r, delivered));
  }

  /**
   * A recorded delivery, or one that is due while the courier carries the order: the tick announces what was not
   * announced, frees the courier at the address at that moment, and closes the route.
   */
  lemma QuietTickDelivers(dist: Metric, db: Db, r: Route, courier: Option<Courier>, rule: Movement, now: Instant)
    requires InPlace(db, r)
    requires var p := ProgressAt(dist, r, now, rule);
             r.deliveredAt.Some? || (CarriesOrder(courier, r.orderId) && p.deliveredAt.Some?)
    ensures var p := ProgressAt(dist, r, now, rule);
            RunTick(dist, db, TickBegin(r, courier, rule), now)
            == (Ending(db.(events := db.events + PickupNews(r, PickupSeen(r, p))), WithPickup(r, PickupSeen(r, p)),
                       DeliverySeen(r, p)),
                OutDelivered)
  {
    var p := ProgressAt(dist, r, now, rule);
    var picked := PickupSeen(r, p);
    var current := WithPickup(r, picked);
    var outcome := ReachesThePickup(dist, db, r, courier, rule, now);
    var reached := Put(db, current).(events := db.events + PickupNews(r, picked));
    Delivers(dist, reached, current, Locals(now, p, outcome), now);
    PuttingTwice(db, current, Closed(current, DeliverySeen(r, p)));
    assert DeliverySeen(current, p) == DeliverySeen(r, p);
  }

  /** Without a delivery, and with a courier that no longer carries the order, the tick ends the route now. */
  lemma QuietTickAbandons(dist: Metric, db: Db, r: Route, courier: Option<Courier>, rule: Movement, now: Instant)
    requires InPlace(db, r) && !CarriesOrder(courier, r.orderId) && r.deliveredAt.None?
    ensures RunTick(dist, db, TickBegin(r, courier, rule), now)
         == (Put(db, r.(state := Some(Ended), endedAt := Some(now))), OutEnded)
  {
    OneCall(dist, db, TickBegin(r, courier, rule), now);
    OneCall(dist, db, TickEnd(r, now), now);
    Updating(db, r, EndPatch(now));
    assert Patched(r, EndPatch(now)) == r.(state := Some(Ended), endedAt := Some(now));
    OneCall(dist, Put(db, Patched(r, EndPatch(now))), TickFinished(OutEnded), now);
  }

  // ---------- what a tick leaves alone ----------

  /** Without a route on its way, a tick answers so and changes nothing. */
  lemma OnlyMovingRoutesAreTicked(dist: Metric, db: Db, orderId: OrderId, rule: Movement, now: Instant)
    requires orderId in db.docs.routes ==>
               db.docs.routes[orderId].state.Some? && db.docs.routes[orderId].state.value != Moving
    ensures RunTick(dist, db, TickWatch(orderId, rule), now) == (db, OutStale)
  {
    OneCall(dist, db, TickWatch(orderId, rule), now);
    OneCall(dist, db, TickFinished(OutStale), now);
  }

  predicate Writes(pc: TickPc) {
    pc.TickEnd? || pc.TickRecordPickup? || pc.TickFlagPickup? || pc.TickRecordDelivery? || pc.TickConfirm?
      || pc.TickFlagDone?
  }

  /** The stored route is another one than the copy in hand, or no longer on its way. */
  predicate HasMovedOn(db: Db, r: Route) {
    r.orderId in db.docs.routes ==>
      var stored := db.docs.routes[r.orderId];
      || stored.courierId != r.courierId || stored.createdAt != r.createdAt
      || (stored.state.Some? && stored.state.value != Moving)
  }

  /** A tick whose route has moved on stops at its next write, and changes nothing. */
  lemma StaleTicksStop(dist: Metric, db: Db, pc: TickPc, now: Instant)
    requires Sensible(pc) && Writes(pc) && HasMovedOn(db, pc.route)
    ensures RunTick(dist, db, pc, now) == (db, OutStale)
  {
    OneCall(dist, db, pc, now);
    OneCall(dist, db, TickFinished(OutStale), now);
  }
}
