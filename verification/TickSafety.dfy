/** Every port call of a tick keeps the store sound, however stale the copies it works from. */
module TickSafety {
  import opened Common
  import opened Geometry
  import opened Routes
  import opened RouteProgress
  import opened Stores
  import opened RouteInvariant
  import opened AdvanceRoute

  ghost predicate LocalsOk(dist: Metric, route: Route, t: Locals) {
    && (t.progress.deliveredAt.Some? ==>
          t.progress.pickedUpAt.Some? && t.progress.pickedUpAt.value <= t.progress.deliveredAt.value)
    && (route.movement.Some? && t.progress.pickedUpAt.Some? ==>
         t.progress.pickedUpAt.value == PlannedPickup(dist, route))
  }

  /** What a tick knows where it stands; every clause stays true while others work. */
  ghost predicate TickOk(dist: Metric, docs: Docs, events: seq<RouteEvent>, pc: TickPc) {
    match pc
    case TickWatch(_, _) => true
    case TickListed(route, _) => IsCopy(dist, docs, events, route)
    case TickBegin(route, _, _) => IsCopy(dist, docs, events, route)
    case TickEnd(route, _) => IsCopy(dist, docs, events, route)
    case TickRecordPickup(route, t) => IsCopy(dist, docs, events, route) && LocalsOk(dist, route, t)
    case TickPublishPickup(route, t) => IsCopy(dist, docs, events, route) && LocalsOk(dist, route, t)
    case TickFlagPickup(route, t) =>
      && IsCopy(dist, docs, events, route) && LocalsOk(dist, route, t)
      && (route.marketId.Some? ==> PickupAnnounced(events, Key(route), route.marketId.value))
    case TickRecordDelivery(route, t) =>
      IsCopy(dist, docs, events, route) && LocalsOk(dist, route, t) && route.pickupPublished
    case TickConfirm(route, deliveredAt) => IsCopy(dist, docs, events, route) && route.deliveredAt == Some(deliveredAt)
    case TickFreeCourier(route, deliveredAt) =>
      IsCopy(dist, docs, events, route) && route.deliveredAt == Some(deliveredAt)
    case TickPublishDelivery(route, deliveredAt) =>
      IsCopy(dist, docs, events, route) && route.deliveredAt == Some(deliveredAt)
    case TickFlagDone(route, deliveredAt) =>
      && IsCopy(dist, docs, events, route) && route.deliveredAt == Some(deliveredAt)
      && DeliveryAnnounced(events, Key(route))
    case TickSaveLive(route, _) => IsCopy(dist, docs, events, route)
    case TickFinished(_) => true
  }

  lemma TickOkSurvives(dist: Metric, docs: Docs, events: seq<RouteEvent>, docs': Docs, events': seq<RouteEvent>,
                       pc: TickPc)
    requires TickOk(dist, docs, events, pc) && Grows(docs, docs') && Extends(events, events')
    ensures TickOk(dist, docs', events', pc)
  {
    if !pc.TickWatch? && !pc.TickFinished? {
      CopySurvives(dist, docs, events, docs', events', pc.route);
    }
    if pc.TickFlagPickup? && pc.route.marketId.Some? {
      var at :| PickedUpEvent(Key(pc.route), pc.route.marketId.value, at) in events;
      assert PickedUpEvent(Key(pc.route), pc.route.marketId.value, at) in events';
    }
    if pc.TickFlagDone? {
      var at :| DeliveredEvent(Key(pc.route), at) in events;
      assert DeliveredEvent(Key(pc.route), at) in events';
    }
  }

  // ---------- the decisions ----------

  lemma AfterPublishIsOk(dist: Metric, docs: Docs, events: seq<RouteEvent>, current: Route, t: Locals)
    requires IsCopy(dist, docs, events, current) && LocalsOk(dist, current, t)
    requires t.progress.deliveredAt.Some? && current.deliveredAt.None? ==> current.pickupPublished
    ensures TickOk(dist, docs, events, AfterPublish(current, t))
  {
  }

  lemma AfterPickupIsOk(dist: Metric, docs: Docs, events: seq<RouteEvent>, current: Route, t: Locals)
    requires IsCopy(dist, docs, events, current) && LocalsOk(dist, current, t)
    requires t.progress.pickedUpAt.Some? ==> current.pickedUpAt.Some?
    ensures TickOk(dist, docs, events, AfterPickup(current, t))
  {
    if !(current.pickedUpAt.Some? && !current.pickupPublished) {
      AfterPublishIsOk(dist, docs, events, current, t);
    }
  }

  lemma BeginIsOk(dist: Metric, docs: Docs, events: seq<RouteEvent>,
                  route: Route, courier: Option<Courier>, rule: Movement, now: Instant)
    requires IsCopy(dist, docs, events, route)
    ensures TickOk(dist, docs, events, Begin(dist, route, courier, rule, now))
  {
    var progress := ProgressAt(dist, route, now, rule);
    ProgressFitsRoute(dist, route, now, rule);
    if route.pickedUpAt.None? && route.movement.Some? {
      PickupIsAsPlanned(dist, route, rule);
    }
    assert LocalsOk(dist, route, Locals(now, progress, OutMoving));
    if !(route.deliveredAt.None? && !CarriesOrder(courier, route.orderId))
       && !(progress.pickedUpAt.Some? && route.pickedUpAt.None?) {
      AfterPickupIsOk(dist, docs, events, route, Locals(now, progress, OutMoving));
    }
  }

  // ---------- the port calls ----------

  /** A tick's call keeps the documents and the log sound, loses nothing, and leaves the tick knowing what it needs. */
  ghost predicate KeepsDb(dist: Metric, db: Db, db': Db) {
    && DocsOk(dist, db'.docs, db'.events) && EventsOk(db'.docs, db'.events)
    && Grows(db.docs, db'.docs) && Extends(db.events, db'.events)
  }

  ghost predicate DbOk(dist: Metric, db: Db) {
    DocsOk(dist, db.docs, db.events) && EventsOk(db.docs, db.events)
  }

  ghost predicate StepKeeps(dist: Metric, db: Db, pc: TickPc, now: Instant)
    requires Sensible(pc)
  {
    var (db', pc') := TickStep(dist, db, pc, now);
    KeepsDb(dist, db, db') && TickOk(dist, db'.docs, db'.events, pc')
  }

  lemma StepIsKept(dist: Metric, db: Db, pc: TickPc, now: Instant, db': Db, pc': TickPc)
    requires Sensible(pc) && TickStep(dist, db, pc, now) == (db', pc')
    requires KeepsDb(dist, db, db') && TickOk(dist, db'.docs, db'.events, pc')
    ensures StepKeeps(dist, db, pc, now)
  {
  }

  /** A patch by a tick keeps the store when the patched document is sound. */
  lemma TickPatchKeeps(dist: Metric, db: Db, route: Route, patch: RoutePatch)
    requires DbOk(dist, db) && IsCopy(dist, db.docs, db.events, route)
    requires forall stored: Route ::
               (Sound(dist, db.events, stored) && Older(route, stored) && Key(stored) == Key(route)
                && Accepts(stored, route, patch)) ==> Sound(dist, db.events, Patched(stored, patch))
    ensures var (docs, updated) := UpdateDocs(db.docs, route, patch);
            && KeepsDb(dist, db, db.(docs := docs))
            && (updated.Some? ==>
                  && IsCopy(dist, docs, db.events, updated.value)
                  && exists stored: Route :: Sound(dist, db.events, stored) && Older(route, stored)
                                             && updated.value == Patched(stored, patch) && StateOf(stored) == Moving)
  {
    if route.orderId in db.docs.routes && Accepts(db.docs.routes[route.orderId], route, patch) {
      var stored := db.docs.routes[route.orderId];
      assert Key(stored) == Key(route);
      assert Sound(dist, db.events, Patched(stored, patch));
    }
    UpdateKeepsDocsOk(dist, db.docs, db.events, route, patch);
    EventsOkSurvives(db.docs, UpdateDocs(db.docs, route, patch).0, db.events);
  }

  lemma EndPatchKeeps(dist: Metric, db: Db, route: Route, at: Instant)
    requires DbOk(dist, db) && IsCopy(dist, db.docs, db.events, route)
    ensures KeepsDb(dist, db, db.(docs := UpdateDocs(db.docs, route, EndPatch(at)).0))
    ensures var (docs, updated) := UpdateDocs(db.docs, route, EndPatch(at));
            updated.Some? ==> IsCopy(dist, docs, db.events, updated.value) && StateOf(updated.value) == Ended
  {
    forall stored: Route | Sound(dist, db.events, stored) && Older(route, stored) && Key(stored) == Key(route)
                           && Accepts(stored, route, EndPatch(at))
      ensures Sound(dist, db.events, Patched(stored, EndPatch(at)))
    {
      EndedStaysSound(dist, db.events, stored, at);
    }
    TickPatchKeeps(dist, db, route, EndPatch(at));
  }

  lemma EndedStaysSound(dist: Metric, events: seq<RouteEvent>, stored: Route, at: Instant)
    requires Sound(dist, events, stored) && StateOf(stored) == Moving && stored.deliveredAt.None?
    ensures Sound(dist, events, Patched(stored, EndPatch(at)))
  {
  }

  lemma PickupStaysSound(dist: Metric, events: seq<RouteEvent>, route: Route, t: Locals, stored: Route)
    requires Sound(dist, events, stored) && Older(route, stored) && StateOf(stored) == Moving
    requires LocalsOk(dist, route, t) && t.progress.pickedUpAt.Some?
    ensures Sound(dist, events, Patched(stored, PickupPatch(t)))
  {
  }

  lemma PickupPatchKeeps(dist: Metric, db: Db, route: Route, t: Locals)
    requires DbOk(dist, db) && IsCopy(dist, db.docs, db.events, route) && LocalsOk(dist, route, t)
             && t.progress.pickedUpAt.Some?
    ensures var (docs, updated) := UpdateDocs(db.docs, route, PickupPatch(t));
            && KeepsDb(dist, db, db.(docs := docs))
            && (updated.Some? ==>
                  && IsCopy(dist, docs, db.events, updated.value)
                  && SamePlan(updated.value, route) && updated.value.pickedUpAt.Some?)
  {
    forall stored: Route | Sound(dist, db.events, stored) && Older(route, stored) && Key(stored) == Key(route)
                           && Accepts(stored, route, PickupPatch(t))
      ensures Sound(dist, db.events, Patched(stored, PickupPatch(t)))
    {
      PickupStaysSound(dist, db.events, route, t, stored);
    }
    TickPatchKeeps(dist, db, route, PickupPatch(t));
  }

  lemma DeliveryStaysSound(dist: Metric, events: seq<RouteEvent>, route: Route, t: Locals, stored: Route)
    requires Sound(dist, events, stored) && Older(route, stored) && StateOf(stored) == Moving
    requires Sound(dist, events, route) && route.pickupPublished && t.progress.deliveredAt.Some?
    requires LocalsOk(dist, route, t)
    ensures Sound(dist, events, Patched(stored, DeliveryPatch(route, t)))
  {
  }

  lemma ConfirmStaysSound(dist: Metric, events: seq<RouteEvent>, route: Route, deliveredAt: Instant, stored: Route)
    requires Sound(dist, events, stored) && Older(route, stored) && StateOf(stored) == Moving
    requires Sound(dist, events, route) && route.deliveredAt == Some(deliveredAt)
    ensures Sound(dist, events, Patched(stored, NO_PATCH.(deliveredAt := Some(deliveredAt))))
  {
  }

  lemma RecordPickupKeeps(dist: Metric, db: Db, route: Route, t: Locals, now: Instant)
    requires DbOk(dist, db) && TickOk(dist, db.docs, db.events, TickRecordPickup(route, t))
    requires t.progress.pickedUpAt.Some?
    ensures StepKeeps(dist, db, TickRecordPickup(route, t), now)
  {
    PickupPatchKeeps(dist, db, route, t);
    var (docs, current) := UpdateDocs(db.docs, route, PickupPatch(t));
    if current.Some? {
      AfterPickupIsOk(dist, docs, db.events, current.value, t);
    }
    StepIsKept(dist, db, TickRecordPickup(route, t), now, db.(docs := docs),
      if current.None? then TickFinished(OutStale) else AfterPickup(current.value, t));
  }

  lemma FlagPickupKeeps(dist: Metric, db: Db, route: Route, t: Locals, now: Instant)
    requires DbOk(dist, db) && TickOk(dist, db.docs, db.events, TickFlagPickup(route, t)) && route.pickedUpAt.Some?
    ensures StepKeeps(dist, db, TickFlagPickup(route, t), now)
  {
    FlagPatchKeeps(dist, db, route);
    var (docs, current) := UpdateDocs(db.docs, route, FLAG_PICKUP);
    if current.Some? {
      AfterPublishIsOk(dist, docs, db.events, current.value, t);
    }
    StepIsKept(dist, db, TickFlagPickup(route, t), now, db.(docs := docs),
      if current.None? then TickFinished(OutStale) else AfterPublish(current.value, t));
  }

  lemma FlagPatchKeeps(dist: Metric, db: Db, route: Route)
    requires DbOk(dist, db) && IsCopy(dist, db.docs, db.events, route) && route.pickedUpAt.Some?
    requires route.marketId.Some? ==> PickupAnnounced(db.events, Key(route), route.marketId.value)
    ensures var (docs, updated) := UpdateDocs(db.docs, route, FLAG_PICKUP);
            && KeepsDb(dist, db, db.(docs := docs))
            && (updated.Some? ==> IsCopy(dist, docs, db.events, updated.value) && updated.value.pickupPublished
                                  && SamePlan(updated.value, route))
  {
    TickPatchKeeps(dist, db, route, FLAG_PICKUP);
  }

  lemma DeliveryPatchKeeps(dist: Metric, db: Db, route: Route, t: Locals)
    requires DbOk(dist, db) && IsCopy(dist, db.docs, db.events, route) && LocalsOk(dist, route, t)
    requires route.pickupPublished && t.progress.deliveredAt.Some?
    ensures var (docs, updated) := UpdateDocs(db.docs, route, DeliveryPatch(route, t));
            && KeepsDb(dist, db, db.(docs := docs))
            && (updated.Some? ==> IsCopy(dist, docs, db.events, updated.value) && updated.value.deliveredAt.Some?)
  {
    forall stored: Route | Sound(dist, db.events, stored) && Older(route, stored) && Key(stored) == Key(route)
                           && Accepts(stored, route, DeliveryPatch(route, t))
      ensures Sound(dist, db.events, Patched(stored, DeliveryPatch(route, t)))
    {
      DeliveryStaysSound(dist, db.events, route, t, stored);
    }
    TickPatchKeeps(dist, db, route, DeliveryPatch(route, t));
  }

  lemma RecordDeliveryKeeps(dist: Metric, db: Db, route: Route, t: Locals, now: Instant)
    requires DbOk(dist, db) && TickOk(dist, db.docs, db.events, TickRecordDelivery(route, t))
    requires t.progress.deliveredAt.Some?
    ensures StepKeeps(dist, db, TickRecordDelivery(route, t), now)
  {
    DeliveryPatchKeeps(dist, db, route, t);
    var (docs, current) := UpdateDocs(db.docs, route, DeliveryPatch(route, t));
    StepIsKept(dist, db, TickRecordDelivery(route, t), now, db.(docs := docs),
      if current.None? then TickFinished(OutStale)
      else TickFreeCourier(current.value, current.value.deliveredAt.value));
  }

  lemma PublishKeeps(dist: Metric, db: Db, event: RouteEvent)
    requires DbOk(dist, db) && event.key in db.docs.archive
    requires event.PickedUpEvent? ==> db.docs.archive[event.key].pickedUpAt.Some?
    requires event.DeliveredEvent? ==> db.docs.archive[event.key].deliveredAt.Some?
    ensures KeepsDb(dist, db, db.(events := db.events + [event]))
  {
    DocsOkSurvives(dist, db.docs, db.events, db.events + [event]);
  }

  lemma EndKeeps(dist: Metric, db: Db, route: Route, at: Instant, now: Instant)
    requires DbOk(dist, db) && IsCopy(dist, db.docs, db.events, route)
    ensures StepKeeps(dist, db, TickEnd(route, at), now)
  {
    EndPatchKeeps(dist, db, route, at);
    var (docs, ended) := UpdateDocs(db.docs, route, EndPatch(at));
    StepIsKept(dist, db, TickEnd(route, at), now, db.(docs := docs),
      TickFinished(if ended.None? then OutStale else OutEnded));
  }

  lemma PublishPickupKeeps(dist: Metric, db: Db, route: Route, t: Locals, now: Instant)
    requires DbOk(dist, db) && TickOk(dist, db.docs, db.events, TickPublishPickup(route, t))
    requires route.pickedUpAt.Some? && route.marketId.Some?
    ensures StepKeeps(dist, db, TickPublishPickup(route, t), now)
  {
    var event := PickupEvent(route, t);
    PublishKeeps(dist, db, event);
    CopySurvives(dist, db.docs, db.events, db.docs, db.events + [event], route);
    assert PickedUpEvent(Key(route), route.marketId.value, route.pickedUpAt.value) in db.events + [event];
  }

  lemma ConfirmPatchKeeps(dist: Metric, db: Db, route: Route, deliveredAt: Instant)
    requires DbOk(dist, db) && IsCopy(dist, db.docs, db.events, route) && route.deliveredAt == Some(deliveredAt)
    ensures var (docs, updated) := UpdateDocs(db.docs, route, NO_PATCH.(deliveredAt := Some(deliveredAt)));
            && KeepsDb(dist, db, db.(docs := docs))
            && (updated.Some? ==>
                  IsCopy(dist, docs, db.events, updated.value) && updated.value.deliveredAt == Some(deliveredAt))
  {
    var patch := NO_PATCH.(deliveredAt := Some(deliveredAt));
    forall stored: Route | Sound(dist, db.events, stored) && Older(route, stored) && Key(stored) == Key(route)
                           && Accepts(stored, route, patch)
      ensures Sound(dist, db.events, Patched(stored, patch))
    {
      ConfirmStaysSound(dist, db.events, route, deliveredAt, stored);
    }
    TickPatchKeeps(dist, db, route, patch);
  }

  lemma ConfirmKeeps(dist: Metric, db: Db, route: Route, deliveredAt: Instant, now: Instant)
    requires DbOk(dist, db) && TickOk(dist, db.docs, db.events, TickConfirm(route, deliveredAt))
    ensures StepKeeps(dist, db, TickConfirm(route, deliveredAt), now)
  {
    ConfirmPatchKeeps(dist, db, route, deliveredAt);
    var (docs, confirmed) := UpdateDocs(db.docs, route, NO_PATCH.(deliveredAt := Some(deliveredAt)));
    StepIsKept(dist, db, TickConfirm(route, deliveredAt), now, db.(docs := docs),
      if confirmed.None? then TickFinished(OutStale) else TickFreeCourier(confirmed.value, deliveredAt));
  }

  lemma PublishDeliveryKeeps(dist: Metric, db: Db, route: Route, deliveredAt: Instant, now: Instant)
    requires DbOk(dist, db) && TickOk(dist, db.docs, db.events, TickPublishDelivery(route, deliveredAt))
    ensures StepKeeps(dist, db, TickPublishDelivery(route, deliveredAt), now)
  {
    var event := DeliveredEvent(Key(route), deliveredAt);
    PublishKeeps(dist, db, event);
    CopySurvives(dist, db.docs, db.events, db.docs, db.events + [event], route);
    assert DeliveredEvent(Key(route), deliveredAt) in db.events + [event];
  }

  lemma FlagDoneKeeps(dist: Metric, db: Db, route: Route, deliveredAt: Instant, now: Instant)
    requires DbOk(dist, db) && TickOk(dist, db.docs, db.events, TickFlagDone(route, deliveredAt))
    ensures StepKeeps(dist, db, TickFlagDone(route, deliveredAt), now)
  {
    TickPatchKeeps(dist, db, route, FLAG_DONE);
  }

  /** The calls that touch neither the routes nor the log. */
  lemma OtherCallsKeep(dist: Metric, db: Db, pc: TickPc, now: Instant)
    requires DbOk(dist, db) && TickOk(dist, db.docs, db.events, pc)
    requires pc.TickWatch? || pc.TickListed? || pc.TickFreeCourier? || pc.TickSaveLive? || pc.TickFinished?
    ensures StepKeeps(dist, db, pc, now)
  {
    var db' := TickStep(dist, db, pc, now).0;
    assert db'.docs == db.docs && db'.events == db.events;
  }

  lemma BeginKeeps(dist: Metric, db: Db, route: Route, courier: Option<Courier>, rule: Movement, now: Instant)
    requires DbOk(dist, db) && IsCopy(dist, db.docs, db.events, route)
    ensures StepKeeps(dist, db, TickBegin(route, courier, rule), now)
  {
    BeginIsOk(dist, db.docs, db.events, route, courier, rule, now);
    StepIsKept(dist, db, TickBegin(route, courier, rule), now, db, Begin(dist, route, courier, rule, now));
  }

  lemma TickStepKeeps(dist: Metric, db: Db, pc: TickPc, now: Instant)
    requires DbOk(dist, db) && Sensible(pc) && TickOk(dist, db.docs, db.events, pc)
    ensures StepKeeps(dist, db, pc, now)
  {
    match pc
    case TickBegin(route, courier, rule) => BeginKeeps(dist, db, route, courier, rule, now);
    case TickEnd(route, at) => EndKeeps(dist, db, route, at, now);
    case TickRecordPickup(route, t) => RecordPickupKeeps(dist, db, route, t, now);
    case TickPublishPickup(route, t) => PublishPickupKeeps(dist, db, route, t, now);
    case TickFlagPickup(route, t) => FlagPickupKeeps(dist, db, route, t, now);
    case TickRecordDelivery(route, t) => RecordDeliveryKeeps(dist, db, route, t, now);
    case TickConfirm(route, deliveredAt) => ConfirmKeeps(dist, db, route, deliveredAt, now);
    case TickPublishDelivery(route, deliveredAt) => PublishDeliveryKeeps(dist, db, route, deliveredAt, now);
    case TickFlagDone(route, deliveredAt) => FlagDoneKeeps(dist, db, route, deliveredAt, now);
    case _ => OtherCallsKeep(dist, db, pc, now);
  }
}
