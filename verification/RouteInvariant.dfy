/** What is true of every stored version of a route, and what a stale copy of it still guarantees. */
module RouteInvariant {
  import opened Common
  import opened Geometry
  import opened Routes
  import opened RouteProgress
  import opened Stores

  /** The pickup instant the route's own movement rule fixes when the route is planned. */
  function PlannedPickup(dist: Metric, route: Route): Instant
    requires route.movement.Some?
  {
    PickupInstant(dist, PlanOf(route), route.movement.value)
  }

  ghost predicate PickupAnnounced(events: seq<RouteEvent>, key: RouteKey, marketId: MarketId) {
    exists at :: PickedUpEvent(key, marketId, at) in events
  }

  ghost predicate DeliveryAnnounced(events: seq<RouteEvent>, key: RouteKey) {
    exists at :: DeliveredEvent(key, at) in events
  }

  /**
   * Milestones are recorded in order, each published flag has its event in the log, and the two ends
   * of a route exclude each other.
   */
  ghost predicate Sound(dist: Metric, events: seq<RouteEvent>, r: Route) {
    && (r.movement.Some? && r.pickedUpAt.Some? ==> r.pickedUpAt.value == PlannedPickup(dist, r))
    && (r.pickupPublished ==> r.pickedUpAt.Some?)
    && (r.pickupPublished && r.marketId.Some? ==> PickupAnnounced(events, Key(r), r.marketId.value))
    && (r.deliveredAt.Some? ==> r.pickedUpAt.Some? && r.pickupPublished)
    && (r.deliveredAt.Some? && r.movement.Some? ==> r.pickedUpAt.value <= r.deliveredAt.value)
    && (r.deliveryPublished ==> r.deliveredAt.Some? && DeliveryAnnounced(events, Key(r)))
    && (StateOf(r) == Done <==> r.deliveryPublished)
    && (StateOf(r) == Ended ==> r.deliveredAt.None?)
    && (r.endedAt.Some? ==> StateOf(r) == Ended)
  }

  /** `r` is a past version of `latest`: same plan, and no milestone that `latest` lacks. */
  ghost predicate Older(r: Route, latest: Route) {
    && SamePlan(r, latest)
    && (r.pickedUpAt.Some? ==> latest.pickedUpAt.Some?)
    && (r.pickupPublished ==> latest.pickupPublished)
    && (r.deliveredAt.Some? ==> latest.deliveredAt.Some?)
    && (r.deliveryPublished ==> latest.deliveryPublished)
    && (StateOf(r) != Moving ==> StateOf(latest) == StateOf(r))
  }

  /** Each current route is the latest version of its identity, and every latest version is sound. */
  ghost predicate DocsOk(dist: Metric, docs: Docs, events: seq<RouteEvent>) {
    && (forall o :: o in docs.routes ==>
          docs.routes[o].orderId == o && Key(docs.routes[o]) in docs.archive
            && docs.archive[Key(docs.routes[o])] == docs.routes[o])
    && (forall k :: k in docs.archive ==>
          Key(docs.archive[k]) == k && k.orderId in docs.routes && Sound(dist, events, docs.archive[k]))
  }

  /** A copy some worker holds: a sound past version of a stored identity. */
  ghost predicate IsCopy(dist: Metric, docs: Docs, events: seq<RouteEvent>, r: Route) {
    Key(r) in docs.archive && Older(r, docs.archive[Key(r)]) && Sound(dist, events, r)
  }

  /** Events are announced only for milestones that are recorded. */
  ghost predicate EventsOk(docs: Docs, events: seq<RouteEvent>) {
    forall e :: e in events ==>
      && e.key in docs.archive
      && (e.PickedUpEvent? ==> docs.archive[e.key].pickedUpAt.Some?)
      && (e.DeliveredEvent? ==> docs.archive[e.key].deliveredAt.Some?)
  }

  // ---------- how the invariant moves ----------

  lemma PickupIsAsPlanned(dist: Metric, route: Route, current: Movement)
    requires route.movement.Some? && route.pickedUpAt.None?
    ensures PickupInstant(dist, route, current) == PlannedPickup(dist, route)
  {
    var rule := route.movement.value;
    assert RouteSchedule(dist, PlanOf(route), rule) == RouteSchedule(dist, route, rule);
  }

  /** No identity disappears and none loses a milestone. */
  ghost predicate Grows(docs: Docs, later: Docs) {
    forall k :: k in docs.archive ==> k in later.archive && Older(docs.archive[k], later.archive[k])
  }

  lemma GrowsIsTransitive(a: Docs, b: Docs, c: Docs)
    requires Grows(a, b) && Grows(b, c)
    ensures Grows(a, c)
  {
  }

  /** The log only gets longer. */
  ghost predicate Extends(events: seq<RouteEvent>, later: seq<RouteEvent>) {
    forall e :: e in events ==> e in later
  }

  lemma SoundnessSurvives(dist: Metric, events: seq<RouteEvent>, later: seq<RouteEvent>, r: Route)
    requires Sound(dist, events, r) && Extends(events, later)
    ensures Sound(dist, later, r)
  {
    if r.pickupPublished && r.marketId.Some? {
      var at :| PickedUpEvent(Key(r), r.marketId.value, at) in events;
      assert PickedUpEvent(Key(r), r.marketId.value, at) in later;
    }
    if r.deliveryPublished {
      var at :| DeliveredEvent(Key(r), at) in events;
      assert DeliveredEvent(Key(r), at) in later;
    }
  }

  lemma CopySurvives(dist: Metric, docs: Docs, events: seq<RouteEvent>, docs': Docs, events': seq<RouteEvent>, r: Route)
    requires IsCopy(dist, docs, events, r) && Grows(docs, docs') && Extends(events, events')
    ensures IsCopy(dist, docs', events', r)
  {
    SoundnessSurvives(dist, events, events', r);
  }

  lemma DocsOkSurvives(dist: Metric, docs: Docs, events: seq<RouteEvent>, later: seq<RouteEvent>)
    requires DocsOk(dist, docs, events) && Extends(events, later)
    ensures DocsOk(dist, docs, later)
  {
    forall k | k in docs.archive ensures Sound(dist, later, docs.archive[k]) {
      SoundnessSurvives(dist, events, later, docs.archive[k]);
    }
  }

  lemma EventsOkSurvives(docs: Docs, later: Docs, events: seq<RouteEvent>)
    requires EventsOk(docs, events) && Grows(docs, later)
    ensures EventsOk(later, events)
  {
  }

  /** Patches only add to a moving route. */
  lemma PatchedIsNewer(stored: Route, patch: RoutePatch)
    requires StateOf(stored) == Moving
    ensures Older(stored, Patched(stored, patch)) && Key(Patched(stored, patch)) == Key(stored)
  {
  }

  lemma UpdateKeepsDocs(dist: Metric, docs: Docs, events: seq<RouteEvent>, stored: Route, updated: Route)
    requires DocsOk(dist, docs, events) && stored.orderId in docs.routes && docs.routes[stored.orderId] == stored
    requires Sound(dist, events, updated) && Older(stored, updated) && Key(updated) == Key(stored)
    ensures var later := Docs(docs.routes[stored.orderId := updated], docs.archive[Key(updated) := updated]);
            DocsOk(dist, later, events) && Grows(docs, later) && IsCopy(dist, later, events, updated)
  {
    var later := Docs(docs.routes[stored.orderId := updated], docs.archive[Key(updated) := updated]);
    assert Grows(docs, later);
  }

  /** A conditional update that leaves a sound document keeps the invariant; its result is a copy. */
  lemma UpdateKeepsDocsOk(dist: Metric, docs: Docs, events: seq<RouteEvent>, route: Route, patch: RoutePatch)
    requires DocsOk(dist, docs, events)
    requires route.orderId in docs.routes && Accepts(docs.routes[route.orderId], route, patch)
             ==> Sound(dist, events, Patched(docs.routes[route.orderId], patch))
    ensures var (later, updated) := UpdateDocs(docs, route, patch);
            && DocsOk(dist, later, events) && Grows(docs, later)
            && (updated.Some? ==> IsCopy(dist, later, events, updated.value) && Key(updated.value) == Key(route)
                                  && later.archive[Key(route)] == updated.value)
            && (updated.None? ==> later == docs)
  {
    if route.orderId in docs.routes && Accepts(docs.routes[route.orderId], route, patch) {
      var stored := docs.routes[route.orderId];
      PatchedIsNewer(stored, patch);
      UpdateKeepsDocs(dist, docs, events, stored, Patched(stored, patch));
    }
  }

  /** Writing a route under a fresh identity keeps every identity there is. */
  lemma WriteKeepsDocsOk(dist: Metric, docs: Docs, events: seq<RouteEvent>, route: Route)
    requires DocsOk(dist, docs, events) && Sound(dist, events, route) && Key(route) !in docs.archive
    ensures var later := Write(docs, route);
            DocsOk(dist, later, events) && Grows(docs, later) && IsCopy(dist, later, events, route)
  {
  }
}
