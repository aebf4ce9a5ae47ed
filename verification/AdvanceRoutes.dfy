/** A tick round over all moving routes (courier-service application/advance-routes.ts). */
module AdvanceRoutes {
  import opened Common
  import opened Geometry
  import opened Routes
  import opened RouteProgress
  import opened Stores
  import opened AdvanceRoute
  import opened ReconcileCarriers
  import opened ReconcileRuns

  datatype Summary = Summary(
    moving: nat, pickedUp: nat, delivered: nat, ended: nat, stale: nat, deferred: nat, reconciled: nat)

  const EMPTY_SUMMARY := Summary(0, 0, 0, 0, 0, 0, 0)

  function Counted(s: Summary, outcome: Outcome): Summary {
    match outcome
    case OutMoving => s.(moving := s.moving + 1)
    case OutPickedUp => s.(pickedUp := s.pickedUp + 1)
    case OutDelivered => s.(delivered := s.delivered + 1)
    case OutEnded => s.(ended := s.ended + 1)
    case OutStale => s.(stale := s.stale + 1)
  }

  function Accounted(s: Summary): nat {
    s.moving + s.pickedUp + s.delivered + s.ended + s.stale + s.deferred
  }

  /** What a tick does to the stores for one listed route, and what it answers. */
  type Tick = (Db, Route) -> (Db, Outcome)

  /** The undisturbed tick, with the couriers as read at the start of the round. */
  ghost function TickOf(dist: Metric, couriers: Couriers, rule: Movement, now: Instant): Tick {
    (db: Db, route: Route) => RunTick(dist, db, TickBegin(route, CourierIn(couriers, route), rule), now)
  }

  /** The first n routes in turn. */
  ghost function RunFirst(tick: Tick, db: Db, listed: seq<Route>, summary: Summary, n: nat): (Db, Summary)
    requires n <= |listed|
    decreases n
  {
    if n == 0 then (db, summary)
    else
      var (before, counted) := RunFirst(tick, db, listed, summary, n - 1);
      var (after, outcome) := tick(before, listed[n - 1]);
      (after, Counted(counted, outcome))
  }

  /** As many routes as fit into the round; the rest is deferred. */
  ghost function RunRoutes(tick: Tick, db: Db, listed: seq<Route>, budget: nat, summary: Summary): (Db, Summary) {
    var n := Min(budget, |listed|);
    var (after, counted) := RunFirst(tick, db, listed, summary, n);
    (after, if n < |listed| then counted.(deferred := |listed| - n) else counted)
  }

  lemma {:induction false} EachRouteIsCounted(tick: Tick, db: Db, listed: seq<Route>, summary: Summary, n: nat)
    requires n <= |listed|
    ensures var counted := RunFirst(tick, db, listed, summary, n).1;
            && Accounted(counted) == Accounted(summary) + n
            && counted.deferred == summary.deferred && counted.reconciled == summary.reconciled
    decreases n
  {
    if n > 0 {
      EachRouteIsCounted(tick, db, listed, summary, n - 1);
    }
  }

  /** Every listed route is counted once: by its outcome, or as deferred. */
  lemma EveryListedRouteIsAccountedFor(tick: Tick, db: Db, listed: seq<Route>, budget: nat, summary: Summary)
    requires summary.deferred == 0
    ensures var last := RunRoutes(tick, db, listed, budget, summary).1;
            Accounted(last) == Accounted(summary) + |listed| && last.reconciled == summary.reconciled
  {
    EachRouteIsCounted(tick, db, listed, summary, Min(budget, |listed|));
  }

  /** What the ticks of the first n routes answered, in turn. */
  ghost function Answers(tick: Tick, db: Db, listed: seq<Route>, summary: Summary, n: nat): seq<Outcome>
    requires n <= |listed|
    decreases n
  {
    if n == 0 then []
    else
      Answers(tick, db, listed, summary, n - 1)
      + [tick(RunFirst(tick, db, listed, summary, n - 1).0, listed[n - 1]).1]
  }

  function Times(answers: seq<Outcome>, outcome: Outcome): nat {
    if answers == [] then 0
    else Times(answers[..|answers| - 1], outcome) + if answers[|answers| - 1] == outcome then 1 else 0
  }

  /** Each counter has grown by the ticks that answered its outcome. */
  lemma {:induction false} CountersCountTheirOutcomes(tick: Tick, db: Db, listed: seq<Route>, summary: Summary, n: nat)
    requires n <= |listed|
    ensures var counted := RunFirst(tick, db, listed, summary, n).1;
            var answers := Answers(tick, db, listed, summary, n);
            && counted.moving == summary.moving + Times(answers, OutMoving)
            && counted.pickedUp == summary.pickedUp + Times(answers, OutPickedUp)
            && counted.delivered == summary.delivered + Times(answers, OutDelivered)
            && counted.ended == summary.ended + Times(answers, OutEnded)
            && counted.stale == summary.stale + Times(answers, OutStale)
            && counted.deferred == summary.deferred && counted.reconciled == summary.reconciled
    decreases n
  {
    if n > 0 {
      CountersCountTheirOutcomes(tick, db, listed, summary, n - 1);
      var before := Answers(tick, db, listed, summary, n - 1);
      assert Answers(tick, db, listed, summary, n)[..n - 1] == before by {
        AnswersAreMany(tick, db, listed, summary, n - 1);
      }
      AnswersAreMany(tick, db, listed, summary, n - 1);
    }
  }

  lemma {:induction false} AnswersAreMany(tick: Tick, db: Db, listed: seq<Route>, summary: Summary, n: nat)
    requires n <= |listed|
    ensures |Answers(tick, db, listed, summary, n)| == n
    decreases n
  {
    if n > 0 {
      AnswersAreMany(tick, db, listed, summary, n - 1);
    }
  }

  /** The routes beyond the budget are deferred, and only these. */
  lemma DeferredAreBeyondTheBudget(tick: Tick, db: Db, listed: seq<Route>, budget: nat, summary: Summary)
    requires summary.deferred == 0
    ensures var (after, counted) := RunRoutes(tick, db, listed, budget, summary);
            && counted.deferred == (if |listed| <= budget then 0 else |listed| - budget)
            && after == RunFirst(tick, db, listed, summary, |listed| - counted.deferred).0
  {
    EachRouteIsCounted(tick, db, listed, summary, Min(budget, |listed|));
  }

  // ---------- a tick leaves other orders alone ----------

  ghost predicate KeysOk(docs: Docs) {
    forall o :: o in docs.routes ==> docs.routes[o].orderId == o
  }

  /** `db'` differs from `db` only in what concerns this order, and its log has only grown. */
  ghost predicate OnlyTouches(db: Db, db': Db, order: OrderId) {
    && KeysOk(db'.docs)
    && (forall o :: o != order ==> FindRoute(db'.docs, o) == FindRoute(db.docs, o))
    && (forall id, o :: o != order ==> (Carries(db'.couriers, id, o) <==> Carries(db.couriers, id, o)))
    && (forall e :: e in db.events ==> e in db'.events)
  }

  ghost predicate Concerns(pc: TickPc, order: OrderId) {
    !pc.TickWatch? && (pc.TickFinished? || pc.route.orderId == order)
  }

  lemma OneCallOnlyTouches(dist: Metric, db: Db, pc: TickPc, now: Instant, order: OrderId)
    requires KeysOk(db.docs) && Sensible(pc) && Concerns(pc, order)
    ensures var (db', pc') := TickStep(dist, db, pc, now); OnlyTouches(db, db', order) && Concerns(pc', order)
  {
    match pc
    case TickEnd(route, at) => PatchOnlyTouches(db, route, EndPatch(at));
    case TickRecordPickup(route, t) => PatchOnlyTouches(db, route, PickupPatch(t));
    case TickFlagPickup(route, t) => PatchOnlyTouches(db, route, FLAG_PICKUP);
    case TickRecordDelivery(route, t) => PatchOnlyTouches(db, route, DeliveryPatch(route, t));
    case TickConfirm(route, at) => PatchOnlyTouches(db, route, NO_PATCH.(deliveredAt := Some(at)));
    case TickFlagDone(route, _) => PatchOnlyTouches(db, route, FLAG_DONE);
    case TickFreeCourier(route, at) => FreeingOnlyTouches(db, route, at);
    case _ => SameRoutesOnlyTouch(dist, db, pc, now, order);
  }

  lemma PatchOnlyTouches(db: Db, route: Route, patch: RoutePatch)
    requires KeysOk(db.docs)
    ensures OnlyTouches(db, db.(docs := UpdateDocs(db.docs, route, patch).0), route.orderId)
    ensures var updated := UpdateDocs(db.docs, route, patch).1; updated.Some? ==> updated.value.orderId == route.orderId
  {
  }

  lemma FreeingOnlyTouches(db: Db, route: Route, at: Instant)
    requires KeysOk(db.docs)
    ensures OnlyTouches(db,
              db.(couriers := ReleaseCouriers(db.couriers, route.orderId, at, route.courierId, Dropoff(route)).0),
                        route.orderId)
  {
  }

  lemma SameRoutesOnlyTouch(dist: Metric, db: Db, pc: TickPc, now: Instant, order: OrderId)
    requires KeysOk(db.docs) && Sensible(pc) && Concerns(pc, order)
    requires pc.TickListed? || pc.TickBegin? || pc.TickPublishPickup? || pc.TickPublishDelivery? || pc.TickSaveLive?
             || pc.TickFinished?
    ensures var (db', pc') := TickStep(dist, db, pc, now); OnlyTouches(db, db', order) && Concerns(pc', order)
  {
  }

  lemma {:induction false} TickOnlyTouches(dist: Metric, db: Db, pc: TickPc, now: Instant, order: OrderId)
    requires KeysOk(db.docs) && Sensible(pc) && Concerns(pc, order)
    ensures OnlyTouches(db, RunTick(dist, db, pc, now).0, order)
    decreases Remaining(pc)
  {
    if !pc.TickFinished? {
      OneCall(dist, db, pc, now);
      EveryCallMakesProgress(dist, db, pc, now);
      OneCallOnlyTouches(dist, db, pc, now, order);
      var (db', pc') := TickStep(dist, db, pc, now);
      TickOnlyTouches(dist, db', pc', now, order);
    }
  }

  lemma CompletionLasts(db: Db, db': Db, key: RouteKey, order: OrderId)
    requires Completed(db, key) && OnlyTouches(db, db', order) && key.orderId != order
    ensures Completed(db', key)
  {
    assert FindRoute(db'.docs, key.orderId) == FindRoute(db.docs, key.orderId);
  }

  // ---------- a whole round ----------

  ghost predicate DistinctOrders(listed: seq<Route>) {
    forall i, j :: 0 <= i < j < |listed| ==> listed[i].orderId != listed[j].orderId
  }

  /** The listed routes are the stored ones, and moving. */
  ghost predicate AreCurrent(db: Db, listed: seq<Route>) {
    forall i :: 0 <= i < |listed| ==>
      FindRoute(db.docs, listed[i].orderId) == Some(listed[i]) && StateOf(listed[i]) == Moving
  }

  /** The tick of a route leaves other orders alone. */
  ghost predicate LeavesOthers(tick: Tick, db: Db, route: Route) {
    KeysOk(db.docs) ==> OnlyTouches(db, tick(db, route).0, route.orderId)
  }

  /** Wherever the route is still stored as listed, its tick completes it. */
  ghost predicate Completes(tick: Tick, db: Db, route: Route) {
    KeysOk(db.docs) && FindRoute(db.docs, route.orderId) == Some(route) ==> Completed(tick(db, route).0, Key(route))
  }

  /** The n-th route of a round: only its own order is touched. */
  lemma {:induction false} NextRouteOnlyTouches(tick: Tick, db: Db, listed: seq<Route>, summary: Summary, n: nat)
    requires KeysOk(db.docs) && n < |listed| && forall d, r :: LeavesOthers(tick, d, r)
    ensures var before := RunFirst(tick, db, listed, summary, n).0;
            KeysOk(before.docs) && OnlyTouches(before, RunFirst(tick, db, listed, summary, n + 1).0, listed[n].orderId)
    decreases n
  {
    if n > 0 {
      NextRouteOnlyTouches(tick, db, listed, summary, n - 1);
    }
    assert LeavesOthers(tick, RunFirst(tick, db, listed, summary, n).0, listed[n]);
  }

  /** Routes whose turn has not come are still as they were listed. */
  lemma {:induction false} LaterRoutesStayCurrent(tick: Tick, db: Db, listed: seq<Route>, summary: Summary, n: nat,
                                                  k: nat)
    requires KeysOk(db.docs) && DistinctOrders(listed) && AreCurrent(db, listed) && n <= k < |listed|
    requires forall d, r :: LeavesOthers(tick, d, r)
    ensures var reached := RunFirst(tick, db, listed, summary, n).0;
            KeysOk(reached.docs) && FindRoute(reached.docs, listed[k].orderId) == Some(listed[k])
    decreases n
  {
    if n > 0 {
      LaterRoutesStayCurrent(tick, db, listed, summary, n - 1, k);
      NextRouteOnlyTouches(tick, db, listed, summary, n - 1);
    }
  }

  lemma {:induction false} CompletionLastsThroughTheRound(tick: Tick, db: Db, listed: seq<Route>, summary: Summary,
                                                          k: nat, n: nat)
    requires KeysOk(db.docs) && DistinctOrders(listed) && k < n <= |listed| && forall d, r :: LeavesOthers(tick, d, r)
    requires Completed(RunFirst(tick, db, listed, summary, k + 1).0, Key(listed[k]))
    ensures Completed(RunFirst(tick, db, listed, summary, n).0, Key(listed[k]))
    decreases n
  {
    if n > k + 1 {
      CompletionLastsThroughTheRound(tick, db, listed, summary, k, n - 1);
      NextRouteOnlyTouches(tick, db, listed, summary, n - 1);
      CompletionLasts(RunFirst(tick, db, listed, summary, n - 1).0, RunFirst(tick, db, listed, summary, n).0,
        Key(listed[k]), listed[n - 1].orderId);
    }
  }

  lemma RoundCompletes(tick: Tick, db: Db, listed: seq<Route>, budget: nat, summary: Summary, k: nat)
    requires KeysOk(db.docs) && DistinctOrders(listed) && AreCurrent(db, listed) && k < |listed| && k < budget
    requires (forall d, r :: LeavesOthers(tick, d, r)) && forall d :: Completes(tick, d, listed[k])
    ensures Completed(RunRoutes(tick, db, listed, budget, summary).0, Key(listed[k]))
  {
    LaterRoutesStayCurrent(tick, db, listed, summary, k, k);
    assert Completes(tick, RunFirst(tick, db, listed, summary, k).0, listed[k]);
    CompletionLastsThroughTheRound(tick, db, listed, summary, k, Min(budget, |listed|));
  }

  /** A round that nothing interrupts completes every listed route that is due, within its budget. */
  lemma QuietRoundCompletesDueRoutes(dist: Metric, db: Db, listed: seq<Route>, couriers: Couriers,
                                     rule: Movement, now: Instant, budget: nat, summary: Summary, k: nat)
    requires KeysOk(db.docs) && DistinctOrders(listed) && AreCurrent(db, listed) && k < |listed| && k < budget
    requires IsDue(dist, listed[k], CourierIn(couriers, listed[k]), rule, now)
    ensures Completed(RunRoutes(TickOf(dist, couriers, rule, now), db, listed, budget, summary).0, Key(listed[k]))
  {
    var tick := TickOf(dist, couriers, rule, now);
    forall d, r
      ensures LeavesOthers(tick, d, r)
    {
      TicksLeaveOthers(dist, couriers, rule, now, d, r);
    }
    forall d
      ensures Completes(tick, d, listed[k])
    {
      DueTickCompletes(dist, couriers, rule, now, d, listed[k]);
    }
    RoundCompletes(tick, db, listed, budget, summary, k);
  }

  lemma TicksLeaveOthers(dist: Metric, couriers: Couriers, rule: Movement, now: Instant, db: Db, route: Route)
    ensures LeavesOthers(TickOf(dist, couriers, rule, now), db, route)
  {
    if KeysOk(db.docs) {
      TickOnlyTouches(dist, db, TickBegin(route, CourierIn(couriers, route), rule), now, route.orderId);
    }
  }

  lemma DueTickCompletes(dist: Metric, couriers: Couriers, rule: Movement, now: Instant, db: Db, route: Route)
    requires StateOf(route) == Moving && IsDue(dist, route, CourierIn(couriers, route), rule, now)
    ensures Completes(TickOf(dist, couriers, rule, now), db, route)
  {
    if KeysOk(db.docs) && FindRoute(db.docs, route.orderId) == Some(route) {
      QuietTickCompletes(dist, db, route, CourierIn(couriers, route), rule, now);
    }
  }

  // ---------- the program ----------

  class AdvanceRoutesUseCase {
    const dist: Metric
    const advance: AdvanceRouteUseCase
    const reconcile: ReconcileCarriersUseCase
    const batchSize: nat
    const intervalMs: nat
    var lastReconcileMs: Option<Instant>

    ghost predicate Wired()
      reads this
    {
      && advance.dist == dist && reconcile.dist == dist && reconcile.batchSize > 0
      && advance.routes == reconcile.routes && advance.couriers == reconcile.couriers
      && advance.events == reconcile.events && advance.live == reconcile.live
    }

    constructor (advance: AdvanceRouteUseCase, reconcile: ReconcileCarriersUseCase, batchSize: nat, intervalMs: nat)
      requires advance.dist == reconcile.dist && reconcile.batchSize > 0
      requires advance.routes == reconcile.routes && advance.couriers == reconcile.couriers
      requires advance.events == reconcile.events && advance.live == reconcile.live
      ensures Wired() && this.advance == advance && this.reconcile == reconcile
      ensures this.batchSize == batchSize && this.intervalMs == intervalMs && lastReconcileMs == None
    {
      this.dist, this.advance, this.reconcile := advance.dist, advance, reconcile;
      this.batchSize, this.intervalMs, lastReconcileMs := batchSize, intervalMs, None;
    }

    /** What a due reconciliation does: it examines a page after the cursor and moves the cursor. */
    twostate predicate Reconciles(rule: Movement, now: Instant, releases: nat, page: seq<Courier>, start: Db,
                                  released: nat)
      requires Wired()
      reads this, reconcile, advance.routes, advance.couriers, advance.events, advance.live
    {
      && IsCarryingPage(old(advance.couriers.couriers), reconcile.batchSize, old(reconcile.afterOrderId), page)
      && reconcile.afterOrderId == NextCursor(reconcile.batchSize, PageOrders(page))
      && (start, released)
         == RunLoop(dist, old(advance.Contents()),
                    RecLoop(page, FindByOrders(old(advance.Contents()).docs, OrdersOf(page)), now, rule,
                            reconcile.graceMs, 0), releases)
    }

    /** Reconciliation at most once an interval; `page` is the page of carriers examined. */
    method ReconcileWhenDue(rule: Movement, now: Instant, releases: nat)
      returns (reconciled: nat, ghost page: seq<Courier>)
      requires Wired() && advance.couriers.Valid()
      modifies this`lastReconcileMs, reconcile`afterOrderId, advance.couriers
      ensures advance.couriers.Valid()
      ensures if old(lastReconcileMs).Some? && now - old(lastReconcileMs).value < intervalMs then
                && lastReconcileMs == old(lastReconcileMs) && reconcile.afterOrderId == old(reconcile.afterOrderId)
                && advance.Contents() == old(advance.Contents()) && reconciled == 0
              else
                lastReconcileMs == Some(now) && Reconciles(rule, now, releases, page, advance.Contents(), reconciled)
    {
      reconciled, page := 0, [];
      if lastReconcileMs.None? || now - lastReconcileMs.value >= intervalMs {
        lastReconcileMs := Some(now);
        reconciled, page := reconcile.Run(rule, now, releases);
      }
    }

    /**
     * One round: reconciliation when its interval has passed, then the moving routes from the oldest on.
     * Returns also, as ghosts, the state the routes were listed in, the listing, and the page of carriers examined.
     */
    method Round(rule: Movement, now: Instant, releases: nat, budget: nat)
      returns (summary: Summary, ghost start: Db, ghost listed: seq<Route>, ghost page: seq<Courier>)
      requires Wired() && advance.routes.Valid() && advance.couriers.Valid()
      modifies this`lastReconcileMs, reconcile`afterOrderId
      modifies advance.routes, advance.couriers, advance.events, advance.live
      ensures advance.couriers.Valid()
      ensures if old(lastReconcileMs).Some? && now - old(lastReconcileMs).value < intervalMs then
                && lastReconcileMs == old(lastReconcileMs) && reconcile.afterOrderId == old(reconcile.afterOrderId)
                && start == old(advance.Contents()) && summary.reconciled == 0
              else
                lastReconcileMs == Some(now) && Reconciles(rule, now, releases, page, start, summary.reconciled)
      ensures IsMovingPage(start.docs.routes, batchSize, listed)
      ensures (advance.Contents(), summary)
           == RunRoutes(TickOf(dist, start.couriers, rule, now), start, listed, budget,
                EMPTY_SUMMARY.(reconciled := summary.reconciled))
      ensures Accounted(summary) == |listed|
    {
      var reconciled;
      reconciled, page := ReconcileWhenDue(rule, now, releases);
      summary, start, listed := AdvanceListed(rule, now, budget, reconciled);
    }

    /** The moving routes from the oldest on, with the couriers as they are when these are listed. */
    method AdvanceListed(rule: Movement, now: Instant, budget: nat, reconciled: nat)
      returns (summary: Summary, ghost start: Db, ghost listed: seq<Route>)
      requires Wired() && advance.routes.Valid() && advance.couriers.Valid()
      modifies advance.routes, advance.couriers, advance.events, advance.live
      ensures advance.couriers.Valid() && start == old(advance.Contents()) && summary.reconciled == reconciled
      ensures IsMovingPage(start.docs.routes, batchSize, listed)
      ensures (advance.Contents(), summary)
           == RunRoutes(TickOf(dist, start.couriers, rule, now), start, listed, budget,
                EMPTY_SUMMARY.(reconciled := reconciled))
      ensures Accounted(summary) == |listed|
    {
      var routes := advance.routes.ListMoving(batchSize);
      var couriers := advance.couriers.couriers;
      start, listed := advance.Contents(), routes;
      ghost var tick := TickOf(dist, couriers, rule, now);
      forall db, route
        ensures Ticks(tick, dist, couriers, rule, now, db, route)
      {
        TickOfTicks(dist, couriers, rule, now, db, route);
      }
      summary := AdvanceAll(routes, couriers, rule, now, budget, EMPTY_SUMMARY.(reconciled := reconciled), tick);
      EveryListedRouteIsAccountedFor(tick, start, listed, budget, EMPTY_SUMMARY.(reconciled := reconciled));
    }

    method AdvanceAll(routes: seq<Route>, couriers: Couriers, rule: Movement, now: Instant, budget: nat,
                      initial: Summary, ghost tick: Tick)
      returns (summary: Summary)
      requires Wired() && advance.couriers.Valid()
      requires forall db, route :: Ticks(tick, dist, couriers, rule, now, db, route)
      modifies advance.routes, advance.couriers, advance.events, advance.live
      ensures advance.couriers.Valid()
      ensures (advance.Contents(), summary) == RunRoutes(tick, old(advance.Contents()), routes, budget, initial)
    {
      ghost var start := advance.Contents();
      summary := initial;
      var left := budget;
      var index := 0;
      while index < |routes| && left > 0
        invariant 0 <= index <= |routes| && left == budget - index
        invariant advance.couriers.Valid()
        invariant (advance.Contents(), summary) == RunFirst(tick, start, routes, initial, index)
      {
        summary := AdvanceNext(routes[index], couriers, rule, now, summary, tick);
        left, index := left - 1, index + 1;
      }
      if index < |routes| {
        summary := summary.(deferred := |routes| - index);
      }
    }

    method AdvanceNext(route: Route, couriers: Couriers, rule: Movement, now: Instant, before: Summary,
                       ghost tick: Tick)
      returns (summary: Summary)
      requires Wired() && advance.couriers.Valid() && forall db, r :: Ticks(tick, dist, couriers, rule, now, db, r)
      modifies advance.routes, advance.couriers, advance.events, advance.live
      ensures advance.couriers.Valid()
      ensures var (after, outcome) := tick(old(advance.Contents()), route);
              advance.Contents() == after && summary == Counted(before, outcome)
    {
      assert Ticks(tick, dist, couriers, rule, now, advance.Contents(), route);
      var outcome := advance.Advance(route, CourierIn(couriers, route), rule, now);
      summary := Counted(before, outcome);
    }
  }

  ghost predicate Ticks(tick: Tick, dist: Metric, couriers: Couriers, rule: Movement, now: Instant, db: Db,
                        route: Route) {
    tick(db, route) == RunTick(dist, db, TickBegin(route, CourierIn(couriers, route), rule), now)
  }

  lemma TickOfTicks(dist: Metric, couriers: Couriers, rule: Movement, now: Instant, db: Db, route: Route)
    ensures Ticks(TickOf(dist, couriers, rule, now), dist, couriers, rule, now, db, route)
  {
  }
}
