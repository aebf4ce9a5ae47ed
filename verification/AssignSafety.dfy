/** Concurrent assignment calls agree as long as the order is not released. */
module AssignSafety {
  import opened Common
  import opened Geometry
  import opened Routes
  import opened Stores
  import opened RouteInvariant
  import opened AdvanceRoute
  import opened ReleaseCourier
  import opened AssignCourier
  import opened ReconcileCarriers
  import opened Lifecycle
  import opened Outcomes

  /** The courier a call works with is the one that carries the order, under the same assignment. */
  ghost predicate HoldsCarrier(couriers: Couriers, courier: Courier, orderId: OrderId) {
    Carries(couriers, courier.id, orderId) && couriers[courier.id].lastAssignedAt == courier.lastAssignedAt
  }

  ghost predicate RouteBelongs(s: Sys, orderId: OrderId)
    requires orderId in s.db.docs.routes
  {
    exists id :: Carries(s.db.couriers, id, orderId)
      && BelongsToAssignment(s.db.docs.routes[orderId], s.db.couriers[id])
  }

  ghost predicate HoldsCourier(pc: AssignPc) {
    pc.AsnRoute? || pc.AsnPlan? || pc.AsnInsert? || pc.AsnReplace? || (pc.AsnDone? && pc.result.Assigned?)
  }

  ghost function HeldCourier(pc: AssignPc): Courier
    requires HoldsCourier(pc)
  {
    if pc.AsnDone? then pc.result.courier else pc.courier
  }

  ghost function IsReuse(pc: AssignPc): bool
    requires HoldsCourier(pc)
  {
    if pc.AsnDone? then pc.result.reused else pc.reused
  }

  /** What a call for an order that was not released knows. */
  ghost predicate CallOk(s: Sys, p: Pid, pc: AssignPc) {
    var o := pc.cmd.orderId;
    && (HoldsCourier(pc) ==>
          && HoldsCarrier(s.db.couriers, HeldCourier(pc), o)
          && (!IsReuse(pc) ==> o in s.claimers && s.claimers[o] == p))
    && (pc.AsnPlan? ==> !pc.stored)
    && (pc.AsnInsert? ==> pc.route.orderId == o && BelongsToAssignment(pc.route, pc.courier))
    && !pc.AsnReplace?
    && (pc.AsnDone? && pc.result.Assigned? && pc.result.route.Some? ==>
          && o in s.db.docs.routes
          && Key(s.db.docs.routes[o]) == Key(pc.result.route.value)
          && SamePlan(s.db.docs.routes[o], pc.result.route.value))
  }

  ghost predicate OrderOk(s: Sys, o: OrderId) {
    o in s.db.docs.routes && o !in s.released ==> RouteBelongs(s, o)
  }

  ghost predicate ClocksOk(s: Sys) {
    && (forall id :: id in s.db.couriers && s.db.couriers[id].lastAssignedAt.Some? ==>
          s.db.couriers[id].lastAssignedAt.value <= s.now)
    && (forall p :: p in s.procs && s.procs[p].AssignProc? && s.procs[p].assign.AsnClaim? ==>
         s.procs[p].assign.at <= s.now)
  }

  ghost predicate AssignInv(s: Sys) {
    && ClocksOk(s)
    && (forall o :: OrderOk(s, o))
    && (forall p :: p in s.procs && s.procs[p].AssignProc? && s.procs[p].assign.cmd.orderId !in s.released ==>
          CallOk(s, p, s.procs[p].assign))
  }

  // ---------- what one call changes ----------

  /** A courier keeps carrying its order, under the same assignment, unless the order is released. */
  ghost predicate CarriersKept(before: Couriers, after: Couriers) {
    forall id, o :: Carries(before, id, o) && o in CarriedOrders(after) ==>
      Carries(after, id, o) && after[id].lastAssignedAt == before[id].lastAssignedAt
  }

  ghost predicate RoutesKept(before: Docs, after: Docs, o: OrderId) {
    o in before.routes ==>
      o in after.routes && Key(after.routes[o]) == Key(before.routes[o]) && SamePlan(after.routes[o], before.routes[o])
  }

  lemma CarriedMeansCarries(couriers: Couriers, o: OrderId)
    ensures o in CarriedOrders(couriers) <==> IsCarried(couriers, o)
  {
    if o in CarriedOrders(couriers) {
      var id :| id in couriers && couriers[id].currentOrderId == Some(o);
      assert Carries(couriers, id, o);
    }
  }

  lemma ReleaseKeepsCarriers(couriers: Couriers, orderId: OrderId, at: Instant, courierId: CourierId,
                             location: Option<GeoPoint>)
    requires CouriersOk(couriers)
    ensures CarriersKept(couriers, ReleaseCouriers(couriers, orderId, at, courierId, location).0)
  {
    var after := ReleaseCouriers(couriers, orderId, at, courierId, location).0;
    forall id, o | Carries(couriers, id, o) && o in CarriedOrders(after)
      ensures Carries(after, id, o) && after[id].lastAssignedAt == couriers[id].lastAssignedAt
    {
      CarriedMeansCarries(after, o);
      var carrier :| Carries(after, carrier, o);
      assert Carries(couriers, carrier, o);
    }
  }

  lemma ClaimKeepsCarriers(couriers: Couriers, id: CourierId, orderId: OrderId, at: Instant)
    requires CouriersOk(couriers) && id in couriers && couriers[id].status == Idle
    ensures CarriersKept(couriers, ClaimCourier(couriers, id, orderId, at))
  {
  }

  /** No call of any worker takes a courier from an order without releasing it. */
  lemma CallKeepsCarriers(cfg: Config, db: Db, proc: Proc, now: Instant, pick: CourierId, page: seq<Courier>)
    requires CouriersOk(db.couriers)
    ensures CarriersKept(db.couriers, StepProc(cfg, db, proc, now, pick, page).0.couriers)
  {
    match proc
    case TickProc(pc) =>
      if pc.TickFreeCourier? {
        ReleaseKeepsCarriers(db.couriers, pc.route.orderId, pc.deliveredAt, pc.route.courierId,
          RouteProgress.Dropoff(pc.route));
      } else {
        TickLeavesCouriers(cfg.dist, db, pc, now);
      }
    case ReleaseProc(pc) =>
      if pc.RelFree? {
        ReleaseKeepsCarriers(db.couriers, pc.orderId, pc.at, pc.carrier.id,
                             if pc.decision.Cancelled? then pc.decision.location else None);
      }
    case AssignProc(pc) =>
      if pc.AsnClaim? && AssignStep(cfg, db, pc, now, pick).0 != db {
        ClaimKeepsCarriers(db.couriers, Chosen(cfg, db.couriers, pc.near, pick), pc.cmd.orderId, pc.at);
      }
    case ReconcileProc(pc) =>
      if pc.RecLoop? && pc.carriers != [] && HeadRelease(cfg.dist, pc).Some? {
        var (carrier, route, stuck) := HeadRelease(cfg.dist, pc).value;
        ReleaseKeepsCarriers(db.couriers, route.orderId, stuck.at, carrier.id, stuck.location);
      }
    case TrackProc(pc) =>
  }

  lemma UpdateKeepsRoutes(dist: Metric, docs: Docs, events: seq<RouteEvent>, route: Route, patch: RoutePatch,
                          o: OrderId)
    requires DocsOk(dist, docs, events)
    ensures RoutesKept(docs, UpdateDocs(docs, route, patch).0, o)
    ensures UpdateDocs(docs, route, patch).0.routes.Keys == docs.routes.Keys
  {
  }

  /** Only an insertion or a replacement for this very order gives it another route. */
  lemma CallKeepsRoutes(cfg: Config, db: Db, proc: Proc, now: Instant, pick: CourierId, page: seq<Courier>, o: OrderId)
    requires DocsOk(cfg.dist, db.docs, db.events) && AssignOkIfAssign(proc)
    requires !(proc.AssignProc? && proc.assign.AsnReplace? && proc.assign.cmd.orderId == o)
    ensures RoutesKept(db.docs, StepProc(cfg, db, proc, now, pick, page).0.docs, o)
    ensures o !in db.docs.routes && o in StepProc(cfg, db, proc, now, pick, page).0.docs.routes ==>
              proc.AssignProc? && proc.assign.AsnInsert? && proc.assign.cmd.orderId == o
              && StepProc(cfg, db, proc, now, pick, page).0.docs.routes[o] == proc.assign.route
  {
    match proc
    case TickProc(pc) => TickKeepsRoutes(cfg.dist, db, pc, now, o);
    case ReleaseProc(pc) => ReleaseKeepsRoutes(cfg.dist, db, pc, now, o);
    case AssignProc(pc) => AssignKeepsRoutes(cfg, db, pc, now, pick, o);
    case ReconcileProc(pc) =>
    case TrackProc(pc) =>
  }

  lemma AssignKeepsRoutes(cfg: Config, db: Db, pc: AssignPc, now: Instant, pick: CourierId, o: OrderId)
    requires AssignOk(pc) && !(pc.AsnReplace? && pc.cmd.orderId == o)
    ensures var docs := AssignStep(cfg, db, pc, now, pick).0.docs;
            && RoutesKept(db.docs, docs, o)
            && (o !in db.docs.routes && o in docs.routes ==>
                  pc.AsnInsert? && pc.cmd.orderId == o && docs.routes[o] == pc.route)
  {
  }

  lemma ReleaseKeepsRoutes(dist: Metric, db: Db, pc: ReleasePc, now: Instant, o: OrderId)
    requires DocsOk(dist, db.docs, db.events)
    ensures var docs := ReleaseStep(dist, db, pc, now).0.docs;
            RoutesKept(db.docs, docs, o) && docs.routes.Keys == db.docs.routes.Keys
  {
    if pc.RelEnd? {
      UpdateKeepsRoutes(dist, db.docs, db.events, pc.route, EndPatch(pc.at), o);
    }
  }

  ghost predicate AssignOkIfAssign(proc: Proc) {
    proc.AssignProc? ==> AssignOk(proc.assign)
  }

  /** The patch of a tick's next write, if it is one. */
  function PatchOf(pc: Tick): Option<RoutePatch> {
    match pc
    case TickEnd(_, at) => Some(EndPatch(at))
    case TickRecordPickup(_, t) => Some(PickupPatch(t))
    case TickFlagPickup(_, _) => Some(FLAG_PICKUP)
    case TickRecordDelivery(route, t) => Some(DeliveryPatch(route, t))
    case TickConfirm(_, at) => Some(NO_PATCH.(deliveredAt := Some(at)))
    case TickFlagDone(_, _) => Some(FLAG_DONE)
    case _ => None
  }

  lemma TickWritesOnePatch(dist: Metric, db: Db, pc: Tick, now: Instant)
    ensures PatchOf(pc).Some? ==> !pc.TickWatch? && !pc.TickFinished?
    ensures TickStep(dist, db, pc, now).0.docs
         == if PatchOf(pc).Some? then UpdateDocs(db.docs, pc.route, PatchOf(pc).value).0 else db.docs
  {
  }

  lemma TickKeepsRoutes(dist: Metric, db: Db, pc: Tick, now: Instant, o: OrderId)
    requires DocsOk(dist, db.docs, db.events)
    ensures var docs := TickStep(dist, db, pc, now).0.docs;
            RoutesKept(db.docs, docs, o) && docs.routes.Keys == db.docs.routes.Keys
  {
    TickWritesOnePatch(dist, db, pc, now);
    if PatchOf(pc).Some? {
      UpdateKeepsRoutes(dist, db.docs, db.events, pc.route, PatchOf(pc).value, o);
    }
  }

  // ---------- one step ----------

  ghost function AfterCall(cfg: Config, s: Sys, p: Pid, pick: CourierId, page: seq<Courier>): Sys {
    Apply(cfg, s, Call(p, pick, page))
  }

  lemma StillCarried(cfg: Config, s: Sys, p: Pid, pick: CourierId, page: seq<Courier>, id: CourierId, o: OrderId)
    requires CouriersOk(s.db.couriers) && p in s.procs
    requires Carries(s.db.couriers, id, o) && o !in AfterCall(cfg, s, p, pick, page).released
    ensures var after := AfterCall(cfg, s, p, pick, page).db.couriers;
            Carries(after, id, o) && after[id].lastAssignedAt == s.db.couriers[id].lastAssignedAt
  {
    CallKeepsCarriers(cfg, s.db, s.procs[p], s.now, pick, page);
    var s' := AfterCall(cfg, s, p, pick, page);
    CarriedMeansCarries(s.db.couriers, o);
    assert o in CarriedOrders(s.db.couriers)
      && s'.released == s.released + (CarriedOrders(s.db.couriers) - CarriedOrders(s'.db.couriers));
  }

  lemma ClocksStayOk(cfg: Config, s: Sys, p: Pid, pick: CourierId, page: seq<Courier>)
    requires ClocksOk(s) && p in s.procs
    ensures ClocksOk(AfterCall(cfg, s, p, pick, page))
  {
    var s' := AfterCall(cfg, s, p, pick, page);
    forall id | id in s'.db.couriers && s'.db.couriers[id].lastAssignedAt.Some?
      ensures s'.db.couriers[id].lastAssignedAt.value <= s'.now
    {
      AssignmentTimesComeFromClaims(cfg, s.db, s.procs[p], s.now, pick, page, id);
    }
  }

  lemma AssignmentTimesComeFromClaims(cfg: Config, db: Db, proc: Proc, now: Instant, pick: CourierId,
                                      page: seq<Courier>, id: CourierId)
    requires id in StepProc(cfg, db, proc, now, pick, page).0.couriers
    ensures id in db.couriers
    ensures var after := StepProc(cfg, db, proc, now, pick, page).0.couriers;
            after[id].lastAssignedAt == db.couriers[id].lastAssignedAt
            || (proc.AssignProc? && proc.assign.AsnClaim? && after[id].lastAssignedAt == Some(proc.assign.at))
  {
    if proc.TickProc? && !proc.tick.TickFreeCourier? {
      TickLeavesCouriers(cfg.dist, db, proc.tick, now);
    }
  }

  /** A call that is not stepping keeps what it knows. */
  lemma OtherCallStaysOk(cfg: Config, s: Sys, p: Pid, pick: CourierId, page: seq<Courier>, q: Pid, pc: AssignPc)
    requires Inv(cfg, s) && AssignInv(s) && p in s.procs && CallOk(s, q, pc)
    requires pc.cmd.orderId !in AfterCall(cfg, s, p, pick, page).released
    ensures CallOk(AfterCall(cfg, s, p, pick, page), q, pc)
  {
    var o := pc.cmd.orderId;
    var proc := s.procs[p];
    assert ProcOk(cfg.dist, s.db.docs, s.db.events, proc);
    if proc.AssignProc? && proc.assign.cmd.orderId == o {
      assert CallOk(s, p, proc.assign);
    }
    CallKeepsRoutes(cfg, s.db, proc, s.now, pick, page, o);
    if HoldsCourier(pc) {
      StillCarried(cfg, s, p, pick, page, HeldCourier(pc).id, o);
      ClaimsNeedAnUncarriedOrder(cfg, s, p, pick, page, HeldCourier(pc).id, o);
    }
  }

  lemma ClaimsNeedAnUncarriedOrder(cfg: Config, s: Sys, p: Pid, pick: CourierId, page: seq<Courier>, id: CourierId,
                                   o: OrderId)
    requires p in s.procs && Carries(s.db.couriers, id, o)
    ensures o in s.claimers ==>
            var s' := AfterCall(cfg, s, p, pick, page); o in s'.claimers && s'.claimers[o] == s.claimers[o]
  {
  }

  /** Every order that is not released still has its own carrier's route. */
  lemma OrderStaysOk(cfg: Config, s: Sys, p: Pid, pick: CourierId, page: seq<Courier>, o: OrderId)
    requires Inv(cfg, s) && AssignInv(s) && p in s.procs && FreshReplacement(s, Call(p, pick, page))
    ensures OrderOk(AfterCall(cfg, s, p, pick, page), o)
  {
    var s' := AfterCall(cfg, s, p, pick, page);
    var proc := s.procs[p];
    if o in s'.db.docs.routes && o !in s'.released {
      assert ProcOk(cfg.dist, s.db.docs, s.db.events, proc);
      if proc.AssignProc? && proc.assign.cmd.orderId == o {
        assert CallOk(s, p, proc.assign);
      }
      CallKeepsRoutes(cfg, s.db, proc, s.now, pick, page, o);
      if o in s.db.docs.routes {
        assert OrderOk(s, o);
        var id :| Carries(s.db.couriers, id, o) && BelongsToAssignment(s.db.docs.routes[o], s.db.couriers[id]);
        StillCarried(cfg, s, p, pick, page, id, o);
        CarrierKeepsItsId(cfg, s, p, pick, page, id);
        assert Carries(s'.db.couriers, id, o) && BelongsToAssignment(s'.db.docs.routes[o], s'.db.couriers[id]);
      } else {
        var courier := proc.assign.courier;
        StillCarried(cfg, s, p, pick, page, courier.id, o);
        assert Carries(s'.db.couriers, courier.id, o)
          && BelongsToAssignment(s'.db.docs.routes[o], s'.db.couriers[courier.id]);
      }
    }
  }

  lemma CarrierKeepsItsId(cfg: Config, s: Sys, p: Pid, pick: CourierId, page: seq<Courier>, id: CourierId)
    requires Inv(cfg, s) && FreshReplacement(s, Call(p, pick, page)) && p in s.procs && id in s.db.couriers
    requires id in AfterCall(cfg, s, p, pick, page).db.couriers
    ensures AfterCall(cfg, s, p, pick, page).db.couriers[id].id == s.db.couriers[id].id
  {
    CallKeepsInv(cfg, s, p, pick, page);
  }

  lemma RouteReadStaysOk(cfg: Config, s: Sys, p: Pid, pick: CourierId, page: seq<Courier>)
    requires CouriersOk(s.db.couriers) && p in s.procs && s.procs[p].AssignProc? && s.procs[p].assign.AsnRoute?
    requires CallOk(s, p, s.procs[p].assign) && OrderOk(s, s.procs[p].assign.cmd.orderId)
    requires s.procs[p].assign.cmd.orderId !in AfterCall(cfg, s, p, pick, page).released
    ensures CallOk(AfterCall(cfg, s, p, pick, page), p, AfterCall(cfg, s, p, pick, page).procs[p].assign)
  {
    var pc := s.procs[p].assign;
    var o := pc.cmd.orderId;
    if o in s.db.docs.routes {
      var id :| Carries(s.db.couriers, id, o) && BelongsToAssignment(s.db.docs.routes[o], s.db.couriers[id]);
      assert id == pc.courier.id;
    }
  }

  lemma RoutingCallStaysOk(cfg: Config, s: Sys, p: Pid, pick: CourierId, page: seq<Courier>)
    requires p in s.procs && s.procs[p].AssignProc? && CallOk(s, p, s.procs[p].assign)
    requires AssignOk(s.procs[p].assign) && ClocksOk(s)
    requires var pc := s.procs[p].assign; pc.AsnPlan? || pc.AsnInsert? || pc.AsnReplace? || pc.AsnDone?
    requires s.procs[p].assign.cmd.orderId !in AfterCall(cfg, s, p, pick, page).released
    ensures CallOk(AfterCall(cfg, s, p, pick, page), p, AfterCall(cfg, s, p, pick, page).procs[p].assign)
  {
  }

  lemma ClaimingCallStaysOk(cfg: Config, s: Sys, p: Pid, pick: CourierId, page: seq<Courier>)
    requires Inv(cfg, s) && AssignInv(s) && p in s.procs && s.procs[p].AssignProc?
    requires var pc := s.procs[p].assign; pc.AsnBegin? || pc.AsnLocate? || pc.AsnClaim? || pc.AsnWinner?
    requires s.procs[p].assign.cmd.orderId !in AfterCall(cfg, s, p, pick, page).released
    ensures CallOk(AfterCall(cfg, s, p, pick, page), p, AfterCall(cfg, s, p, pick, page).procs[p].assign)
  {
    var pc := s.procs[p].assign;
    assert CallOk(s, p, pc);
    if pc.AsnBegin? || pc.AsnWinner? {
      CarrierIsHeld(s.db.couriers, pc.cmd.orderId);
    }
  }

  /** The stepping call knows what it needs at its next stop. */
  lemma SteppingCallStaysOk(cfg: Config, s: Sys, p: Pid, pick: CourierId, page: seq<Courier>)
    requires Inv(cfg, s) && AssignInv(s) && p in s.procs && s.procs[p].AssignProc?
    requires s.procs[p].assign.cmd.orderId !in AfterCall(cfg, s, p, pick, page).released
    ensures CallOk(AfterCall(cfg, s, p, pick, page), p, AfterCall(cfg, s, p, pick, page).procs[p].assign)
  {
    var pc := s.procs[p].assign;
    assert CallOk(s, p, pc) && OrderOk(s, pc.cmd.orderId) && ProcOk(cfg.dist, s.db.docs, s.db.events, s.procs[p]);
    if pc.AsnBegin? || pc.AsnLocate? || pc.AsnClaim? || pc.AsnWinner? {
      ClaimingCallStaysOk(cfg, s, p, pick, page);
    } else if pc.AsnRoute? {
      RouteReadStaysOk(cfg, s, p, pick, page);
    } else {
      RoutingCallStaysOk(cfg, s, p, pick, page);
    }
  }

  lemma CarrierIsHeld(couriers: Couriers, o: OrderId)
    requires CouriersOk(couriers)
    ensures IsCarried(couriers, o) ==> HoldsCarrier(couriers, CarrierOf(couriers, o).value, o)
  {
  }

  lemma EveryCallStaysOk(cfg: Config, s: Sys, p: Pid, pick: CourierId, page: seq<Courier>, q: Pid)
    requires Inv(cfg, s) && AssignInv(s) && p in s.procs && FreshReplacement(s, Call(p, pick, page))
    requires var s' := AfterCall(cfg, s, p, pick, page);
             q in s'.procs && s'.procs[q].AssignProc? && s'.procs[q].assign.cmd.orderId !in s'.released
    ensures var s' := AfterCall(cfg, s, p, pick, page); CallOk(s', q, s'.procs[q].assign)
  {
    if q == p {
      SteppingCallStaysOk(cfg, s, p, pick, page);
    } else {
      OtherCallStaysOk(cfg, s, p, pick, page, q, s.procs[q].assign);
    }
  }

  lemma CallKeepsAssignInv(cfg: Config, s: Sys, p: Pid, pick: CourierId, page: seq<Courier>)
    requires Inv(cfg, s) && AssignInv(s) && p in s.procs && FreshReplacement(s, Call(p, pick, page))
    ensures AssignInv(AfterCall(cfg, s, p, pick, page))
  {
    var s' := AfterCall(cfg, s, p, pick, page);
    ClocksStayOk(cfg, s, p, pick, page);
    forall o ensures OrderOk(s', o) {
      OrderStaysOk(cfg, s, p, pick, page, o);
    }
    forall q | q in s'.procs && s'.procs[q].AssignProc? && s'.procs[q].assign.cmd.orderId !in s'.released
      ensures CallOk(s', q, s'.procs[q].assign)
    {
      EveryCallStaysOk(cfg, s, p, pick, page, q);
    }
  }

  lemma StepKeepsAssignInv(cfg: Config, s: Sys, a: Action)
    requires Inv(cfg, s) && AssignInv(s) && FreshReplacement(s, a)
    ensures AssignInv(Apply(cfg, s, a))
  {
    if a.Call? && a.p in s.procs {
      CallKeepsAssignInv(cfg, s, a.p, a.pick, a.page);
    } else {
      QuietActionKeepsAssignInv(cfg, s, a);
    }
  }

  lemma QuietActionKeepsAssignInv(cfg: Config, s: Sys, a: Action)
    requires AssignInv(s) && !(a.Call? && a.p in s.procs)
    ensures AssignInv(Apply(cfg, s, a))
  {
    var s' := Apply(cfg, s, a);
    forall o ensures OrderOk(s', o) {
      assert OrderOk(s, o);
    }
    forall q | q in s'.procs && s'.procs[q].AssignProc? && s'.procs[q].assign.cmd.orderId !in s'.released
      ensures CallOk(s', q, s'.procs[q].assign)
    {
      assert q in s.procs ==> s.procs[q] == s'.procs[q];
    }
  }

  lemma {:induction false} RunKeepsAssignInv(cfg: Config, s: Sys, actions: seq<Action>)
    requires Inv(cfg, s) && AssignInv(s) && FreshRun(cfg, s, actions)
    ensures AssignInv(Exec(cfg, s, actions))
    decreases |actions|
  {
    if actions != [] {
      StepKeepsInv(cfg, s, actions[0]);
      StepKeepsAssignInv(cfg, s, actions[0]);
      RunKeepsAssignInv(cfg, Apply(cfg, s, actions[0]), actions[1..]);
    }
  }

  // ---------- what callers may rely on ----------

  ghost predicate Answers(s: Sys, p: Pid, orderId: OrderId) {
    p in s.procs && s.procs[p].AssignProc? && s.procs[p].assign.AsnDone?
    && s.procs[p].assign.cmd.orderId == orderId && s.procs[p].assign.result.Assigned?
  }

  /**
   * However assignment calls for an order that is not released interleave: at most one reports a new
   * assignment, all report the same courier, and those that report a route report the same one.
   */
  lemma AssignmentCallsAgree(cfg: Config, s: Sys, actions: seq<Action>, p: Pid, q: Pid, orderId: OrderId)
    requires Init(cfg, s) && FreshRun(cfg, s, actions)
    requires var x := Exec(cfg, s, actions);
             orderId !in x.released && p != q && Answers(x, p, orderId) && Answers(x, q, orderId)
    ensures var x := Exec(cfg, s, actions);
            var a, b := x.procs[p].assign.result, x.procs[q].assign.result;
            && (a.reused || b.reused)
            && a.courier.id == b.courier.id && a.courier.lastAssignedAt == b.courier.lastAssignedAt
            && Carries(x.db.couriers, a.courier.id, orderId)
            && (a.route.Some? && b.route.Some? ==>
                  Key(a.route.value) == Key(b.route.value) && SamePlan(a.route.value, b.route.value)
                  && EtaOf(a.route) == EtaOf(b.route))
            && (a.route.Some? ==> a.route.value.courierId == a.courier.id)
  {
    InitIsInv(cfg, s);
    RunKeepsInv(cfg, s, actions);
    RunKeepsAssignInv(cfg, s, actions);
    var x := Exec(cfg, s, actions);
    assert CallOk(x, p, x.procs[p].assign) && CallOk(x, q, x.procs[q].assign);
    assert OrderOk(x, orderId);
    if x.procs[p].assign.result.route.Some? {
      var id :| Carries(x.db.couriers, id, orderId)
        && BelongsToAssignment(x.db.docs.routes[orderId], x.db.couriers[id]);
    }
  }

  /**
   * "No courier" is answered only after the pool around the order's market was empty and, later, nobody carried the
   * order.
   */
  lemma NoCourierIsHonest(cfg: Config, s: Sys, actions: seq<Action>, p: Pid, cmd: Command)
    requires Init(cfg, s)
    requires var x := Exec(cfg, s, actions); p in x.procs && x.procs[p] == AssignProc(AsnDone(cmd, NoCourier))
    ensures exists i: nat, j: nat, m, near, at :: i < j < |actions|
              && InCall(At(cfg, s, actions, i), p, AsnClaim(cmd, m, near, at))
              && cmd.marketId in cfg.markets && near == cfg.markets[cmd.marketId]
              && PoolIsEmpty(cfg.dist, near, cfg.pool, At(cfg, s, actions, i).db.couriers)
              && InCall(At(cfg, s, actions, j), p, AsnWinner(cmd, m, false))
              && !IsCarried(At(cfg, s, actions, j).db.couriers, cmd.orderId)
  {
    assert actions[..|actions|] == actions;
    var j, m := NobodyWon(cfg, s, actions, |actions|, p, cmd);
    var i, near, at := PoolWasEmpty(cfg, s, actions, j, p, cmd, m);
    ClaimsLookAroundTheMarket(cfg, s, actions, i, p, cmd, m, near, at);
  }

  ghost predicate InCall(s: Sys, p: Pid, pc: AssignPc) {
    p in s.procs && s.procs[p] == AssignProc(pc)
  }

  lemma {:induction false} NobodyWon(cfg: Config, s: Sys, actions: seq<Action>, n: nat, p: Pid, cmd: Command)
    returns (j: nat, m: Movement)
    requires Init(cfg, s) && n <= |actions| && InCall(At(cfg, s, actions, n), p, AsnDone(cmd, NoCourier))
    ensures j < n && InCall(At(cfg, s, actions, j), p, AsnWinner(cmd, m, false))
    ensures !IsCarried(At(cfg, s, actions, j).db.couriers, cmd.orderId)
  {
    assert actions[..0] == [];
    if n == 0 {
      assert false;
    }
    NextState(cfg, s, actions, n - 1);
    var before := At(cfg, s, actions, n - 1);
    if InCall(before, p, AsnDone(cmd, NoCourier)) {
      j, m := NobodyWon(cfg, s, actions, n - 1, p, cmd);
    } else {
      j, m := n - 1, before.procs[p].assign.movement;
    }
  }

  lemma {:induction false} PoolWasEmpty(cfg: Config, s: Sys, actions: seq<Action>, n: nat, p: Pid, cmd: Command,
                                        m: Movement)
    returns (i: nat, near: GeoPoint, at: Instant)
    requires Init(cfg, s) && n <= |actions| && InCall(At(cfg, s, actions, n), p, AsnWinner(cmd, m, false))
    ensures i < n && InCall(At(cfg, s, actions, i), p, AsnClaim(cmd, m, near, at))
    ensures PoolIsEmpty(cfg.dist, near, cfg.pool, At(cfg, s, actions, i).db.couriers)
  {
    assert actions[..0] == [];
    if n == 0 {
      assert false;
    }
    NextState(cfg, s, actions, n - 1);
    var before := At(cfg, s, actions, n - 1);
    if InCall(before, p, AsnWinner(cmd, m, false)) {
      i, near, at := PoolWasEmpty(cfg, s, actions, n - 1, p, cmd, m);
    } else {
      i, near, at := n - 1, before.procs[p].assign.near, before.procs[p].assign.at;
    }
  }

  /** The pool is searched around the market of the call. */
  lemma {:induction false} ClaimsLookAroundTheMarket(cfg: Config, s: Sys, actions: seq<Action>, n: nat, p: Pid,
                                                     cmd: Command, m: Movement, near: GeoPoint, at: Instant)
    requires Init(cfg, s) && n <= |actions| && InCall(At(cfg, s, actions, n), p, AsnClaim(cmd, m, near, at))
    ensures cmd.marketId in cfg.markets && near == cfg.markets[cmd.marketId]
  {
    assert actions[..0] == [];
    if n == 0 {
      assert false;
    }
    NextState(cfg, s, actions, n - 1);
    if InCall(At(cfg, s, actions, n - 1), p, AsnClaim(cmd, m, near, at)) {
      ClaimsLookAroundTheMarket(cfg, s, actions, n - 1, p, cmd, m, near, at);
    }
  }
}
