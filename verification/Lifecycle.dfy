/**
 * The courier service as a system: any number of ticks, releases, assignments, reconciliations and
 * tracking reads share the stores; every port call is one atomic step, workers may crash between any
 * two of them, and the clock never goes back.
 */
module Lifecycle {
  import opened Common
  import opened Geometry
  import opened Routes
  import opened Stores
  import opened RouteInvariant
  import opened AdvanceRoute
  import opened ReleaseCourier
  import opened AssignCourier
  import opened ReconcileCarriers
  import opened GetTracking
  import opened TickSafety
  import RouteProgress

  type Pid = nat

  type Tick = pc: TickPc | Sensible(pc) witness TickFinished(OutStale)

  datatype Proc =
    | TickProc(tick: Tick)
    | ReleaseProc(release: ReleasePc)
    | AssignProc(assign: AssignPc)
    | ReconcileProc(reconcile: ReconcilePc)
    | TrackProc(track: TrackPc)

  /**
   * The stores, the clock and the workers, with three histories: the identities whose courier a tick freed
   * at delivery, the orders some courier has stopped carrying, and the call that claimed each order's courier.
   */
  datatype Sys = Sys(
    db: Db,
    now: Instant,
    procs: map<Pid, Proc>,
    freedByDelivery: set<RouteKey>,
    released: set<OrderId>,
    claimers: map<OrderId, Pid>)

  datatype Action =
    | Spawn(p: Pid, proc: Proc)
    | Call(p: Pid, pick: CourierId, page: seq<Courier>)
    | Crash(p: Pid)
    | Wait(ms: nat)

  predicate IsEntry(proc: Proc) {
    match proc
    case TickProc(pc) => pc.TickWatch?
    case ReleaseProc(pc) => pc.RelBegin?
    case AssignProc(pc) => pc.AsnBegin?
    case ReconcileProc(pc) => pc.RecBegin?
    case TrackProc(pc) => pc.TrkBegin?
  }

  /** An answered call has nothing left to lose in a crash. */
  predicate IsFinished(proc: Proc) {
    match proc
    case TickProc(pc) => pc.TickFinished?
    case ReleaseProc(pc) => pc.RelDone?
    case AssignProc(pc) => pc.AsnDone?
    case ReconcileProc(pc) => pc.RecDone?
    case TrackProc(pc) => pc.TrkDone?
  }

  ghost function StepProc(cfg: Config, db: Db, proc: Proc, now: Instant, pick: CourierId,
                          page: seq<Courier>): (Db, Proc) {
    match proc
    case TickProc(pc) => var next := TickStep(cfg.dist, db, pc, now); (next.0, TickProc(next.1))
    case ReleaseProc(pc) => var next := ReleaseStep(cfg.dist, db, pc, now); (next.0, ReleaseProc(next.1))
    case AssignProc(pc) => var next := AssignStep(cfg, db, pc, now, pick); (next.0, AssignProc(next.1))
    case ReconcileProc(pc) => var next := ReconcileStep(cfg.dist, db, pc, now, page); (next.0, ReconcileProc(next.1))
    case TrackProc(pc) => (db, TrackProc(TrackStep(db, pc)))
  }

  ghost function CarriedOrders(couriers: Couriers): set<OrderId> {
    set id | id in couriers && couriers[id].currentOrderId.Some? :: couriers[id].currentOrderId.value
  }

  ghost function Histories(s: Sys, p: Pid, proc: Proc, db: Db): Sys {
    s.(db := db,
       freedByDelivery :=
         if proc.TickProc? && proc.tick.TickFreeCourier? && db.couriers != s.db.couriers
         then s.freedByDelivery + {Key(proc.tick.route)} else s.freedByDelivery,
       released := s.released + (CarriedOrders(s.db.couriers) - CarriedOrders(db.couriers)),
       claimers :=
         if proc.AssignProc? && proc.assign.AsnClaim? && db.couriers != s.db.couriers
         then s.claimers[proc.assign.cmd.orderId := p] else s.claimers)
  }

  ghost function Apply(cfg: Config, s: Sys, a: Action): Sys {
    match a
    case Spawn(p, proc) => if p !in s.procs && IsEntry(proc) then s.(procs := s.procs[p := proc]) else s
    case Call(p, pick, page) =>
      if p !in s.procs then s
      else
        var (db, proc) := StepProc(cfg, s.db, s.procs[p], s.now, pick, page);
        Histories(s, p, s.procs[p], db).(procs := s.procs[p := proc])
    case Crash(p) => if p in s.procs && !IsFinished(s.procs[p]) then s.(procs := s.procs - {p}) else s
    case Wait(ms) => s.(now := s.now + ms)
  }

  /** The assumption on reassignments: a replacement route carries an identity never used before. */
  ghost predicate FreshReplacement(s: Sys, a: Action) {
    a.Call? && a.p in s.procs && s.procs[a.p].AssignProc? && s.procs[a.p].assign.AsnReplace?
    ==> Key(s.procs[a.p].assign.route) !in s.db.docs.archive
  }

  ghost predicate FreshRun(cfg: Config, s: Sys, actions: seq<Action>)
    decreases |actions|
  {
    actions == [] || (FreshReplacement(s, actions[0]) && FreshRun(cfg, Apply(cfg, s, actions[0]), actions[1..]))
  }

  ghost function Exec(cfg: Config, s: Sys, actions: seq<Action>): Sys
    decreases |actions|
  {
    if actions == [] then s else Exec(cfg, Apply(cfg, s, actions[0]), actions[1..])
  }

  /** A run starts with no worker, sound stores, and every stored order counted as assigned before. */
  ghost predicate Init(cfg: Config, s: Sys) {
    && DbOk(cfg.dist, s.db) && CouriersOk(s.db.couriers)
    && s.procs == map[] && s.freedByDelivery == {} && s.claimers == map[]
    && s.released == s.db.docs.routes.Keys
    && (forall id :: id in s.db.couriers && s.db.couriers[id].lastAssignedAt.Some? ==>
          s.db.couriers[id].lastAssignedAt.value <= s.now)
  }

  // ---------- what each worker knows ----------

  ghost predicate DecisionOk(docs: Docs, decision: Decision) {
    match decision
    case DeliveryWins(route) => Key(route) in docs.archive && docs.archive[Key(route)].deliveredAt.Some?
    case Cancelled(location, ended) =>
      && (location.Some? ==> ended.Some?)
      && (ended.Some? ==> Key(ended.value) in docs.archive && StateOf(docs.archive[Key(ended.value)]) == Ended)
  }

  ghost predicate ReleaseOk(dist: Metric, docs: Docs, events: seq<RouteEvent>, pc: ReleasePc) {
    match pc
    case RelEnd(_, route, _, _, _) => IsCopy(dist, docs, events, route)
    case RelReread(_, route, _, _, _) => IsCopy(dist, docs, events, route)
    case RelFree(_, _, decision, _) => DecisionOk(docs, decision)
    case RelDone(_, result) => result.Decided? ==> DecisionOk(docs, result.decision)
    case _ => true
  }

  predicate Blank(route: Route) {
    StateOf(route) == Moving && PlanOf(route) == route.(state := None)
  }

  ghost predicate AssignOk(pc: AssignPc) {
    match pc
    case AsnInsert(cmd, route, _, _) => Blank(route) && route.orderId == cmd.orderId
    case AsnReplace(cmd, route, _, _) => Blank(route) && route.orderId == cmd.orderId
    case _ => true
  }

  ghost predicate ReconcileOk(dist: Metric, docs: Docs, events: seq<RouteEvent>, pc: ReconcilePc) {
    pc.RecLoop? ==> forall o :: o in pc.routes ==> pc.routes[o].orderId == o && IsCopy(dist, docs, events, pc.routes[o])
  }

  ghost predicate TrackOk(dist: Metric, docs: Docs, events: seq<RouteEvent>, pc: TrackPc) {
    match pc
    case TrkBegin(_) => true
    case TrkCourier(orderId, first) => first.orderId == orderId && IsCopy(dist, docs, events, first)
    case TrkReread(orderId, first, _) => first.orderId == orderId && IsCopy(dist, docs, events, first)
    case TrkDone(answer) => answer.Tracked? ==> IsCopy(dist, docs, events, answer.route)
  }

  ghost predicate ProcOk(dist: Metric, docs: Docs, events: seq<RouteEvent>, proc: Proc) {
    match proc
    case TickProc(pc) => TickOk(dist, docs, events, pc)
    case ReleaseProc(pc) => ReleaseOk(dist, docs, events, pc)
    case AssignProc(pc) => AssignOk(pc)
    case ReconcileProc(pc) => ReconcileOk(dist, docs, events, pc)
    case TrackProc(pc) => TrackOk(dist, docs, events, pc)
  }

  ghost predicate Inv(cfg: Config, s: Sys) {
    && DbOk(cfg.dist, s.db) && CouriersOk(s.db.couriers)
    && (forall p :: p in s.procs ==> ProcOk(cfg.dist, s.db.docs, s.db.events, s.procs[p]))
    && (forall k :: k in s.freedByDelivery ==> k in s.db.docs.archive && s.db.docs.archive[k].deliveredAt.Some?)
  }

  /** What one worker knows survives the steps of all the others. */
  lemma ProcOkSurvives(dist: Metric, db: Db, db': Db, proc: Proc)
    requires ProcOk(dist, db.docs, db.events, proc) && Grows(db.docs, db'.docs) && Extends(db.events, db'.events)
    ensures ProcOk(dist, db'.docs, db'.events, proc)
  {
    match proc
    case TickProc(pc) => TickOkSurvives(dist, db.docs, db.events, db'.docs, db'.events, pc);
    case ReleaseProc(pc) =>
      if pc.RelEnd? || pc.RelReread? {
        CopySurvives(dist, db.docs, db.events, db'.docs, db'.events, pc.route);
      }
    case AssignProc(pc) =>
    case ReconcileProc(pc) =>
      if pc.RecLoop? {
        forall o | o in pc.routes ensures IsCopy(dist, db'.docs, db'.events, pc.routes[o]) {
          CopySurvives(dist, db.docs, db.events, db'.docs, db'.events, pc.routes[o]);
        }
      }
    case TrackProc(pc) =>
      if pc.TrkCourier? || pc.TrkReread? {
        CopySurvives(dist, db.docs, db.events, db'.docs, db'.events, pc.first);
      }
      if pc.TrkDone? && pc.answer.Tracked? {
        CopySurvives(dist, db.docs, db.events, db'.docs, db'.events, pc.answer.route);
      }
  }

  // ---------- one step of each kind of worker ----------

  ghost predicate CallKeeps(cfg: Config, db: Db, db': Db, proc': Proc) {
    && KeepsDb(cfg.dist, db, db') && CouriersOk(db'.couriers)
    && ProcOk(cfg.dist, db'.docs, db'.events, proc')
  }

  lemma NothingWritten(cfg: Config, db: Db, db': Db)
    requires DbOk(cfg.dist, db) && db'.docs == db.docs && db'.events == db.events
    ensures KeepsDb(cfg.dist, db, db')
  {
  }

  lemma CurrentRouteIsCopy(dist: Metric, db: Db, orderId: OrderId)
    requires DbOk(dist, db) && orderId in db.docs.routes
    ensures db.docs.routes[orderId].orderId == orderId && IsCopy(dist, db.docs, db.events, db.docs.routes[orderId])
  {
  }

  lemma ReleaseKeepsCouriersOk(couriers: Couriers, orderId: OrderId, at: Instant, courierId: CourierId,
                               location: Option<GeoPoint>)
    requires CouriersOk(couriers)
    ensures CouriersOk(ReleaseCouriers(couriers, orderId, at, courierId, location).0)
  {
  }

  lemma TickCallKeeps(cfg: Config, db: Db, pc: Tick, now: Instant)
    requires DbOk(cfg.dist, db) && CouriersOk(db.couriers) && TickOk(cfg.dist, db.docs, db.events, pc)
    ensures var (db', pc') := TickStep(cfg.dist, db, pc, now); CallKeeps(cfg, db, db', TickProc(pc'))
  {
    TickStepKeeps(cfg.dist, db, pc, now);
    if pc.TickFreeCourier? {
      ReleaseKeepsCouriersOk(db.couriers, pc.route.orderId, pc.deliveredAt, pc.route.courierId,
        RouteProgress.Dropoff(pc.route));
    } else {
      TickLeavesCouriers(cfg.dist, db, pc, now);
    }
  }

  lemma TickLeavesCouriers(dist: Metric, db: Db, pc: Tick, now: Instant)
    requires !pc.TickFreeCourier?
    ensures TickStep(dist, db, pc, now).0.couriers == db.couriers
  {
  }

  lemma RouteDecisionIsOk(dist: Metric, docs: Docs, events: seq<RouteEvent>, route: Route, rule: Movement)
    requires DocsOk(dist, docs, events) && IsCopy(dist, docs, events, route)
    ensures IsDelivered(route) ==> DecisionOk(docs, DeliveryWins(route))
    ensures StateOf(route) == Ended ==> DecisionOk(docs, EndedDecision(dist, route, rule))
  {
  }

  ghost predicate ReleaseCallIsFine(cfg: Config, db: Db, pc: ReleasePc, now: Instant) {
    var (db', pc') := ReleaseStep(cfg.dist, db, pc, now);
    CallKeeps(cfg, db, db', ReleaseProc(pc'))
  }

  lemma ReleaseCallIsKept(cfg: Config, db: Db, pc: ReleasePc, now: Instant, db': Db, pc': ReleasePc)
    requires ReleaseStep(cfg.dist, db, pc, now) == (db', pc') && CallKeeps(cfg, db, db', ReleaseProc(pc'))
    ensures ReleaseCallIsFine(cfg, db, pc, now)
  {
  }

  /** A route as read is a copy of the stored one. */
  ghost predicate IsRead(dist: Metric, docs: Docs, events: seq<RouteEvent>, found: Option<Route>) {
    found.Some? ==> IsCopy(dist, docs, events, found.value)
  }

  lemma ReadIsACopy(dist: Metric, db: Db, orderId: OrderId)
    requires DbOk(dist, db)
    ensures IsRead(dist, db.docs, db.events, FindRoute(db.docs, orderId))
  {
    if orderId in db.docs.routes {
      CurrentRouteIsCopy(dist, db, orderId);
    }
  }

  lemma AfterReadIsOk(dist: Metric, docs: Docs, events: seq<RouteEvent>, found: Option<Route>, orderId: OrderId,
                      carrier: Courier, rule: Movement, at: Instant)
    requires DocsOk(dist, docs, events) && IsRead(dist, docs, events, found)
    ensures ReleaseOk(dist, docs, events, AfterRead(dist, found, orderId, carrier, rule, at))
  {
    if found.Some? {
      RouteDecisionIsOk(dist, docs, events, found.value, rule);
    }
  }

  lemma AfterRereadIsOk(dist: Metric, docs: Docs, events: seq<RouteEvent>, again: Option<Route>, orderId: OrderId,
                        route: Route, carrier: Courier, rule: Movement, at: Instant)
    requires DocsOk(dist, docs, events) && IsRead(dist, docs, events, again)
    ensures ReleaseOk(dist, docs, events, AfterReread(dist, again, orderId, route, carrier, rule, at))
  {
    if again.Some? {
      RouteDecisionIsOk(dist, docs, events, again.value, rule);
    }
  }

  lemma ReleaseReadKeeps(cfg: Config, db: Db, orderId: OrderId, carrier: Courier, rule: Movement, at: Instant,
                         now: Instant)
    requires DbOk(cfg.dist, db) && CouriersOk(db.couriers)
    ensures ReleaseCallIsFine(cfg, db, RelReadRoute(orderId, carrier, rule, at), now)
  {
    NothingWritten(cfg, db, db);
    ReadIsACopy(cfg.dist, db, orderId);
    AfterReadIsOk(cfg.dist, db.docs, db.events, FindRoute(db.docs, orderId), orderId, carrier, rule, at);
  }

  lemma AfterEndIsOk(dist: Metric, docs: Docs, events: seq<RouteEvent>, ended: Option<Route>, orderId: OrderId,
                     route: Route, carrier: Courier, rule: Movement, at: Instant)
    requires IsCopy(dist, docs, events, route)
    requires ended.Some? ==> IsCopy(dist, docs, events, ended.value) && StateOf(ended.value) == Ended
    ensures ReleaseOk(dist, docs, events, AfterEnd(dist, ended, orderId, route, carrier, rule, at))
  {
  }

  lemma ReleaseEndKeeps(cfg: Config, db: Db, orderId: OrderId, route: Route, carrier: Courier, rule: Movement,
                        at: Instant, now: Instant)
    requires DbOk(cfg.dist, db) && CouriersOk(db.couriers) && IsCopy(cfg.dist, db.docs, db.events, route)
    ensures ReleaseCallIsFine(cfg, db, RelEnd(orderId, route, carrier, rule, at), now)
  {
    EndPatchKeeps(cfg.dist, db, route, at);
    var (docs, ended) := UpdateDocs(db.docs, route, EndPatch(at));
    CopySurvives(cfg.dist, db.docs, db.events, docs, db.events, route);
    AfterEndIsOk(cfg.dist, docs, db.events, ended, orderId, route, carrier, rule, at);
    ReleaseCallIsKept(cfg, db, RelEnd(orderId, route, carrier, rule, at), now, db.(docs := docs),
      AfterEnd(cfg.dist, ended, orderId, route, carrier, rule, at));
  }

  lemma ReleaseRereadKeeps(cfg: Config, db: Db, orderId: OrderId, route: Route, carrier: Courier, rule: Movement,
                           at: Instant, now: Instant)
    requires DbOk(cfg.dist, db) && CouriersOk(db.couriers)
    ensures ReleaseCallIsFine(cfg, db, RelReread(orderId, route, carrier, rule, at), now)
  {
    NothingWritten(cfg, db, db);
    ReadIsACopy(cfg.dist, db, route.orderId);
    AfterRereadIsOk(cfg.dist, db.docs, db.events, FindRoute(db.docs, route.orderId), orderId, route, carrier, rule, at);
  }

  lemma ReleaseOtherCallKeeps(cfg: Config, db: Db, pc: ReleasePc, now: Instant)
    requires DbOk(cfg.dist, db) && CouriersOk(db.couriers) && ReleaseOk(cfg.dist, db.docs, db.events, pc)
    requires pc.RelBegin? || pc.RelFindCarrier? || pc.RelFree? || pc.RelDone?
    ensures ReleaseCallIsFine(cfg, db, pc, now)
  {
    NothingWritten(cfg, db, ReleaseStep(cfg.dist, db, pc, now).0);
    if pc.RelFree? {
      ReleaseKeepsCouriersOk(db.couriers, pc.orderId, pc.at, pc.carrier.id,
        if pc.decision.Cancelled? then pc.decision.location else None);
    }
  }

  lemma ReleaseCallKeeps(cfg: Config, db: Db, pc: ReleasePc, now: Instant)
    requires DbOk(cfg.dist, db) && CouriersOk(db.couriers) && ReleaseOk(cfg.dist, db.docs, db.events, pc)
    ensures ReleaseCallIsFine(cfg, db, pc, now)
  {
    match pc
    case RelReadRoute(orderId, carrier, rule, at) => ReleaseReadKeeps(cfg, db, orderId, carrier, rule, at, now);
    case RelEnd(orderId, route, carrier, rule, at) => ReleaseEndKeeps(cfg, db, orderId, route, carrier, rule, at, now);
    case RelReread(orderId, route, carrier, rule, at) =>
      ReleaseRereadKeeps(cfg, db, orderId, route, carrier, rule, at, now);
    case _ => ReleaseOtherCallKeeps(cfg, db, pc, now);
  }

  ghost predicate AssignCallIsFine(cfg: Config, db: Db, pc: AssignPc, now: Instant, pick: CourierId) {
    var (db', pc') := AssignStep(cfg, db, pc, now, pick);
    CallKeeps(cfg, db, db', AssignProc(pc'))
  }

  lemma PlanIsStored(cfg: Config, db: Db, route: Route)
    requires DbOk(cfg.dist, db) && Blank(route) && Key(route) !in db.docs.archive
    ensures KeepsDb(cfg.dist, db, db.(docs := Write(db.docs, route)))
  {
    WriteKeepsDocsOk(cfg.dist, db.docs, db.events, route);
    EventsOkSurvives(db.docs, Write(db.docs, route), db.events);
  }

  lemma StoringCallKeeps(cfg: Config, db: Db, pc: AssignPc, now: Instant, pick: CourierId)
    requires DbOk(cfg.dist, db) && CouriersOk(db.couriers) && AssignOk(pc) && (pc.AsnInsert? || pc.AsnReplace?)
    requires pc.AsnReplace? ==> Key(pc.route) !in db.docs.archive
    ensures AssignCallIsFine(cfg, db, pc, now, pick)
  {
    if pc.AsnReplace? || pc.cmd.orderId !in db.docs.routes {
      PlanIsStored(cfg, db, pc.route);
    } else {
      NothingWritten(cfg, db, db);
    }
  }

  lemma ClaimCallKeeps(cfg: Config, db: Db, pc: AssignPc, now: Instant, pick: CourierId)
    requires DbOk(cfg.dist, db) && CouriersOk(db.couriers) && pc.AsnClaim?
    ensures AssignCallIsFine(cfg, db, pc, now, pick)
  {
    var db' := AssignStep(cfg, db, pc, now, pick).0;
    NothingWritten(cfg, db, db');
    if db'.couriers != db.couriers {
      ClaimKeepsCouriersOk(db.couriers, Chosen(cfg, db.couriers, pc.near, pick), pc.cmd.orderId, pc.at);
    }
  }

  lemma OtherAssignCallKeeps(cfg: Config, db: Db, pc: AssignPc, now: Instant, pick: CourierId)
    requires DbOk(cfg.dist, db) && CouriersOk(db.couriers) && AssignOk(pc)
    requires !pc.AsnClaim? && !pc.AsnInsert? && !pc.AsnReplace?
    ensures AssignCallIsFine(cfg, db, pc, now, pick)
  {
    NothingWritten(cfg, db, db);
  }

  lemma AssignCallKeeps(cfg: Config, db: Db, pc: AssignPc, now: Instant, pick: CourierId)
    requires DbOk(cfg.dist, db) && CouriersOk(db.couriers) && AssignOk(pc)
    requires pc.AsnReplace? ==> Key(pc.route) !in db.docs.archive
    ensures AssignCallIsFine(cfg, db, pc, now, pick)
  {
    if pc.AsnInsert? || pc.AsnReplace? {
      StoringCallKeeps(cfg, db, pc, now, pick);
    } else if pc.AsnClaim? {
      ClaimCallKeeps(cfg, db, pc, now, pick);
    } else {
      OtherAssignCallKeeps(cfg, db, pc, now, pick);
    }
  }

  lemma ReconcileCallKeeps(cfg: Config, db: Db, pc: ReconcilePc, now: Instant, page: seq<Courier>)
    requires DbOk(cfg.dist, db) && CouriersOk(db.couriers) && ReconcileOk(cfg.dist, db.docs, db.events, pc)
    ensures var (db', pc') := ReconcileStep(cfg.dist, db, pc, now, page); CallKeeps(cfg, db, db', ReconcileProc(pc'))
  {
    var (db', pc') := ReconcileStep(cfg.dist, db, pc, now, page);
    NothingWritten(cfg, db, db');
    if pc.RecRoutes? {
      forall o | o in pc'.routes
        ensures pc'.routes[o].orderId == o && IsCopy(cfg.dist, db.docs, db.events, pc'.routes[o])
      {
        CurrentRouteIsCopy(cfg.dist, db, o);
      }
    }
    if pc.RecLoop? && pc.carriers != [] && HeadRelease(cfg.dist, pc).Some? {
      var (carrier, route, stuck) := HeadRelease(cfg.dist, pc).value;
      ReleaseKeepsCouriersOk(db.couriers, route.orderId, stuck.at, carrier.id, stuck.location);
    }
  }

  lemma TrackCallKeeps(cfg: Config, db: Db, pc: TrackPc)
    requires DbOk(cfg.dist, db) && CouriersOk(db.couriers) && TrackOk(cfg.dist, db.docs, db.events, pc)
    ensures CallKeeps(cfg, db, db, TrackProc(TrackStep(db, pc)))
  {
    NothingWritten(cfg, db, db);
    if (pc.TrkBegin? || pc.TrkReread?) && pc.orderId in db.docs.routes {
      CurrentRouteIsCopy(cfg.dist, db, pc.orderId);
    }
  }

  lemma CallKeepsEverything(cfg: Config, db: Db, proc: Proc, now: Instant, pick: CourierId, page: seq<Courier>)
    requires DbOk(cfg.dist, db) && CouriersOk(db.couriers) && ProcOk(cfg.dist, db.docs, db.events, proc)
    requires proc.AssignProc? && proc.assign.AsnReplace? ==> Key(proc.assign.route) !in db.docs.archive
    ensures var (db', proc') := StepProc(cfg, db, proc, now, pick, page); CallKeeps(cfg, db, db', proc')
  {
    match proc
    case TickProc(pc) => TickCallKeeps(cfg, db, pc, now);
    case ReleaseProc(pc) => ReleaseCallKeeps(cfg, db, pc, now);
    case AssignProc(pc) => AssignCallKeeps(cfg, db, pc, now, pick);
    case ReconcileProc(pc) => ReconcileCallKeeps(cfg, db, pc, now, page);
    case TrackProc(pc) => TrackCallKeeps(cfg, db, pc);
  }

  // ---------- one step of the system ----------

  lemma InitIsInv(cfg: Config, s: Sys)
    requires Init(cfg, s)
    ensures Inv(cfg, s)
  {
  }

  lemma OthersKeepKnowing(cfg: Config, s: Sys, p: Pid, db: Db, proc: Proc, procs: map<Pid, Proc>)
    requires procs == s.procs[p := proc]
    requires forall q :: q in s.procs ==> ProcOk(cfg.dist, s.db.docs, s.db.events, s.procs[q])
    requires Grows(s.db.docs, db.docs) && Extends(s.db.events, db.events) && ProcOk(cfg.dist, db.docs, db.events, proc)
    ensures forall q :: q in procs ==> ProcOk(cfg.dist, db.docs, db.events, procs[q])
  {
    forall q | q in s.procs && q != p ensures ProcOk(cfg.dist, db.docs, db.events, s.procs[q]) {
      ProcOkSurvives(cfg.dist, s.db, db, s.procs[q]);
    }
  }

  /** An identity enters the history of freed deliveries only with its delivery recorded. */
  lemma FreedDeliveriesAreRecorded(cfg: Config, s: Sys, p: Pid, db: Db)
    requires Inv(cfg, s) && p in s.procs && Grows(s.db.docs, db.docs)
    ensures forall k :: k in Histories(s, p, s.procs[p], db).freedByDelivery ==>
              k in db.docs.archive && db.docs.archive[k].deliveredAt.Some?
  {
    var proc := s.procs[p];
    assert ProcOk(cfg.dist, s.db.docs, s.db.events, proc);
    forall k | k in Histories(s, p, proc, db).freedByDelivery
      ensures k in db.docs.archive && db.docs.archive[k].deliveredAt.Some?
    {
      if k !in s.freedByDelivery {
        assert IsCopy(cfg.dist, s.db.docs, s.db.events, proc.tick.route);
      }
      assert Older(s.db.docs.archive[k], db.docs.archive[k]);
    }
  }

  /** What every step of the system does to the invariant and to what is already recorded. */
  ghost predicate Preserves(cfg: Config, s: Sys, s': Sys) {
    Inv(cfg, s') && Grows(s.db.docs, s'.db.docs) && Extends(s.db.events, s'.db.events)
  }

  lemma CallKeepsInv(cfg: Config, s: Sys, p: Pid, pick: CourierId, page: seq<Courier>)
    requires Inv(cfg, s) && p in s.procs && FreshReplacement(s, Call(p, pick, page))
    ensures Preserves(cfg, s, Apply(cfg, s, Call(p, pick, page)))
  {
    var (db, proc) := StepProc(cfg, s.db, s.procs[p], s.now, pick, page);
    CallKeepsEverything(cfg, s.db, s.procs[p], s.now, pick, page);
    OthersKeepKnowing(cfg, s, p, db, proc, s.procs[p := proc]);
    FreedDeliveriesAreRecorded(cfg, s, p, db);
    var h := Histories(s, p, s.procs[p], db);
    assert Apply(cfg, s, Call(p, pick, page)) == h.(procs := s.procs[p := proc]);
  }

  lemma StepKeepsInv(cfg: Config, s: Sys, a: Action)
    requires Inv(cfg, s) && FreshReplacement(s, a)
    ensures Preserves(cfg, s, Apply(cfg, s, a))
  {
    if a.Call? && a.p in s.procs {
      CallKeepsInv(cfg, s, a.p, a.pick, a.page);
    } else {
      QuietActionKeepsInv(cfg, s, a);
    }
  }

  lemma SpawnKeepsInv(cfg: Config, s: Sys, p: Pid, proc: Proc)
    requires Inv(cfg, s) && IsEntry(proc)
    ensures Inv(cfg, s.(procs := s.procs[p := proc]))
  {
    assert ProcOk(cfg.dist, s.db.docs, s.db.events, proc);
  }

  lemma QuietActionKeepsInv(cfg: Config, s: Sys, a: Action)
    requires Inv(cfg, s) && !(a.Call? && a.p in s.procs)
    ensures Preserves(cfg, s, Apply(cfg, s, a))
  {
    if a.Spawn? && a.p !in s.procs && IsEntry(a.proc) {
      SpawnKeepsInv(cfg, s, a.p, a.proc);
    }
    NothingWritten(cfg, s.db, s.db);
  }

  lemma PreservesIsTransitive(cfg: Config, a: Sys, b: Sys, c: Sys)
    requires Preserves(cfg, a, b) && Preserves(cfg, b, c)
    ensures Preserves(cfg, a, c)
  {
    GrowsIsTransitive(a.db.docs, b.db.docs, c.db.docs);
  }

  lemma {:induction false} RunKeepsInv(cfg: Config, s: Sys, actions: seq<Action>)
    requires Inv(cfg, s) && FreshRun(cfg, s, actions)
    ensures Preserves(cfg, s, Exec(cfg, s, actions))
    decreases |actions|
  {
    if actions == [] {
      NothingWritten(cfg, s.db, s.db);
    } else {
      var next := Apply(cfg, s, actions[0]);
      StepKeepsInv(cfg, s, actions[0]);
      RunKeepsInv(cfg, next, actions[1..]);
      PreservesIsTransitive(cfg, s, next, Exec(cfg, next, actions[1..]));
    }
  }
}
