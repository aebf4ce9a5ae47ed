/**
 * The instants a run records and announces for one route. A route without its own movement rule is timed by whatever
 * rule a tick was started with, so the instants depend on all the rules in force.
 */
module RouteTimes {
  import opened Common
  import opened Geometry
  import opened Routes
  import opened RouteProgress
  import opened Stores
  import opened RouteInvariant
  import opened AdvanceRoute
  import opened ReleaseCourier
  import opened AssignCourier
  import opened TickSafety
  import opened Lifecycle
  import opened Outcomes

  function ArrivalInstant(dist: Metric, route: Route, rule: Movement): Instant {
    route.createdAt + MilestonesOf(dist, route, rule).arrivalMs
  }

  /** One planned route, the rules its ticks may carry, and which instants of it count as right. */
  datatype Times = Times(plan: Route, rules: set<Movement>, pickup: Instant -> bool, delivery: Instant -> bool)

  /** What a tick computes from right instants is right. */
  ghost predicate IsClosed(dist: Metric, times: Times) {
    && (forall rule :: rule in times.rules ==> times.pickup(PickupInstant(dist, times.plan, rule)))
    && (forall rule :: rule in times.rules ==> times.delivery(ArrivalInstant(dist, times.plan, rule)))
    && (forall rule, at :: rule in times.rules && times.pickup(at) ==>
          times.delivery(ArrivalInstant(dist, times.plan.(pickedUpAt := Some(at)), rule)))
    && (forall at, picked :: times.delivery(at) && times.pickup(picked) ==>
          times.delivery(DeliveredNoEarlierThan(at, Some(picked))))
  }

  // ---------- right instants in documents, workers and events ----------

  predicate Right(times: Times, picked: Option<Instant>, delivered: Option<Instant>) {
    && (picked.Some? ==> times.pickup(picked.value))
    && (delivered.Some? ==> times.delivery(delivered.value))
  }

  predicate IsRight(times: Times, r: Route) {
    PlanOf(r) == times.plan ==> Right(times, r.pickedUpAt, r.deliveredAt)
  }

  predicate LocalsRight(times: Times, r: Route, t: Locals) {
    PlanOf(r) == times.plan ==> Right(times, t.progress.pickedUpAt, t.progress.deliveredAt)
  }

  predicate DeliveryRight(times: Times, r: Route, deliveredAt: Instant) {
    PlanOf(r) == times.plan ==> times.delivery(deliveredAt)
  }

  predicate RuleFits(times: Times, orderId: OrderId, rule: Movement) {
    orderId == times.plan.orderId ==> rule in times.rules
  }

  predicate TickRight(times: Times, pc: TickPc) {
    match pc
    case TickWatch(orderId, rule) => RuleFits(times, orderId, rule)
    case TickListed(route, rule) => IsRight(times, route) && RuleFits(times, route.orderId, rule)
    case TickBegin(route, _, rule) => IsRight(times, route) && RuleFits(times, route.orderId, rule)
    case TickEnd(_, _) => true
    case TickRecordPickup(route, t) => IsRight(times, route) && LocalsRight(times, route, t)
    case TickPublishPickup(route, t) => IsRight(times, route) && LocalsRight(times, route, t)
    case TickFlagPickup(route, t) => IsRight(times, route) && LocalsRight(times, route, t)
    case TickRecordDelivery(route, t) => IsRight(times, route) && LocalsRight(times, route, t)
    case TickConfirm(route, deliveredAt) => DeliveryRight(times, route, deliveredAt)
    case TickFreeCourier(route, deliveredAt) => DeliveryRight(times, route, deliveredAt)
    case TickPublishDelivery(route, deliveredAt) => DeliveryRight(times, route, deliveredAt)
    case TickFlagDone(_, _) => true
    case TickSaveLive(_, _) => true
    case TickFinished(_) => true
  }

  ghost predicate DocsRight(times: Times, docs: Docs) {
    forall k :: k in docs.archive ==> IsRight(times, docs.archive[k])
  }

  /** The plan is the one stored under its identity. */
  predicate IsStored(docs: Docs, plan: Route) {
    Key(plan) in docs.archive && PlanOf(docs.archive[Key(plan)]) == plan
  }

  predicate EventRight(times: Times, e: RouteEvent) {
    match e
    case PickedUpEvent(_, _, at) => times.pickup(at)
    case DeliveredEvent(_, at) => times.delivery(at)
  }

  ghost predicate EventsRight(times: Times, docs: Docs, events: seq<RouteEvent>) {
    IsStored(docs, times.plan) ==> forall e :: e in events && e.key == Key(times.plan) ==> EventRight(times, e)
  }

  // ---------- the decisions of a tick ----------

  lemma ProgressIsRight(dist: Metric, times: Times, route: Route, rule: Movement, now: Instant)
    requires IsClosed(dist, times) && IsRight(times, route) && RuleFits(times, route.orderId, rule)
    requires PlanOf(route) == times.plan
    ensures var p := ProgressAt(dist, route, now, rule); Right(times, p.pickedUpAt, p.deliveredAt)
  {
    ProgressNumbers(dist, route, now, rule);
    TimesOfACopy(dist, route, rule);
  }

  /** A copy's milestones depend on its plan and its recorded pickup only. */
  lemma TimesOfACopy(dist: Metric, route: Route, rule: Movement)
    ensures var planned := PlanOf(route).(pickedUpAt := route.pickedUpAt);
            && ArrivalInstant(dist, route, rule) == ArrivalInstant(dist, planned, rule)
            && PickupInstant(dist, route, rule) == PickupInstant(dist, planned, rule)
            && (route.pickedUpAt.Some? ==> PickupInstant(dist, route, rule) == route.pickedUpAt.value)
            && (route.pickedUpAt.None? ==> planned == PlanOf(route))
  {
    var planned := PlanOf(route).(pickedUpAt := route.pickedUpAt);
    var own := MovementOf(route, rule);
    assert RouteSchedule(dist, planned, own) == RouteSchedule(dist, route, own);
  }

  lemma AfterPickupIsRight(times: Times, current: Route, t: Locals)
    requires IsRight(times, current) && LocalsRight(times, current, t)
    ensures TickRight(times, AfterPickup(current, t)) && TickRight(times, AfterPublish(current, t))
  {
  }

  lemma BeginIsRight(dist: Metric, times: Times, route: Route, courier: Option<Courier>, rule: Movement, now: Instant)
    requires IsClosed(dist, times) && IsRight(times, route) && RuleFits(times, route.orderId, rule)
    ensures TickRight(times, Begin(dist, route, courier, rule, now))
  {
    var progress := ProgressAt(dist, route, now, rule);
    if PlanOf(route) == times.plan {
      ProgressIsRight(dist, times, route, rule, now);
    }
    AfterPickupIsRight(times, route, Locals(now, progress, OutMoving));
  }

  // ---------- the port calls ----------

  /** Every current route is the archived version of its identity. */
  ghost predicate Filed(docs: Docs) {
    forall o :: o in docs.routes ==>
      docs.routes[o].orderId == o && Key(docs.routes[o]) in docs.archive
        && docs.archive[Key(docs.routes[o])] == docs.routes[o]
  }

  ghost predicate IsVersion(docs: Docs, route: Route) {
    Key(route) in docs.archive && SamePlan(route, docs.archive[Key(route)])
  }

  lemma FiledDocs(dist: Metric, docs: Docs, events: seq<RouteEvent>)
    requires DocsOk(dist, docs, events)
    ensures Filed(docs) && forall k :: k in docs.archive ==> Key(docs.archive[k]) == k
  {
  }

  lemma FoundIsRight(times: Times, docs: Docs, orderId: OrderId)
    requires Filed(docs) && DocsRight(times, docs)
    ensures var found := FindRoute(docs, orderId);
            found.Some? ==> found.value.orderId == orderId && IsRight(times, found.value)
  {
    if orderId in docs.routes {
      assert IsRight(times, docs.archive[Key(docs.routes[orderId])]);
    }
  }

  /** A patch with right instants for the copy it was computed from. */
  predicate PatchRight(times: Times, route: Route, patch: RoutePatch) {
    PlanOf(route) == times.plan ==> Right(times, patch.pickedUpAt, patch.deliveredAt)
  }

  lemma PatchStaysRight(times: Times, docs: Docs, route: Route, patch: RoutePatch)
    requires Filed(docs) && DocsRight(times, docs) && IsVersion(docs, route) && PatchRight(times, route, patch)
    ensures var (later, updated) := UpdateDocs(docs, route, patch);
            && DocsRight(times, later)
            && (updated.Some? ==> IsRight(times, updated.value) && SamePlan(updated.value, route))
  {
    if route.orderId in docs.routes && Accepts(docs.routes[route.orderId], route, patch) {
      var stored := docs.routes[route.orderId];
      assert Key(stored) == Key(route) && IsRight(times, stored);
      assert SamePlan(Patched(stored, patch), stored);
    }
  }

  lemma DeliveryPatchIsRight(dist: Metric, times: Times, route: Route, t: Locals)
    requires IsClosed(dist, times) && IsRight(times, route) && LocalsRight(times, route, t)
             && t.progress.deliveredAt.Some?
    ensures PatchRight(times, route, DeliveryPatch(route, t))
  {
    if PlanOf(route) == times.plan && route.pickedUpAt.Some? {
      assert times.delivery(DeliveredNoEarlierThan(t.progress.deliveredAt.value, Some(route.pickedUpAt.value)));
    }
  }

  /** What a tick's call leaves right: documents and its own next position. */
  ghost predicate StepRight(dist: Metric, times: Times, db: Db, pc: TickPc, now: Instant)
    requires Sensible(pc)
  {
    var (db', pc') := TickStep(dist, db, pc, now);
    DocsRight(times, db'.docs) && TickRight(times, pc')
  }

  lemma ReadingRight(dist: Metric, times: Times, db: Db, pc: TickPc, now: Instant)
    requires IsClosed(dist, times) && Filed(db.docs) && DocsRight(times, db.docs) && TickRight(times, pc)
    requires pc.TickWatch? || pc.TickListed? || pc.TickBegin?
    ensures StepRight(dist, times, db, pc, now)
  {
    match pc
    case TickWatch(orderId, rule) => FoundIsRight(times, db.docs, orderId);
    case TickBegin(route, courier, rule) => BeginIsRight(dist, times, route, courier, rule, now);
    case TickListed(_, _) =>
  }

  lemma PickupRight(dist: Metric, times: Times, db: Db, pc: TickPc, now: Instant)
    requires Sensible(pc) && Filed(db.docs) && DocsRight(times, db.docs) && TickRight(times, pc)
    requires (pc.TickRecordPickup? || pc.TickFlagPickup?) && IsVersion(db.docs, pc.route)
    ensures StepRight(dist, times, db, pc, now)
  {
    var patch := if pc.TickRecordPickup? then PickupPatch(pc.t) else FLAG_PICKUP;
    PatchStaysRight(times, db.docs, pc.route, patch);
    var updated := UpdateDocs(db.docs, pc.route, patch).1;
    if updated.Some? {
      AfterPickupIsRight(times, updated.value, pc.t);
    }
  }

  lemma DeliveryStaysRight(dist: Metric, times: Times, db: Db, route: Route, t: Locals, now: Instant)
    requires IsClosed(dist, times) && Filed(db.docs) && DocsRight(times, db.docs) && IsVersion(db.docs, route)
    requires t.progress.deliveredAt.Some? && TickRight(times, TickRecordDelivery(route, t))
    ensures StepRight(dist, times, db, TickRecordDelivery(route, t), now)
  {
    DeliveryPatchIsRight(dist, times, route, t);
    PatchStaysRight(times, db.docs, route, DeliveryPatch(route, t));
  }

  lemma PatchingRight(dist: Metric, times: Times, db: Db, pc: TickPc, now: Instant)
    requires Filed(db.docs) && DocsRight(times, db.docs) && TickRight(times, pc)
    requires (pc.TickEnd? || pc.TickConfirm? || pc.TickFlagDone?) && IsVersion(db.docs, pc.route)
    ensures StepRight(dist, times, db, pc, now)
  {
    var patch := if pc.TickEnd? then EndPatch(pc.now)
                 else if pc.TickConfirm? then NO_PATCH.(deliveredAt := Some(pc.deliveredAt))
                 else FLAG_DONE;
    PatchStaysRight(times, db.docs, pc.route, patch);
  }

  lemma TickStepRight(dist: Metric, times: Times, db: Db, pc: TickPc, now: Instant)
    requires IsClosed(dist, times) && Sensible(pc) && Filed(db.docs) && DocsRight(times, db.docs)
             && TickRight(times, pc)
    requires !pc.TickWatch? && !pc.TickFinished? ==> IsVersion(db.docs, pc.route)
    ensures StepRight(dist, times, db, pc, now)
  {
    match pc
    case TickRecordPickup(_, _) => PickupRight(dist, times, db, pc, now);
    case TickFlagPickup(_, _) => PickupRight(dist, times, db, pc, now);
    case TickRecordDelivery(route, t) => DeliveryStaysRight(dist, times, db, route, t, now);
    case TickEnd(_, _) => PatchingRight(dist, times, db, pc, now);
    case TickConfirm(_, _) => PatchingRight(dist, times, db, pc, now);
    case TickFlagDone(_, _) => PatchingRight(dist, times, db, pc, now);
    case TickWatch(_, _) => ReadingRight(dist, times, db, pc, now);
    case TickListed(_, _) => ReadingRight(dist, times, db, pc, now);
    case TickBegin(_, _, _) => ReadingRight(dist, times, db, pc, now);
    case _ =>
  }

  // ---------- the calls of every kind of worker ----------

  ghost predicate DbRight(times: Times, db: Db) {
    DocsRight(times, db.docs) && EventsRight(times, db.docs, db.events)
  }

  predicate ProcRight(times: Times, proc: Proc) {
    proc.TickProc? ==> TickRight(times, proc.tick)
  }

  ghost predicate CallRight(times: Times, db: Db, proc: Proc) {
    DbRight(times, db) && ProcRight(times, proc)
  }

  /** Events announced so far stay right: an identity that was not stored has none. */
  lemma EventsStayRight(times: Times, docs: Docs, later: Docs, events: seq<RouteEvent>)
    requires EventsOk(docs, events) && Grows(docs, later) && EventsRight(times, docs, events)
    ensures EventsRight(times, later, events)
  {
    if IsStored(later, times.plan) && Key(times.plan) in docs.archive {
      assert Older(docs.archive[Key(times.plan)], later.archive[Key(times.plan)]);
    }
  }

  lemma NewEventIsRight(times: Times, docs: Docs, events: seq<RouteEvent>, route: Route, e: RouteEvent)
    requires EventsRight(times, docs, events) && IsVersion(docs, route) && e.key == Key(route)
    requires PlanOf(route) == times.plan ==> EventRight(times, e)
    ensures EventsRight(times, docs, events + [e])
  {
  }

  lemma CopiesAreVersions(dist: Metric, docs: Docs, events: seq<RouteEvent>, pc: TickPc)
    requires TickOk(dist, docs, events, pc) && !pc.TickWatch? && !pc.TickFinished?
    ensures IsVersion(docs, pc.route)
  {
    assert IsCopy(dist, docs, events, pc.route);
  }

  /** The log after a tick's call: one event more when it announces, the same otherwise. */
  lemma AnnouncementsAreRight(dist: Metric, times: Times, db: Db, pc: TickPc, now: Instant)
    requires Sensible(pc) && EventsRight(times, db.docs, db.events) && TickRight(times, pc)
    requires pc.TickPublishPickup? || pc.TickPublishDelivery? ==> IsVersion(db.docs, pc.route)
    ensures var db' := TickStep(dist, db, pc, now).0;
            if pc.TickPublishPickup? || pc.TickPublishDelivery?
            then EventsRight(times, db'.docs, db'.events) else db'.events == db.events
  {
    match pc
    case TickPublishPickup(route, t) => NewEventIsRight(times, db.docs, db.events, route, PickupEvent(route, t));
    case TickPublishDelivery(route, at) =>
      NewEventIsRight(times, db.docs, db.events, route, DeliveredEvent(Key(route), at));
    case _ =>
  }

  lemma TickCallRight(cfg: Config, times: Times, db: Db, pc: Tick, now: Instant)
    requires IsClosed(cfg.dist, times) && DbOk(cfg.dist, db) && TickOk(cfg.dist, db.docs, db.events, pc)
    requires DbRight(times, db) && TickRight(times, pc)
    ensures var (db', pc') := TickStep(cfg.dist, db, pc, now); CallRight(times, db', TickProc(pc'))
  {
    FiledDocs(cfg.dist, db.docs, db.events);
    if !pc.TickWatch? && !pc.TickFinished? {
      CopiesAreVersions(cfg.dist, db.docs, db.events, pc);
    }
    TickStepRight(cfg.dist, times, db, pc, now);
    AnnouncementsAreRight(cfg.dist, times, db, pc, now);
    TickStepKeeps(cfg.dist, db, pc, now);
    EventsStayRight(times, db.docs, TickStep(cfg.dist, db, pc, now).0.docs, db.events);
  }

  lemma EndingRight(cfg: Config, times: Times, db: Db, route: Route, at: Instant)
    requires DbOk(cfg.dist, db) && IsCopy(cfg.dist, db.docs, db.events, route) && DbRight(times, db)
    ensures DbRight(times, db.(docs := UpdateDocs(db.docs, route, EndPatch(at)).0))
  {
    FiledDocs(cfg.dist, db.docs, db.events);
    PatchStaysRight(times, db.docs, route, EndPatch(at));
    EndPatchKeeps(cfg.dist, db, route, at);
    EventsStayRight(times, db.docs, UpdateDocs(db.docs, route, EndPatch(at)).0, db.events);
  }

  lemma ReleaseCallRight(cfg: Config, times: Times, db: Db, pc: ReleasePc, now: Instant)
    requires DbOk(cfg.dist, db) && ReleaseOk(cfg.dist, db.docs, db.events, pc) && DbRight(times, db)
    ensures DbRight(times, ReleaseStep(cfg.dist, db, pc, now).0)
  {
    if pc.RelEnd? {
      EndingRight(cfg, times, db, pc.route, pc.at);
    }
  }

  lemma PlanningRight(times: Times, docs: Docs, events: seq<RouteEvent>, route: Route)
    requires DocsRight(times, docs) && EventsOk(docs, events) && EventsRight(times, docs, events)
    requires Blank(route) && Key(route) !in docs.archive
    ensures DocsRight(times, Write(docs, route)) && EventsRight(times, Write(docs, route), events)
  {
  }

  lemma AssignCallRight(cfg: Config, times: Times, db: Db, pc: AssignPc, now: Instant, pick: CourierId)
    requires DbOk(cfg.dist, db) && AssignOk(pc) && DbRight(times, db)
    requires pc.AsnReplace? ==> Key(pc.route) !in db.docs.archive
    ensures DbRight(times, AssignStep(cfg, db, pc, now, pick).0)
  {
    if pc.AsnReplace? || (pc.AsnInsert? && pc.cmd.orderId !in db.docs.routes) {
      PlanningRight(times, db.docs, db.events, pc.route);
    }
  }

  lemma AnyCallRight(cfg: Config, times: Times, db: Db, proc: Proc, now: Instant, pick: CourierId, page: seq<Courier>)
    requires IsClosed(cfg.dist, times) && DbOk(cfg.dist, db) && ProcOk(cfg.dist, db.docs, db.events, proc)
    requires CallRight(times, db, proc)
    requires proc.AssignProc? && proc.assign.AsnReplace? ==> Key(proc.assign.route) !in db.docs.archive
    ensures var (db', proc') := StepProc(cfg, db, proc, now, pick, page); CallRight(times, db', proc')
  {
    match proc
    case TickProc(pc) => TickCallRight(cfg, times, db, pc, now);
    case ReleaseProc(pc) => ReleaseCallRight(cfg, times, db, pc, now);
    case AssignProc(pc) => AssignCallRight(cfg, times, db, pc, now, pick);
    case ReconcileProc(_) =>
    case TrackProc(_) =>
  }

  // ---------- runs ----------

  /** Ticks of the order are started with these rules only. */
  predicate StartsWith(times: Times, a: Action) {
    a.Spawn? && a.proc.TickProc? && a.proc.tick.TickWatch? ==> RuleFits(times, a.proc.tick.orderId, a.proc.tick.rule)
  }

  predicate OnlyWith(times: Times, actions: seq<Action>) {
    forall a :: a in actions ==> StartsWith(times, a)
  }

  ghost predicate AllRight(times: Times, s: Sys) {
    DbRight(times, s.db) && forall p :: p in s.procs ==> ProcRight(times, s.procs[p])
  }

  lemma StepStaysRight(cfg: Config, times: Times, s: Sys, a: Action)
    requires IsClosed(cfg.dist, times) && Inv(cfg, s) && FreshReplacement(s, a) && StartsWith(times, a)
             && AllRight(times, s)
    ensures AllRight(times, Apply(cfg, s, a))
  {
    if a.Call? && a.p in s.procs {
      AnyCallRight(cfg, times, s.db, s.procs[a.p], s.now, a.pick, a.page);
    }
  }

  lemma {:induction false} RunStaysRight(cfg: Config, times: Times, s: Sys, actions: seq<Action>)
    requires IsClosed(cfg.dist, times) && Inv(cfg, s) && FreshRun(cfg, s, actions)
    requires OnlyWith(times, actions) && AllRight(times, s)
    ensures AllRight(times, Exec(cfg, s, actions))
    decreases |actions|
  {
    if actions != [] {
      StepKeepsInv(cfg, s, actions[0]);
      StepStaysRight(cfg, times, s, actions[0]);
      RunStaysRight(cfg, times, Apply(cfg, s, actions[0]), actions[1..]);
    }
  }

  lemma EveryStateIsRight(cfg: Config, times: Times, s: Sys, actions: seq<Action>, n: nat)
    requires IsClosed(cfg.dist, times) && Init(cfg, s) && FreshRun(cfg, s, actions) && n <= |actions|
    requires OnlyWith(times, actions) && DbRight(times, s.db)
    ensures AllRight(times, At(cfg, s, actions, n)) && Inv(cfg, At(cfg, s, actions, n))
  {
    InitIsInv(cfg, s);
    assert actions == actions[..n] + actions[n..];
    ExecSplits(cfg, s, actions[..n], actions[n..]);
    LaterStates(cfg, s, actions, n, n);
    RunStaysRight(cfg, times, s, actions[..n]);
  }

  /** Nothing was recorded of the planned route before the run. */
  predicate Unrecorded(docs: Docs, plan: Route) {
    IsStored(docs, plan) ==> docs.archive[Key(plan)].pickedUpAt.None? && docs.archive[Key(plan)].deliveredAt.None?
  }

  lemma UnrecordedIsRight(dist: Metric, times: Times, db: Db)
    requires DbOk(dist, db) && Unrecorded(db.docs, times.plan)
    ensures DbRight(times, db)
  {
    forall k | k in db.docs.archive
      ensures IsRight(times, db.docs.archive[k])
    {
      assert PlanOf(db.docs.archive[k]) == times.plan ==> Key(db.docs.archive[k]) == Key(times.plan) == k;
    }
  }

  // ---------- rules that keep the order ----------

  function Recorded(dist: Metric, plan: Route, rule: Movement): Route {
    plan.(pickedUpAt := Some(PickupInstant(dist, plan, rule)))
  }

  /**
   * No rule plans the pickup after an arrival that another rule computes, be it from the plan or from a pickup
   * recorded under a third. A caller can check it before any tick starts.
   */
  ghost predicate RulesAreSafe(dist: Metric, plan: Route, rules: set<Movement>) {
    && (forall late, rule :: late in rules && rule in rules ==>
          PickupInstant(dist, plan, late) <= ArrivalInstant(dist, plan, rule))
    && (forall late, rule, first :: late in rules && rule in rules && first in rules ==>
          PickupInstant(dist, plan, late) <= ArrivalInstant(dist, Recorded(dist, plan, first), rule))
  }

  predicate PickupIsPlanned(dist: Metric, plan: Route, rules: set<Movement>, at: Instant) {
    exists rule :: rule in rules && at == PickupInstant(dist, plan, rule)
  }

  predicate FollowsEveryPickup(dist: Metric, plan: Route, rules: set<Movement>, at: Instant) {
    forall rule :: rule in rules ==> PickupInstant(dist, plan, rule) <= at
  }

  ghost function SafeTimes(dist: Metric, plan: Route, rules: set<Movement>): Times {
    Times(plan, rules, at => PickupIsPlanned(dist, plan, rules, at), at => FollowsEveryPickup(dist, plan, rules, at))
  }

  lemma SafeTimesAreClosed(dist: Metric, plan: Route, rules: set<Movement>)
    requires RulesAreSafe(dist, plan, rules)
    ensures IsClosed(dist, SafeTimes(dist, plan, rules))
  {
    forall rule, at | rule in rules && PickupIsPlanned(dist, plan, rules, at)
      ensures FollowsEveryPickup(dist, plan, rules, ArrivalInstant(dist, plan.(pickedUpAt := Some(at)), rule))
    {
      var first :| first in rules && at == PickupInstant(dist, plan, first);
      assert plan.(pickedUpAt := Some(at)) == Recorded(dist, plan, first);
    }
  }

  /** With safe rules every run records planned pickups, and no pickup after its delivery. */
  lemma SafeRulesKeepTheOrder(cfg: Config, s: Sys, actions: seq<Action>, n: nat, plan: Route, rules: set<Movement>)
    requires Init(cfg, s) && FreshRun(cfg, s, actions) && n <= |actions|
    requires var times := SafeTimes(cfg.dist, plan, rules); OnlyWith(times, actions) && DbRight(times, s.db)
    requires RulesAreSafe(cfg.dist, plan, rules)
    ensures var docs := At(cfg, s, actions, n).db.docs;
            IsStored(docs, plan) ==>
              var r := docs.archive[Key(plan)];
              && (r.pickedUpAt.Some? ==> PickupIsPlanned(cfg.dist, plan, rules, r.pickedUpAt.value))
              && (r.deliveredAt.Some? ==> r.pickedUpAt.Some? && r.pickedUpAt.value <= r.deliveredAt.value)
  {
    var times := SafeTimes(cfg.dist, plan, rules);
    SafeTimesAreClosed(cfg.dist, plan, rules);
    EveryStateIsRight(cfg, times, s, actions, n);
    var x := At(cfg, s, actions, n);
    if IsStored(x.db.docs, plan) {
      var r := x.db.docs.archive[Key(plan)];
      assert IsRight(times, r) && Sound(cfg.dist, x.db.events, r);
    }
  }

  // ---------- one rule ----------

  /** All the rules move this route alike: it has its own rule, or there is only one. */
  ghost predicate MoveAlike(plan: Route, rules: set<Movement>) {
    forall a, b :: a in rules && b in rules ==> MovementOf(plan, a) == MovementOf(plan, b)
  }

  lemma AlikeIsSafe(dist: Metric, plan: Route, rules: set<Movement>)
    requires PlanOf(plan) == plan && MoveAlike(plan, rules)
    ensures RulesAreSafe(dist, plan, rules)
    ensures forall a, b :: a in rules && b in rules ==> PickupInstant(dist, plan, a) == PickupInstant(dist, plan, b)
  {
    forall late, rule | late in rules && rule in rules
      ensures PickupInstant(dist, plan, late) == PickupInstant(dist, plan, rule) <= ArrivalInstant(dist, plan, rule)
    {
      assert MovementOf(plan, late) == MovementOf(plan, rule);
      ArrivalFollowsPickup(dist, plan, rule);
    }
    forall late, rule, first | late in rules && rule in rules && first in rules
      ensures PickupInstant(dist, plan, late) <= ArrivalInstant(dist, Recorded(dist, plan, first), rule)
    {
      assert MovementOf(plan, late) == MovementOf(plan, first);
      ArrivalFollowsPickup(dist, Recorded(dist, plan, first), rule);
    }
  }

  /**
   * In every run whose ticks move a route alike, its recorded pickup is the planned one and comes no later than its
   * delivery; the route need not carry a rule of its own.
   */
  lemma OneRuleKeepsTheOrder(cfg: Config, s: Sys, actions: seq<Action>, n: nat, plan: Route, rules: set<Movement>)
    requires Init(cfg, s) && FreshRun(cfg, s, actions) && n <= |actions| && PlanOf(plan) == plan
    requires var times := SafeTimes(cfg.dist, plan, rules); OnlyWith(times, actions) && DbRight(times, s.db)
    requires MoveAlike(plan, rules)
    ensures var docs := At(cfg, s, actions, n).db.docs;
            IsStored(docs, plan) ==>
              var r := docs.archive[Key(plan)];
              && (r.pickedUpAt.Some? ==>
                    forall rule :: rule in rules ==> r.pickedUpAt.value == PickupInstant(cfg.dist, plan, rule))
              && (r.deliveredAt.Some? ==> r.pickedUpAt.Some? && r.pickedUpAt.value <= r.deliveredAt.value)
  {
    AlikeIsSafe(cfg.dist, plan, rules);
    SafeRulesKeepTheOrder(cfg, s, actions, n, plan, rules);
  }

  // ---------- how far recorded and announced instants may lie apart ----------

  predicate IsAnArrival(dist: Metric, plan: Route, rules: set<Movement>, at: Instant) {
    exists rule :: rule in rules
      && (at == ArrivalInstant(dist, plan, rule) || at == ArrivalInstant(dist, Recorded(dist, plan, rule), rule))
  }

  ghost function ExactTimes(dist: Metric, plan: Route, rules: set<Movement>): Times {
    Times(plan, rules, at => PickupIsPlanned(dist, plan, rules, at), at => IsAnArrival(dist, plan, rules, at))
  }

  lemma ExactTimesAreClosed(dist: Metric, plan: Route, rules: set<Movement>)
    requires PlanOf(plan) == plan && MoveAlike(plan, rules)
    ensures IsClosed(dist, ExactTimes(dist, plan, rules))
  {
    AlikeIsSafe(dist, plan, rules);
    forall rule, at | rule in rules && PickupIsPlanned(dist, plan, rules, at)
      ensures IsAnArrival(dist, plan, rules, ArrivalInstant(dist, plan.(pickedUpAt := Some(at)), rule))
    {
      assert plan.(pickedUpAt := Some(at)) == Recorded(dist, plan, rule);
    }
    forall at, picked | IsAnArrival(dist, plan, rules, at) && PickupIsPlanned(dist, plan, rules, picked)
      ensures DeliveredNoEarlierThan(at, Some(picked)) == at
    {
      var rule :| rule in rules
      && (at == ArrivalInstant(dist, plan, rule) || at == ArrivalInstant(dist, Recorded(dist, plan, rule), rule));
      var late :| late in rules && picked == PickupInstant(dist, plan, late);
      assert PickupInstant(dist, plan, late) <= ArrivalInstant(dist, Recorded(dist, plan, rule), rule);
    }
  }

  lemma ArrivalsAreClose(dist: Metric, plan: Route, rules: set<Movement>, x: Instant, y: Instant)
    requires PlanOf(plan) == plan && MoveAlike(plan, rules)
    requires IsAnArrival(dist, plan, rules, x) && IsAnArrival(dist, plan, rules, y)
    ensures -1 <= x - y <= 1
  {
    var a :| a in rules
             && (x == ArrivalInstant(dist, plan, a) || x == ArrivalInstant(dist, Recorded(dist, plan, a), a));
    var b :| b in rules
             && (y == ArrivalInstant(dist, plan, b) || y == ArrivalInstant(dist, Recorded(dist, plan, b), b));
    RecordingPickupKeepsTheSchedule(dist, plan, a);
    assert MovementOf(plan, a) == MovementOf(plan, b);
    assert MovementOf(Recorded(dist, plan, a), a) == MovementOf(Recorded(dist, plan, b), b);
  }

  lemma RightInstantsAgree(dist: Metric, plan: Route, rules: set<Movement>, x: Instant, y: Instant)
    requires PlanOf(plan) == plan && MoveAlike(plan, rules)
    ensures var times := ExactTimes(dist, plan, rules);
            && (times.delivery(x) && times.delivery(y) ==> -1 <= x - y <= 1)
            && (times.pickup(x) && times.pickup(y) ==> x == y)
  {
    AlikeIsSafe(dist, plan, rules);
    if IsAnArrival(dist, plan, rules, x) && IsAnArrival(dist, plan, rules, y) {
      ArrivalsAreClose(dist, plan, rules, x, y);
    }
  }

  /** The instant is recorded as the delivery, or announced as one. */
  predicate SaysDelivered(db: Db, plan: Route, at: Instant) {
    && IsStored(db.docs, plan)
    && (db.docs.archive[Key(plan)].deliveredAt == Some(at) || DeliveredEvent(Key(plan), at) in db.events)
  }

  predicate SaysPickedUp(db: Db, plan: Route, at: Instant) {
    && IsStored(db.docs, plan)
    && (db.docs.archive[Key(plan)].pickedUpAt == Some(at)
        || exists e :: e in db.events && e.PickedUpEvent? && e.key == Key(plan) && e.at == at)
  }

  lemma WhatIsSaidIsRight(times: Times, db: Db, at: Instant)
    requires DbRight(times, db)
    ensures SaysDelivered(db, times.plan, at) ==> times.delivery(at)
    ensures SaysPickedUp(db, times.plan, at) ==> times.pickup(at)
  {
    if IsStored(db.docs, times.plan) {
      assert IsRight(times, db.docs.archive[Key(times.plan)]);
      assert DeliveredEvent(Key(times.plan), at) in db.events ==>
        EventRight(times, DeliveredEvent(Key(times.plan), at));
    }
  }

  lemma WhatARunSaysIsRight(cfg: Config, times: Times, s: Sys, actions: seq<Action>, n: nat, at: Instant)
    requires IsClosed(cfg.dist, times) && Init(cfg, s) && FreshRun(cfg, s, actions) && n <= |actions|
    requires OnlyWith(times, actions) && DbRight(times, s.db)
    ensures SaysDelivered(At(cfg, s, actions, n).db, times.plan, at) ==> times.delivery(at)
    ensures SaysPickedUp(At(cfg, s, actions, n).db, times.plan, at) ==> times.pickup(at)
  {
    EveryStateIsRight(cfg, times, s, actions, n);
    WhatIsSaidIsRight(times, At(cfg, s, actions, n).db, at);
  }

  /**
   * Over a whole run, all delivery instants recorded or announced for one planned route lie within one millisecond,
   * and all its pickup instants are one, when the rules move it alike.
   */
  lemma InstantsAgree(cfg: Config, s: Sys, actions: seq<Action>, i: nat, j: nat, plan: Route, rules: set<Movement>,
                      x: Instant, y: Instant)
    requires Init(cfg, s) && FreshRun(cfg, s, actions) && i <= |actions| && j <= |actions| && PlanOf(plan) == plan
    requires var times := ExactTimes(cfg.dist, plan, rules); OnlyWith(times, actions) && DbRight(times, s.db)
    requires MoveAlike(plan, rules)
    ensures SaysDelivered(At(cfg, s, actions, i).db, plan, x) && SaysDelivered(At(cfg, s, actions, j).db, plan, y) ==>
              -1 <= x - y <= 1
    ensures SaysPickedUp(At(cfg, s, actions, i).db, plan, x) && SaysPickedUp(At(cfg, s, actions, j).db, plan, y) ==>
            x == y
  {
    var times := ExactTimes(cfg.dist, plan, rules);
    ExactTimesAreClosed(cfg.dist, plan, rules);
    WhatARunSaysIsRight(cfg, times, s, actions, i, x);
    WhatARunSaysIsRight(cfg, times, s, actions, j, y);
    RightInstantsAgree(cfg.dist, plan, rules, x, y);
  }

  function RulesIn(actions: seq<Action>): set<Movement> {
    set a | a in actions && a.Spawn? && a.proc.TickProc? && a.proc.tick.TickWatch? :: a.proc.tick.rule
  }

  /** On a route with its own rule the instants agree whatever rules the ticks carry. */
  lemma OwnRuleFixesTheInstants(cfg: Config, s: Sys, actions: seq<Action>, i: nat, j: nat, plan: Route,
                                x: Instant, y: Instant)
    requires Init(cfg, s) && FreshRun(cfg, s, actions) && i <= |actions| && j <= |actions|
    requires PlanOf(plan) == plan && plan.movement.Some? && Unrecorded(s.db.docs, plan)
    ensures SaysDelivered(At(cfg, s, actions, i).db, plan, x) && SaysDelivered(At(cfg, s, actions, j).db, plan, y) ==>
              -1 <= x - y <= 1
    ensures SaysPickedUp(At(cfg, s, actions, i).db, plan, x) && SaysPickedUp(At(cfg, s, actions, j).db, plan, y) ==>
            x == y
  {
    var rules := RulesIn(actions);
    UnrecordedIsRight(cfg.dist, ExactTimes(cfg.dist, plan, rules), s.db);
    InstantsAgree(cfg, s, actions, i, j, plan, rules, x, y);
  }
}
