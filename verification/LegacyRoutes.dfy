/**
 * When a pickup can be recorded after its delivery: exactly when the rules in force are not safe for the route. A
 * tick that was held up may then write a pickup planned under one rule over a delivery computed under another.
 */
module LegacyRoutes {
  import opened Common
  import opened Geometry
  import opened Routes
  import opened RouteProgress
  import opened Stores
  import opened AdvanceRoute
  import opened AssignCourier
  import opened Lifecycle
  import opened RouteTimes

  // ---------- one write ----------

  predicate InOrder(r: Route) {
    r.pickedUpAt.Some? && r.deliveredAt.Some? ==> r.pickedUpAt.value <= r.deliveredAt.value
  }

  /**
   * A tick that saw no pickup writes the one its rule plans over a recorded delivery: the order survives exactly when
   * that pickup is not after the delivery.
   */
  lemma LatePickupKeepsTheOrderExactly(dist: Metric, db: Db, copy: Route, rule: Movement, begun: Instant, now: Instant)
    requires copy.orderId in db.docs.routes && SameRoute(db.docs.routes[copy.orderId], copy)
    requires var stored := db.docs.routes[copy.orderId]; StateOf(stored) == Moving && stored.deliveredAt.Some?
    requires copy.pickedUpAt.None? && ProgressAt(dist, copy, begun, rule).pickedUpAt.Some?
    ensures var t := Locals(begun, ProgressAt(dist, copy, begun, rule), OutPickedUp);
            var after := FindRoute(TickStep(dist, db, TickRecordPickup(copy, t), now).0.docs, copy.orderId);
            && after.Some?
            && (InOrder(after.value)
                <==> PickupInstant(dist, copy, rule) <= db.docs.routes[copy.orderId].deliveredAt.value)
  {
    ProgressNumbers(dist, copy, begun, rule);
  }

  /**
   * A delivery computed from a copy whose pickup another tick has overwritten since: the order survives exactly when
   * the overwriting pickup is not after the delivery that is written.
   */
  lemma DeliveryFromACopyKeepsTheOrderExactly(dist: Metric, db: Db, copy: Route, rule: Movement, begun: Instant,
                                              now: Instant)
    requires copy.orderId in db.docs.routes && SameRoute(db.docs.routes[copy.orderId], copy)
    requires var stored := db.docs.routes[copy.orderId]; StateOf(stored) == Moving && stored.pickedUpAt.Some?
    requires copy.pickedUpAt.Some? && ProgressAt(dist, copy, begun, rule).deliveredAt.Some?
    ensures var t := Locals(begun, ProgressAt(dist, copy, begun, rule), OutMoving);
            var after := FindRoute(TickStep(dist, db, TickRecordDelivery(copy, t), now).0.docs, copy.orderId);
            && after.Some?
            && (InOrder(after.value)
                <==> db.docs.routes[copy.orderId].pickedUpAt.value <= ArrivalInstant(dist, copy, rule))
  {
    ProgressNumbers(dist, copy, begun, rule);
    ArrivalFollowsPickup(dist, copy, rule);
  }

  // ---------- runs, step by step ----------

  /** A store and a clock that a run can reach. */
  ghost predicate Reached(cfg: Config, start: Sys, times: Times, s: Sys) {
    exists actions :: FreshRun(cfg, start, actions) && OnlyWith(times, actions) && Exec(cfg, start, actions) == s
  }

  /** The states are closed under actions of workers and ticks with the rules in force. */
  ghost predicate IsClosedUnder(cfg: Config, times: Times, reached: Sys -> bool) {
    forall s, a {:trigger Apply(cfg, s, a)} ::
      reached(s) && FreshReplacement(s, a) && StartsWith(times, a) ==> reached(Apply(cfg, s, a))
  }

  lemma {:induction false} OneMoreAction(cfg: Config, s: Sys, actions: seq<Action>, a: Action)
    requires FreshRun(cfg, s, actions) && FreshReplacement(Exec(cfg, s, actions), a)
    ensures FreshRun(cfg, s, actions + [a])
    ensures Exec(cfg, s, actions + [a]) == Apply(cfg, Exec(cfg, s, actions), a)
    decreases |actions|
  {
    if actions == [] {
      assert actions + [a] == [a] && [a][1..] == [];
      assert FreshRun(cfg, Apply(cfg, s, a), []);
      assert Exec(cfg, Apply(cfg, s, a), []) == Apply(cfg, s, a);
    } else {
      assert (actions + [a])[1..] == actions[1..] + [a];
      OneMoreAction(cfg, Apply(cfg, s, actions[0]), actions[1..], a);
    }
  }

  lemma RunsAreClosed(cfg: Config, start: Sys, times: Times)
    ensures Reached(cfg, start, times, start)
    ensures IsClosedUnder(cfg, times, (s: Sys) => Reached(cfg, start, times, s))
  {
    assert FreshRun(cfg, start, []) && OnlyWith(times, []) && Exec(cfg, start, []) == start;
    forall s, a | Reached(cfg, start, times, s) && FreshReplacement(s, a) && StartsWith(times, a)
      ensures Reached(cfg, start, times, Apply(cfg, s, a))
    {
      var actions :| FreshRun(cfg, start, actions) && OnlyWith(times, actions) && Exec(cfg, start, actions) == s;
      OneMoreAction(cfg, start, actions, a);
      assert OnlyWith(times, actions + [a]);
    }
  }

  /** The next port call of a tick. */
  lemma NextCall(cfg: Config, times: Times, reached: Sys -> bool, s: Sys, p: Pid, pc: Tick) returns (t: Sys)
    requires IsClosedUnder(cfg, times, reached) && reached(s) && p in s.procs && s.procs[p] == TickProc(pc)
    ensures reached(t) && t.now == s.now
    ensures var (db, next) := TickStep(cfg.dist, s.db, pc, s.now);
            t.db == db && t.procs == s.procs[p := TickProc(next)]
  {
    t := Apply(cfg, s, Call(p, 0, []));
  }

  lemma Started(cfg: Config, times: Times, reached: Sys -> bool, s: Sys, p: Pid, rule: Movement) returns (t: Sys)
    requires IsClosedUnder(cfg, times, reached) && reached(s) && p !in s.procs && rule in times.rules
    ensures reached(t) && t.now == s.now && t.db == s.db
    ensures t.procs == s.procs[p := TickProc(TickWatch(times.plan.orderId, rule))]
  {
    t := Apply(cfg, s, Spawn(p, TickProc(TickWatch(times.plan.orderId, rule))));
  }

  /** The store holds this version of the order's route, and the courier carries the order. */
  predicate Stands(db: Db, orderId: OrderId, r: Route) {
    && orderId in db.docs.routes && db.docs.routes[orderId] == r && r.orderId == orderId && StateOf(r) == Moving
    && Key(r) in db.docs.archive && db.docs.archive[Key(r)] == r
    && CarriesOrder(CourierIn(db.couriers, r), orderId)
  }

  /** A tick starts, and has looked at the route and its courier. */
  lemma Begun(cfg: Config, times: Times, reached: Sys -> bool, s: Sys, p: Pid, rule: Movement, r: Route)
    returns (t: Sys)
    requires IsClosedUnder(cfg, times, reached) && reached(s) && p !in s.procs && rule in times.rules
    requires Stands(s.db, times.plan.orderId, r)
    ensures reached(t) && t.now == s.now && t.db == s.db
    ensures t.procs == s.procs[p := TickProc(Begin(cfg.dist, r, CourierIn(s.db.couriers, r), rule, s.now))]
  {
    t := Started(cfg, times, reached, s, p, rule);
    t := NextCall(cfg, times, reached, t, p, TickWatch(times.plan.orderId, rule));
    t := NextCall(cfg, times, reached, t, p, TickListed(r, rule));
    t := NextCall(cfg, times, reached, t, p, TickBegin(r, CourierIn(s.db.couriers, r), rule));
  }

  // ---------- a delivery by one tick ----------

  /** Writing an update to the current version of the route. */
  lemma Updates(db: Db, orderId: OrderId, r: Route, copy: Route, patch: RoutePatch)
    requires Stands(db, orderId, r) && Key(copy) == Key(r) && patch.state.None?
    ensures var (docs, updated) := UpdateDocs(db.docs, copy, patch);
            updated == Some(Patched(r, patch)) && Stands(db.(docs := docs), orderId, Patched(r, patch))
            && SamePlan(Patched(r, patch), r)
  {
  }

  /** A tick that stands before its pickup write makes it. */
  lemma PicksUp(cfg: Config, times: Times, reached: Sys -> bool, s: Sys, p: Pid, r: Route, copy: Route, t: Locals)
    returns (u: Sys)
    requires IsClosedUnder(cfg, times, reached) && reached(s) && Stands(s.db, times.plan.orderId, r)
             && Key(copy) == Key(r)
    requires p in s.procs && t.progress.pickedUpAt.Some? && s.procs[p] == TickProc(TickRecordPickup(copy, t))
    ensures var picked := Patched(r, PickupPatch(t));
            && reached(u) && u.now == s.now && Stands(u.db, times.plan.orderId, picked) && SamePlan(picked, r)
            && u.procs == s.procs[p := TickProc(AfterPickup(picked, t))]
  {
    Updates(s.db, times.plan.orderId, r, copy, PickupPatch(t));
    u := NextCall(cfg, times, reached, s, p, TickRecordPickup(copy, t));
  }

  /** A tick announces the pickup, if it has a market, and flags it. */
  lemma Flags(cfg: Config, times: Times, reached: Sys -> bool, s: Sys, p: Pid, r: Route, t: Locals) returns (u: Sys)
    requires IsClosedUnder(cfg, times, reached) && reached(s) && Stands(s.db, times.plan.orderId, r)
    requires r.pickedUpAt.Some? && !r.pickupPublished
    requires p in s.procs && s.procs[p] == TickProc(AfterPickup(r, t))
    ensures var flagged := Patched(r, FLAG_PICKUP);
            && reached(u) && u.now == s.now && Stands(u.db, times.plan.orderId, flagged) && SamePlan(flagged, r)
            && u.procs == s.procs[p := TickProc(AfterPublish(flagged, t))]
  {
    u := s;
    if r.marketId.Some? {
      u := NextCall(cfg, times, reached, u, p, TickPublishPickup(r, t));
    }
    Updates(u.db, times.plan.orderId, r, r, FLAG_PICKUP);
    u := NextCall(cfg, times, reached, u, p, TickFlagPickup(r, t));
  }

  /** A tick records the delivery. */
  lemma Delivers(cfg: Config, times: Times, reached: Sys -> bool, s: Sys, p: Pid, r: Route, t: Locals) returns (u: Sys)
    requires IsClosedUnder(cfg, times, reached) && reached(s) && Stands(s.db, times.plan.orderId, r)
    requires t.progress.deliveredAt.Some? && r.deliveredAt.None?
    requires p in s.procs && s.procs[p] == TickProc(AfterPublish(r, t))
    ensures var delivered := Patched(r, DeliveryPatch(r, t));
            && reached(u) && u.now == s.now && Stands(u.db, times.plan.orderId, delivered) && SamePlan(delivered, r)
            && u.procs.Keys == s.procs.Keys && forall q :: q in s.procs && q != p ==> u.procs[q] == s.procs[q]
  {
    Updates(s.db, times.plan.orderId, r, r, DeliveryPatch(r, t));
    u := NextCall(cfg, times, reached, s, p, TickRecordDelivery(r, t));
  }

  predicate IsLate(dist: Metric, r: Route, rule: Movement, now: Instant) {
    r.createdAt <= now && ArrivalInstant(dist, r, rule) <= now
  }

  lemma LateProgress(dist: Metric, r: Route, rule: Movement, now: Instant)
    requires IsLate(dist, r, rule, now)
    ensures var progress := ProgressAt(dist, r, now, rule);
            && progress.pickedUpAt == Some(PickupInstant(dist, r, rule))
            && progress.deliveredAt == Some(ArrivalInstant(dist, r, rule))
            && PickupInstant(dist, r, rule) <= ArrivalInstant(dist, r, rule)
  {
    ProgressNumbers(dist, r, now, rule);
    ArrivalFollowsPickup(dist, r, rule);
  }

  /** A late tick that sees no pickup stands before writing one. */
  lemma LateBegin(dist: Metric, r: Route, courier: Option<Courier>, rule: Movement, now: Instant)
    requires IsLate(dist, r, rule, now) && CarriesOrder(courier, r.orderId)
    ensures var progress := ProgressAt(dist, r, now, rule);
            Begin(dist, r, courier, rule, now)
            == if r.pickedUpAt.None? then TickRecordPickup(r, Locals(now, progress, OutPickedUp))
               else AfterPickup(r, Locals(now, progress, OutMoving))
  {
    LateProgress(dist, r, rule, now);
  }

  /** No pickup is flagged and no delivery recorded. */
  predicate IsOpen(r: Route) {
    !r.pickupPublished && r.deliveredAt.None?
  }

  /** A tick about to write the pickup records it. */
  lemma LatePickup(cfg: Config, times: Times, reached: Sys -> bool, s: Sys, p: Pid, r: Route, rule: Movement)
    returns (u: Sys, picked: Route, t: Locals)
    requires IsClosedUnder(cfg, times, reached) && reached(s) && p !in s.procs && rule in times.rules
    requires Stands(s.db, times.plan.orderId, r) && IsLate(cfg.dist, r, rule, s.now) && r.pickedUpAt.None? && IsOpen(r)
    ensures reached(u) && u.now == s.now && Stands(u.db, times.plan.orderId, picked) && SamePlan(picked, r)
            && IsOpen(picked)
    ensures picked.pickedUpAt == Some(PickupInstant(cfg.dist, r, rule))
            && t.progress == ProgressAt(cfg.dist, r, s.now, rule)
    ensures u.procs == s.procs[p := TickProc(AfterPickup(picked, t))]
  {
    LateProgress(cfg.dist, r, rule, s.now);
    LateBegin(cfg.dist, r, CourierIn(s.db.couriers, r), rule, s.now);
    t := Locals(s.now, ProgressAt(cfg.dist, r, s.now, rule), OutPickedUp);
    u := Begun(cfg, times, reached, s, p, rule, r);
    u := PicksUp(cfg, times, reached, u, p, r, r, t);
    picked := Patched(r, PickupPatch(t));
  }

  /** A tick that stands after the pickup write flags the pickup and records the delivery. */
  lemma FlagsAndDelivers(cfg: Config, times: Times, reached: Sys -> bool, s: Sys, p: Pid, r: Route, t: Locals)
    returns (u: Sys, delivered: Route)
    requires IsClosedUnder(cfg, times, reached) && reached(s) && Stands(s.db, times.plan.orderId, r)
    requires IsOpen(r) && r.pickedUpAt.Some? && t.progress.deliveredAt.Some?
    requires r.pickedUpAt.value <= t.progress.deliveredAt.value
    requires p in s.procs && s.procs[p] == TickProc(AfterPickup(r, t))
    ensures reached(u) && u.now == s.now && Stands(u.db, times.plan.orderId, delivered) && SamePlan(delivered, r)
    ensures delivered.deliveredAt == t.progress.deliveredAt
    ensures u.procs.Keys == s.procs.Keys && forall q :: q in s.procs && q != p ==> u.procs[q] == s.procs[q]
  {
    var flagged := Patched(r, FLAG_PICKUP);
    u := Flags(cfg, times, reached, s, p, r, t);
    u := Delivers(cfg, times, reached, u, p, flagged, t);
    delivered := Patched(flagged, DeliveryPatch(flagged, t));
  }

  /** A late tick on an open route takes it to its delivery. */
  lemma TickDelivers(cfg: Config, times: Times, reached: Sys -> bool, s: Sys, p: Pid, r: Route, rule: Movement)
    returns (u: Sys, delivered: Route)
    requires IsClosedUnder(cfg, times, reached) && reached(s) && p !in s.procs && rule in times.rules
    requires Stands(s.db, times.plan.orderId, r) && IsLate(cfg.dist, r, rule, s.now) && IsOpen(r)
    ensures reached(u) && u.now == s.now && Stands(u.db, times.plan.orderId, delivered) && SamePlan(delivered, r)
    ensures delivered.deliveredAt == Some(ArrivalInstant(cfg.dist, r, rule))
    ensures forall q :: q in s.procs ==> q in u.procs && u.procs[q] == s.procs[q]
  {
    LateProgress(cfg.dist, r, rule, s.now);
    if r.pickedUpAt.None? {
      var picked, t;
      u, picked, t := LatePickup(cfg, times, reached, s, p, r, rule);
      u, delivered := FlagsAndDelivers(cfg, times, reached, u, p, picked, t);
    } else {
      var t := Locals(s.now, ProgressAt(cfg.dist, r, s.now, rule), OutMoving);
      LateBegin(cfg.dist, r, CourierIn(s.db.couriers, r), rule, s.now);
      TimesOfACopy(cfg.dist, r, rule);
      u := Begun(cfg, times, reached, s, p, rule, r);
      u, delivered := FlagsAndDelivers(cfg, times, reached, u, p, r, t);
    }
  }

  // ---------- the order is lost exactly under unsafe rules ----------

  predicate OrderHolds(docs: Docs, plan: Route) {
    IsStored(docs, plan) ==> InOrder(docs.archive[Key(plan)])
  }

  /** A tick held up before its pickup write makes it when another has recorded the delivery. */
  lemma HeldUpTickWrites(cfg: Config, times: Times, reached: Sys -> bool, s: Sys, blank: Route, r: Route, t: Locals,
                         rule: Movement)
    returns (u: Sys)
    requires IsClosedUnder(cfg, times, reached) && reached(s) && rule in times.rules && 1 !in s.procs
    requires Stands(s.db, times.plan.orderId, r) && IsLate(cfg.dist, r, rule, s.now) && IsOpen(r)
             && PlanOf(r) == times.plan
    requires 0 in s.procs && t.progress.pickedUpAt.Some? && s.procs[0] == TickProc(TickRecordPickup(blank, t))
    requires Key(blank) == Key(r) && ArrivalInstant(cfg.dist, r, rule) < t.progress.pickedUpAt.value
    ensures reached(u) && !OrderHolds(u.db.docs, times.plan)
  {
    var delivered;
    u, delivered := TickDelivers(cfg, times, reached, s, 1, r, rule);
    u := PicksUp(cfg, times, reached, u, 0, delivered, blank, t);
    var last := Patched(delivered, PickupPatch(t));
    assert Key(last) == Key(times.plan) && PlanOf(last) == times.plan;
  }

  lemma Waited(cfg: Config, times: Times, reached: Sys -> bool, s: Sys, until: Instant) returns (t: Sys)
    requires IsClosedUnder(cfg, times, reached) && reached(s)
    ensures reached(t) && t.now >= until && t.db == s.db && t.procs == s.procs
  {
    t := Apply(cfg, s, Wait(Max(0, until - s.now)));
  }

  /** The clock shows a time at which three ticks find everything due. */
  lemma AllIsDue(cfg: Config, times: Times, reached: Sys -> bool, s: Sys, r: Route, a: Movement, b: Movement,
                 other: Instant)
    returns (t: Sys)
    requires IsClosedUnder(cfg, times, reached) && reached(s)
    ensures reached(t) && t.db == s.db && t.procs == s.procs && t.now >= other
    ensures IsLate(cfg.dist, r, a, t.now) && IsLate(cfg.dist, r, b, t.now)
  {
    var x := Max(ArrivalInstant(cfg.dist, r, a), ArrivalInstant(cfg.dist, r, b));
    t := Waited(cfg, times, reached, s, Max(Max(x, r.createdAt), other));
  }

  /** A tick under the later rule is held up, and stays before its write. */
  lemma HeldUp(cfg: Config, times: Times, reached: Sys -> bool, s: Sys, r: Route, late: Movement)
    returns (u: Sys, t: Locals)
    requires IsClosedUnder(cfg, times, reached) && reached(s) && 0 !in s.procs && late in times.rules
    requires Stands(s.db, times.plan.orderId, r) && IsLate(cfg.dist, r, late, s.now) && r.pickedUpAt.None?
    ensures t.progress.pickedUpAt == Some(PickupInstant(cfg.dist, r, late))
    ensures reached(u) && u.now == s.now && u.db == s.db && u.procs == s.procs[0 := TickProc(TickRecordPickup(r, t))]
  {
    LateProgress(cfg.dist, r, late, s.now);
    LateBegin(cfg.dist, r, CourierIn(s.db.couriers, r), late, s.now);
    u := Begun(cfg, times, reached, s, 0, late, r);
    t := Locals(s.now, ProgressAt(cfg.dist, r, s.now, late), OutPickedUp);
  }

  /** Two rules suffice when one plans the pickup after the other's arrival. */
  lemma TwoRulesInvert(cfg: Config, times: Times, reached: Sys -> bool, s: Sys, r: Route, late: Movement,
                       rule: Movement)
    returns (u: Sys)
    requires IsClosedUnder(cfg, times, reached) && reached(s) && s.procs == map[]
    requires Stands(s.db, times.plan.orderId, r) && Blank(r) && PlanOf(r) == times.plan
    requires late in times.rules && rule in times.rules
    requires ArrivalInstant(cfg.dist, times.plan, rule) < PickupInstant(cfg.dist, times.plan, late)
    ensures reached(u) && !OrderHolds(u.db.docs, times.plan)
  {
    TimesOfACopy(cfg.dist, r, rule);
    TimesOfACopy(cfg.dist, r, late);
    u := AllIsDue(cfg, times, reached, s, r, late, rule, 0);
    var t;
    u, t := HeldUp(cfg, times, reached, u, r, late);
    u := HeldUpTickWrites(cfg, times, reached, u, r, r, t, rule);
  }

  /** A third rule may have recorded the pickup from which the arrival is computed. */
  lemma ThreeRulesInvert(cfg: Config, times: Times, reached: Sys -> bool, s: Sys, r: Route, late: Movement,
                         rule: Movement, first: Movement)
    returns (u: Sys)
    requires IsClosedUnder(cfg, times, reached) && reached(s) && s.procs == map[]
    requires Stands(s.db, times.plan.orderId, r) && Blank(r) && PlanOf(r) == times.plan
    requires late in times.rules && rule in times.rules && first in times.rules
    requires ArrivalInstant(cfg.dist, Recorded(cfg.dist, times.plan, first), rule)
             < PickupInstant(cfg.dist, times.plan, late)
    ensures reached(u) && !OrderHolds(u.db.docs, times.plan)
  {
    TimesOfACopy(cfg.dist, r, late);
    TimesOfACopy(cfg.dist, r, first);
    u := AllIsDue(cfg, times, reached, s, r, late, first,
      ArrivalInstant(cfg.dist, Recorded(cfg.dist, times.plan, first), rule));
    var t, picked, t';
    u, t := HeldUp(cfg, times, reached, u, r, late);
    u, picked, t' := LatePickup(cfg, times, reached, u, 2, r, first);
    TimesOfACopy(cfg.dist, picked, rule);
    assert PlanOf(picked).(pickedUpAt := picked.pickedUpAt) == Recorded(cfg.dist, times.plan, first);
    u := HeldUpTickWrites(cfg, times, reached, u, r, picked, t, rule);
  }

  /** Rules that are not safe invert the milestones of any open route in some run. */
  lemma UnsafeRulesInvert(cfg: Config, s: Sys, r: Route, rules: set<Movement>) returns (actions: seq<Action>)
    requires Init(cfg, s) && Stands(s.db, r.orderId, r) && Blank(r) && !RulesAreSafe(cfg.dist, PlanOf(r), rules)
    ensures FreshRun(cfg, s, actions) && OnlyWith(SafeTimes(cfg.dist, PlanOf(r), rules), actions)
    ensures !OrderHolds(Exec(cfg, s, actions).db.docs, PlanOf(r))
  {
    var plan, times := PlanOf(r), SafeTimes(cfg.dist, PlanOf(r), rules);
    var reached := (t: Sys) => Reached(cfg, s, times, t);
    RunsAreClosed(cfg, s, times);
    var u;
    if late, rule :| late in rules && rule in rules
                     && ArrivalInstant(cfg.dist, plan, rule) < PickupInstant(cfg.dist, plan, late) {
      u := TwoRulesInvert(cfg, times, reached, s, r, late, rule);
    } else {
      var late, rule, first :| late in rules && rule in rules && first in rules
        && ArrivalInstant(cfg.dist, Recorded(cfg.dist, plan, first), rule) < PickupInstant(cfg.dist, plan, late);
      u := ThreeRulesInvert(cfg, times, reached, s, r, late, rule, first);
    }
    assert Reached(cfg, s, times, u);
    actions :| FreshRun(cfg, s, actions) && OnlyWith(times, actions) && Exec(cfg, s, actions) == u;
  }

  /** Every run whose ticks of the order carry these rules records its pickup before its delivery. */
  ghost predicate EveryRunKeepsTheOrder(cfg: Config, s: Sys, plan: Route, rules: set<Movement>) {
    forall actions :: FreshRun(cfg, s, actions) && OnlyWith(SafeTimes(cfg.dist, plan, rules), actions) ==>
      OrderHolds(Exec(cfg, s, actions).db.docs, plan)
  }

  /** For a route that is open and carried, the order of milestones is safe exactly under safe rules. */
  lemma OrderHoldsExactlyUnderSafeRules(cfg: Config, s: Sys, r: Route, rules: set<Movement>)
    requires Init(cfg, s) && Stands(s.db, r.orderId, r) && Blank(r)
    ensures EveryRunKeepsTheOrder(cfg, s, PlanOf(r), rules) <==> RulesAreSafe(cfg.dist, PlanOf(r), rules)
  {
    if RulesAreSafe(cfg.dist, PlanOf(r), rules) {
      var times := SafeTimes(cfg.dist, PlanOf(r), rules);
      UnrecordedIsRight(cfg.dist, times, s.db);
      forall actions | FreshRun(cfg, s, actions) && OnlyWith(times, actions)
        ensures OrderHolds(Exec(cfg, s, actions).db.docs, PlanOf(r))
      {
        assert actions[..|actions|] == actions;
        SafeRulesKeepTheOrder(cfg, s, actions, |actions|, PlanOf(r), rules);
      }
    } else {
      var actions := UnsafeRulesInvert(cfg, s, r, rules);
    }
  }
}
