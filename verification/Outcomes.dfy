/** What holds over whole runs of the courier service. */
module Outcomes {
  import opened Common
  import opened Geometry
  import opened Routes
  import opened RouteProgress
  import opened TrackingView
  import opened Stores
  import opened RouteInvariant
  import opened AdvanceRoute
  import opened AssignCourier
  import opened ReconcileCarriers
  import opened GetTracking
  import opened Lifecycle

  /** The state after the first n actions of a run. */
  ghost function At(cfg: Config, s: Sys, actions: seq<Action>, n: nat): Sys
    requires n <= |actions|
  {
    Exec(cfg, s, actions[..n])
  }

  lemma {:induction false} ExecSplits(cfg: Config, s: Sys, a: seq<Action>, b: seq<Action>)
    ensures Exec(cfg, s, a + b) == Exec(cfg, Exec(cfg, s, a), b)
    ensures FreshRun(cfg, s, a + b) ==> FreshRun(cfg, s, a) && FreshRun(cfg, Exec(cfg, s, a), b)
    decreases |a|
  {
    if a == [] {
      assert a + b == b;
    } else {
      assert (a + b)[1..] == a[1..] + b && (a + b)[0] == a[0];
      ExecSplits(cfg, Apply(cfg, s, a[0]), a[1..], b);
    }
  }

  /** One more action. */
  lemma NextState(cfg: Config, s: Sys, actions: seq<Action>, n: nat)
    requires n < |actions|
    ensures At(cfg, s, actions, n + 1) == Apply(cfg, At(cfg, s, actions, n), actions[n])
  {
    assert actions[..n + 1] == actions[..n] + [actions[n]];
    ExecSplits(cfg, s, actions[..n], [actions[n]]);
    var before := At(cfg, s, actions, n);
    assert Exec(cfg, Apply(cfg, before, actions[n]), []) == Apply(cfg, before, actions[n]);
    assert [actions[n]][1..] == [];
  }

  /** From any point of a run on, the invariant holds and nothing recorded is lost. */
  lemma LaterStates(cfg: Config, s: Sys, actions: seq<Action>, i: nat, j: nat)
    requires Init(cfg, s) && FreshRun(cfg, s, actions) && i <= j <= |actions|
    ensures Inv(cfg, At(cfg, s, actions, i))
    ensures Preserves(cfg, At(cfg, s, actions, i), At(cfg, s, actions, j))
  {
    InitIsInv(cfg, s);
    RunsHaveMiddles(cfg, s, actions, i, j);
    RunKeepsInv(cfg, s, actions[..i]);
    RunKeepsInv(cfg, At(cfg, s, actions, i), actions[i..j]);
  }

  lemma RunsHaveMiddles(cfg: Config, s: Sys, actions: seq<Action>, i: nat, j: nat)
    requires FreshRun(cfg, s, actions) && i <= j <= |actions|
    ensures FreshRun(cfg, s, actions[..i]) && FreshRun(cfg, At(cfg, s, actions, i), actions[i..j])
    ensures At(cfg, s, actions, j) == Exec(cfg, At(cfg, s, actions, i), actions[i..j])
  {
    assert actions == actions[..j] + actions[j..];
    ExecSplits(cfg, s, actions[..j], actions[j..]);
    assert actions[..j] == actions[..i] + actions[i..j];
    ExecSplits(cfg, s, actions[..i], actions[i..j]);
  }

  // ---------- one outcome per route ----------

  ghost predicate HasEnded(s: Sys, key: RouteKey) {
    key in s.db.docs.archive && StateOf(s.db.docs.archive[key]) == Ended
  }

  ghost predicate HasDelivery(s: Sys, key: RouteKey) {
    key in s.db.docs.archive && s.db.docs.archive[key].deliveredAt.Some?
  }

  /** No route identity is ENDED at one moment of a run and delivery-recorded at the same or any other. */
  lemma SingleOutcome(cfg: Config, s: Sys, actions: seq<Action>, i: nat, j: nat, key: RouteKey)
    requires Init(cfg, s) && FreshRun(cfg, s, actions) && i <= |actions| && j <= |actions|
    ensures !(HasEnded(At(cfg, s, actions, i), key) && HasDelivery(At(cfg, s, actions, j), key))
  {
    var last := if i <= j then j else i;
    LaterStates(cfg, s, actions, i, last);
    LaterStates(cfg, s, actions, j, last);
    OutcomesStay(cfg, At(cfg, s, actions, i), At(cfg, s, actions, last), key);
    OutcomesStay(cfg, At(cfg, s, actions, j), At(cfg, s, actions, last), key);
  }

  /** An outcome stays, and keeps the other one out. */
  lemma OutcomesStay(cfg: Config, x: Sys, z: Sys, key: RouteKey)
    requires Preserves(cfg, x, z)
    ensures HasEnded(x, key) ==> HasEnded(z, key) && !HasDelivery(z, key)
    ensures HasDelivery(x, key) ==> HasDelivery(z, key) && !HasEnded(z, key)
  {
    if key in x.db.docs.archive {
      assert Older(x.db.docs.archive[key], z.db.docs.archive[key]);
      assert Sound(cfg.dist, z.db.events, z.db.docs.archive[key]);
    }
  }

  /** courier.delivered is announced only for a recorded delivery, so never for a route that ever ends. */
  lemma AnnouncedDeliveryIsFinal(cfg: Config, s: Sys, actions: seq<Action>, i: nat, j: nat, key: RouteKey, at: Instant)
    requires Init(cfg, s) && FreshRun(cfg, s, actions) && i <= |actions| && j <= |actions|
    requires DeliveredEvent(key, at) in At(cfg, s, actions, i).db.events
    ensures HasDelivery(At(cfg, s, actions, i), key) && !HasEnded(At(cfg, s, actions, j), key)
  {
    LaterStates(cfg, s, actions, i, i);
    SingleOutcome(cfg, s, actions, j, i, key);
  }

  /**
   * A release that cancelled a route (it then knows where the courier is) wins for good: the route is
   * ENDED from then on, its delivery is never recorded and courier.delivered is never announced.
   */
  lemma CancellationIsFinal(cfg: Config, s: Sys, actions: seq<Action>, i: nat, j: nat, p: Pid)
    requires Init(cfg, s) && FreshRun(cfg, s, actions) && i <= |actions| && j <= |actions|
    requires var x := At(cfg, s, actions, i);
             && p in x.procs && x.procs[p].ReleaseProc? && x.procs[p].release.RelDone?
             && x.procs[p].release.result.Decided? && x.procs[p].release.result.decision.Cancelled?
             && x.procs[p].release.result.decision.location.Some?
    ensures var ended := At(cfg, s, actions, i).procs[p].release.result.decision.ended;
            var y := At(cfg, s, actions, j);
            && ended.Some?
            && (i <= j ==> HasEnded(y, Key(ended.value)))
            && !HasDelivery(y, Key(ended.value))
            && (forall at :: DeliveredEvent(Key(ended.value), at) !in y.db.events)
  {
    LaterStates(cfg, s, actions, i, i);
    var x, y := At(cfg, s, actions, i), At(cfg, s, actions, j);
    assert ProcOk(cfg.dist, x.db.docs, x.db.events, x.procs[p]);
    var key := Key(x.procs[p].release.result.decision.ended.value);
    assert HasEnded(x, key);
    SingleOutcome(cfg, s, actions, i, j, key);
    LaterStates(cfg, s, actions, j, j);
    if i <= j {
      LaterStates(cfg, s, actions, i, j);
      assert Older(x.db.docs.archive[key], y.db.docs.archive[key]);
    }
  }

  /** A release that gave way to a delivery gave way to a recorded one: that route never ends. */
  lemma GivingWayIsFinal(cfg: Config, s: Sys, actions: seq<Action>, i: nat, j: nat, p: Pid)
    requires Init(cfg, s) && FreshRun(cfg, s, actions) && i <= |actions| && j <= |actions|
    requires var x := At(cfg, s, actions, i);
             && p in x.procs && x.procs[p].ReleaseProc? && x.procs[p].release.RelDone?
             && x.procs[p].release.result.Decided? && x.procs[p].release.result.decision.DeliveryWins?
    ensures var route := At(cfg, s, actions, i).procs[p].release.result.decision.route;
            HasDelivery(At(cfg, s, actions, i), Key(route)) && !HasEnded(At(cfg, s, actions, j), Key(route))
  {
    LaterStates(cfg, s, actions, i, i);
    var x := At(cfg, s, actions, i);
    assert ProcOk(cfg.dist, x.db.docs, x.db.events, x.procs[p]);
    SingleOutcome(cfg, s, actions, j, i, Key(x.procs[p].release.result.decision.route));
  }

  // ---------- milestones ----------

  /** In every state of every run, milestones are recorded in order and flags follow their events. */
  lemma MilestonesInOrder(cfg: Config, s: Sys, actions: seq<Action>, n: nat, key: RouteKey)
    requires Init(cfg, s) && FreshRun(cfg, s, actions) && n <= |actions|
    requires key in At(cfg, s, actions, n).db.docs.archive
    ensures var x := At(cfg, s, actions, n);
            var r := x.db.docs.archive[key];
            && (r.deliveredAt.Some? ==> r.pickedUpAt.Some? && r.pickupPublished)
            && (r.deliveredAt.Some? && r.movement.Some? ==> r.pickedUpAt.value <= r.deliveredAt.value)
            && (r.pickupPublished && r.marketId.Some? ==> PickupAnnounced(x.db.events, key, r.marketId.value))
            && (r.deliveryPublished ==> DeliveryAnnounced(x.db.events, key))
            && (StateOf(r) == Done ==> r.deliveredAt.Some? && DeliveryAnnounced(x.db.events, key))
            && (r.movement.Some? && r.pickedUpAt.Some? ==> r.pickedUpAt.value == PlannedPickup(cfg.dist, r))
  {
    LaterStates(cfg, s, actions, n, n);
    var x := At(cfg, s, actions, n);
    assert Sound(cfg.dist, x.db.events, x.db.docs.archive[key]);
  }

  /** Whatever crashes, a milestone or flag once written is there in every later state. */
  lemma MilestonesAreNeverLost(cfg: Config, s: Sys, actions: seq<Action>, i: nat, j: nat, key: RouteKey)
    requires Init(cfg, s) && FreshRun(cfg, s, actions) && i <= j <= |actions|
    requires key in At(cfg, s, actions, i).db.docs.archive
    ensures var x, y := At(cfg, s, actions, i).db.docs.archive, At(cfg, s, actions, j).db.docs.archive;
            && key in y
            && (x[key].pickedUpAt.Some? ==> y[key].pickedUpAt.Some?)
            && (x[key].pickedUpAt.Some? && x[key].movement.Some? ==> y[key].pickedUpAt == x[key].pickedUpAt)
            && (x[key].pickupPublished ==> y[key].pickupPublished)
            && (x[key].deliveredAt.Some? ==> y[key].deliveredAt.Some?)
            && (x[key].deliveryPublished ==> y[key].deliveryPublished)
            && (StateOf(x[key]) != Moving ==> StateOf(y[key]) == StateOf(x[key]))
            && PlanOf(x[key]) == PlanOf(y[key])
  {
    LaterStates(cfg, s, actions, i, j);
    LaterStates(cfg, s, actions, j, j);
    var x, y := At(cfg, s, actions, i), At(cfg, s, actions, j);
    assert Older(x.db.docs.archive[key], y.db.docs.archive[key]);
    assert Sound(cfg.dist, x.db.events, x.db.docs.archive[key]) && Sound(cfg.dist, y.db.events, y.db.docs.archive[key]);
    if x.db.docs.archive[key].movement.Some? {
      assert PlannedPickup(cfg.dist, x.db.docs.archive[key]) == PlannedPickup(cfg.dist, y.db.docs.archive[key]);
    }
  }

  /**
   * Crash recovery: after any run, one quiet tick finishes every moving route whose delivery is recorded
   * or whose arrival has passed while its courier still carries the order.
   */
  lemma AnyRunRecovers(cfg: Config, s: Sys, actions: seq<Action>, orderId: OrderId, rule: Movement, now: Instant)
    requires Init(cfg, s) && FreshRun(cfg, s, actions)
    requires var db := Exec(cfg, s, actions).db;
             && orderId in db.docs.routes
             && var r := db.docs.routes[orderId];
             StateOf(r) == Moving && IsDue(cfg.dist, r, CourierIn(db.couriers, r), rule, now)
    ensures var db := Exec(cfg, s, actions).db;
            var (after, outcome) := RunTick(cfg.dist, db, TickWatch(orderId, rule), now);
            outcome == OutDelivered && Completed(after, Key(db.docs.routes[orderId]))
  {
    InitIsInv(cfg, s);
    RunKeepsInv(cfg, s, actions);
    OneQuietTickCompletes(cfg.dist, Exec(cfg, s, actions).db, orderId, rule, now);
  }

  // ---------- the freshness assumption ----------

  /** A replacement keeps what was recorded exactly when its identity is new, or held nothing yet. */
  lemma ReplacementKeepsHistoryExactly(cfg: Config, s: Sys, route: Route)
    requires Inv(cfg, s) && Blank(route)
    ensures Grows(s.db.docs, Write(s.db.docs, route))
            <==> Key(route) !in s.db.docs.archive
                 || (var stored := s.db.docs.archive[Key(route)]; SamePlan(stored, route) && Blank(stored))
  {
    WriteGrowsExactly(s.db.docs, route);
    if Key(route) in s.db.docs.archive {
      OlderThanBlank(cfg.dist, s.db.events, s.db.docs.archive[Key(route)], route);
    }
  }

  lemma WriteGrowsExactly(docs: Docs, route: Route)
    ensures Grows(docs, Write(docs, route))
            <==> Key(route) !in docs.archive || Older(docs.archive[Key(route)], route)
  {
    var later := Write(docs, route);
    assert later.archive[Key(route)] == route;
    forall k | k in docs.archive && k != Key(route) ensures Older(docs.archive[k], later.archive[k]) {
      assert later.archive[k] == docs.archive[k];
    }
  }

  lemma OlderThanBlank(dist: Metric, events: seq<RouteEvent>, stored: Route, route: Route)
    requires Sound(dist, events, stored) && Blank(route)
    ensures Older(stored, route) <==> SamePlan(stored, route) && Blank(stored)
  {
  }

  /** Why the assumption is needed: reusing a delivered identity lets a cancellation end it as well. */
  lemma ReusedIdentityHasTwoOutcomes(cfg: Config, s: Sys, route: Route, at: Instant)
    requires Inv(cfg, s) && Blank(route) && HasDelivery(s, Key(route))
    ensures var (docs, ended) := UpdateDocs(Write(s.db.docs, route), route, EndPatch(at));
            ended.Some? && StateOf(docs.archive[Key(route)]) == Ended
  {
  }

  // ---------- tracking ----------

  /**
   * A tracking read never turns a delivery into NOT_FOUND: if a tick freed the courier at delivery between
   * the two reads and the route is still the order's, the second look finds the delivery.
   */
  lemma TrackingSeesTheDelivery(cfg: Config, s: Sys, actions: seq<Action>, n: nat, p: Pid, rule: Movement, at: Instant)
    requires Init(cfg, s) && FreshRun(cfg, s, actions) && n <= |actions|
    requires var x := At(cfg, s, actions, n);
             && p in x.procs && x.procs[p].TrackProc? && x.procs[p].track.TrkReread?
             && x.procs[p].track.orderId in x.db.docs.routes
             && SameRoute(x.db.docs.routes[x.procs[p].track.orderId], x.procs[p].track.first)
             && Key(x.procs[p].track.first) in x.freedByDelivery
    ensures var x := At(cfg, s, actions, n);
            var next := TrackStep(x.db, x.procs[p].track);
            && next.TrkDone? && next.answer.Tracked?
            && Key(next.answer.route) == Key(x.procs[p].track.first)
            && ViewAt(cfg.dist, next.answer.route, at, rule).shape.phase == Delivered
  {
    LaterStates(cfg, s, actions, n, n);
    TrackingAnswersExactly(cfg, At(cfg, s, actions, n), p);
  }

  /** The second look answers NOT_FOUND exactly when the route is no longer the order's or has no delivery. */
  lemma TrackingAnswersExactly(cfg: Config, x: Sys, p: Pid)
    requires Inv(cfg, x) && p in x.procs && x.procs[p].TrackProc? && x.procs[p].track.TrkReread?
    ensures var pc := x.procs[p].track;
            var current := FindRoute(x.db.docs, pc.orderId);
            && (TrackStep(x.db, pc) == TrkDone(NotFound)
                <==> current.None? || !SameRoute(current.value, pc.first) || !HasDelivery(x, Key(pc.first)))
            && (TrackStep(x.db, pc) != TrkDone(NotFound) ==>
                  current.Some? && TrackStep(x.db, pc).answer.Tracked?
                    && TrackStep(x.db, pc).answer.route == current.value)
  {
    var pc := x.procs[p].track;
    assert ProcOk(cfg.dist, x.db.docs, x.db.events, x.procs[p]);
    if pc.orderId in x.db.docs.routes {
      var r := x.db.docs.routes[pc.orderId];
      assert Sound(cfg.dist, x.db.events, x.db.docs.archive[Key(r)]);
    }
  }

  // ---------- reconciliation ----------

  /** The reconciler asks only for couriers whose own route is over: ENDED, or DONE with its delivery, and settled. */
  lemma ReconcilerFreesOnlySettledCouriers(cfg: Config, s: Sys, actions: seq<Action>, n: nat, p: Pid)
    requires Init(cfg, s) && FreshRun(cfg, s, actions) && n <= |actions|
    requires var x := At(cfg, s, actions, n);
             && p in x.procs && x.procs[p].ReconcileProc? && x.procs[p].reconcile.RecLoop?
             && x.procs[p].reconcile.carriers != []
             && ReconcileStep(cfg.dist, x.db, x.procs[p].reconcile, x.now, []).0 != x.db
    ensures var x := At(cfg, s, actions, n);
            var pc := x.procs[p].reconcile;
            var head := HeadRelease(cfg.dist, pc);
            && head.Some?
            && var (carrier, route, stuck) := head.value;
            && carrier == pc.carriers[0] && carrier.status == Busy && carrier.currentOrderId == Some(route.orderId)
            && BelongsToAssignment(route, carrier)
            && (HasEnded(x, Key(route))
                 || (HasDelivery(x, Key(route)) && StateOf(x.db.docs.archive[Key(route)]) == Done))
            && (route.endedAt.Some? || route.deliveredAt.Some? ==> Settled(stuck.at, pc.now, pc.graceMs))
            && ReconcileStep(cfg.dist, x.db, pc, x.now, []).0
               == x.db.(couriers := x.db.couriers[carrier.id := FreedAt(x.db.couriers[carrier.id], stuck.at,
                 stuck.location)])
  {
    LaterStates(cfg, s, actions, n, n);
    var x := At(cfg, s, actions, n);
    var pc := x.procs[p].reconcile;
    assert ProcOk(cfg.dist, x.db.docs, x.db.events, x.procs[p]);
    var (carrier, route, stuck) := HeadRelease(cfg.dist, pc).value;
    assert IsCopy(cfg.dist, x.db.docs, x.db.events, route);
    assert Sound(cfg.dist, x.db.events, route);
  }

  ghost predicate OnPage(s: Sys, p: Pid, carrier: Courier) {
    p in s.procs && s.procs[p].ReconcileProc?
    && (s.procs[p].reconcile.RecRoutes? || s.procs[p].reconcile.RecLoop?)
    && carrier in s.procs[p].reconcile.carriers
  }

  /** Every carrier a reconciliation works on was read from the store, just as it is in hand. */
  lemma {:induction false} CarriersWereRead(cfg: Config, s: Sys, actions: seq<Action>, n: nat, p: Pid, carrier: Courier)
    returns (i: nat)
    requires Init(cfg, s) && n <= |actions| && OnPage(At(cfg, s, actions, n), p, carrier)
    ensures i < n
    ensures var couriers := At(cfg, s, actions, i).db.couriers;
            carrier.id in couriers && couriers[carrier.id] == carrier
  {
    assert actions[..0] == [];
    if n == 0 {
      assert false;
    }
    NextState(cfg, s, actions, n - 1);
    if OnPage(At(cfg, s, actions, n - 1), p, carrier) {
      i := CarriersWereRead(cfg, s, actions, n - 1, p, carrier);
    } else {
      i := n - 1;
      PagesAreReadFromTheStore(cfg, At(cfg, s, actions, i), actions[i], p, carrier);
    }
  }

  lemma PagesAreReadFromTheStore(cfg: Config, x: Sys, a: Action, p: Pid, carrier: Courier)
    requires !OnPage(x, p, carrier) && OnPage(Apply(cfg, x, a), p, carrier)
    ensures carrier.id in x.db.couriers && x.db.couriers[carrier.id] == carrier
  {
  }
}
