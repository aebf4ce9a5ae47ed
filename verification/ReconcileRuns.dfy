/** Whole reconciliation runs: what one run frees, and how the keyed cursor reaches every carrier. */
module ReconcileRuns {
  import opened Common
  import opened Geometry
  import opened Routes
  import opened Stores
  import opened ReconcileCarriers

  // ---------- the cursor reaches every carrier ----------

  /** Consecutive runs: the carried orders each one sees, the cursors between them and the pages they examine. */
  ghost predicate IsCursorRun(limit: nat, cursors: seq<Option<OrderId>>, carried: seq<set<OrderId>>,
                              pages: seq<seq<OrderId>>) {
    && limit > 0 && |carried| == |pages| && |cursors| == |pages| + 1
    && (forall i :: 0 <= i < |pages| ==>
          IsPage(carried[i], limit, cursors[i], pages[i]) && cursors[i + 1] == NextCursor(limit, pages[i]))
  }

  function After(universe: set<OrderId>, cursor: Option<OrderId>): set<OrderId> {
    set u | u in universe && (cursor.None? || cursor.value < u)
  }

  function Before(universe: set<OrderId>, order: OrderId): set<OrderId> {
    set u | u in universe && u < order
  }

  /** `order` is examined within k more runs: k full pages are more than the orders still ahead of it. */
  ghost predicate Within(limit: nat, universe: set<OrderId>, cursor: Option<OrderId>, order: OrderId, k: nat) {
    if cursor.None? || cursor.value < order
    then |After(universe, cursor) * Before(universe, order)| < k * limit
    else k >= 1 && |After(universe, cursor)| + |Before(universe, order)| < (k - 1) * limit
  }

  function Elements(page: seq<OrderId>): set<OrderId> {
    set o | o in page
  }

  lemma {:induction false} SortedPageSize(page: seq<OrderId>)
    requires forall i, j :: 0 <= i < j < |page| ==> page[i] < page[j]
    ensures |Elements(page)| == |page|
  {
    if page != [] {
      var init, last := page[..|page| - 1], page[|page| - 1];
      SortedPageSize(init);
      assert forall o :: o in init ==> o < last;
      assert page == init + [last];
      assert Elements(page) == Elements(init) + {last};
    }
  }

  lemma SubsetIsSmaller(small: set<OrderId>, large: set<OrderId>)
    requires small <= large
    ensures |small| <= |large|
  {
    assert |large| == |small| + |large - small| by {
      assert large == small + (large - small);
    }
  }

  /** A full page uses up `limit` of the orders after the cursor. */
  lemma FullPageShrinks(limit: nat, whole: set<OrderId>, rest: set<OrderId>, page: seq<OrderId>)
    requires forall i, j :: 0 <= i < j < |page| ==> page[i] < page[j]
    requires |page| == limit && (forall o :: o in page ==> o in whole)
    requires rest <= whole && (forall o :: o in page ==> o !in rest)
    ensures |rest| + limit <= |whole|
  {
    var used := Elements(page);
    assert used <= whole && used !! rest;
    SortedPageSize(page);
    assert |rest + used| == |rest| + |used|;
    SubsetIsSmaller(rest + used, whole);
  }

  lemma OneFewer(k: nat, limit: nat)
    requires k >= 1
    ensures (k - 1) * limit == k * limit - limit
  {
  }

  /** A run that does not examine the order brings it one run nearer. */
  lemma MissingTheOrderIsProgress(limit: nat, universe: set<OrderId>, carried: set<OrderId>, cursor: Option<OrderId>,
                                  page: seq<OrderId>, order: OrderId, k: nat)
    requires limit > 0 && IsPage(carried, limit, cursor, page)
    requires order in carried && carried <= universe && order !in page
    requires Within(limit, universe, cursor, order, k)
    ensures k >= 1 && Within(limit, universe, NextCursor(limit, page), order, k - 1)
  {
    var next := NextCursor(limit, page);
    var ahead, ahead' := After(universe, cursor) * Before(universe, order),
      After(universe, next) * Before(universe, order);
    if cursor.None? || cursor.value < order {
      assert k >= 1;
      FullPageShrinks(limit, ahead, ahead', page);
      OneFewer(k, limit);
    } else if |page| == limit {
      FullPageShrinks(limit, After(universe, cursor), After(universe, next), page);
      assert k >= 2;
      OneFewer(k - 1, limit);
    } else {
      SubsetIsSmaller(ahead', Before(universe, order));
    }
  }

  lemma {:induction false} CursorReachesTheOrder(limit: nat, universe: set<OrderId>, cursors: seq<Option<OrderId>>,
                                                 carried: seq<set<OrderId>>, pages: seq<seq<OrderId>>, order: OrderId,
                                                 k: nat)
    requires IsCursorRun(limit, cursors, carried, pages)
    requires forall i :: 0 <= i < |carried| ==> order in carried[i] && carried[i] <= universe
    requires Within(limit, universe, cursors[0], order, k) && k <= |pages|
    ensures exists i :: 0 <= i < k && order in pages[i]
    decreases |pages|
  {
    assert k >= 1;
    if order !in pages[0] {
      MissingTheOrderIsProgress(limit, universe, carried[0], cursors[0], pages[0], order, k);
      CursorReachesTheOrder(limit, universe, cursors[1..], carried[1..], pages[1..], order, k - 1);
      var i :| 0 <= i < k - 1 && order in pages[1..][i];
      assert pages[i + 1] == pages[1..][i];
    }
  }

  function CeilDiv(n: nat, limit: nat): (q: nat)
    requires limit > 0
    ensures n <= q * limit < n + limit
  {
    var q := (n + limit - 1) / limit;
    assert n + limit - 1 == q * limit + (n + limit - 1) % limit;
    q
  }

  /**
   * Wherever the cursor stands and whatever happens to the other carriers, an order that stays carried is
   * examined within ceil(n / batch) + 1 runs, n being the number of orders carried at any time meanwhile.
   */
  lemma EveryCarrierIsExamined(limit: nat, universe: set<OrderId>, cursors: seq<Option<OrderId>>,
                               carried: seq<set<OrderId>>, pages: seq<seq<OrderId>>, order: OrderId)
    requires IsCursorRun(limit, cursors, carried, pages)
    requires forall i :: 0 <= i < |carried| ==> order in carried[i] && carried[i] <= universe
    requires |pages| == CeilDiv(|universe|, limit) + 1
    ensures exists i :: 0 <= i < |pages| && order in pages[i]
  {
    assert order in carried[0];
    BoundCoversEveryCursor(limit, universe, cursors[0], order);
    CursorReachesTheOrder(limit, universe, cursors, carried, pages, order, |pages|);
  }

  lemma BoundCoversEveryCursor(limit: nat, universe: set<OrderId>, cursor: Option<OrderId>, order: OrderId)
    requires limit > 0 && order in universe
    ensures Within(limit, universe, cursor, order, CeilDiv(|universe|, limit) + 1)
  {
    var others := universe - {order};
    var after, before := After(universe, cursor), Before(universe, order);
    var k := CeilDiv(|universe|, limit);
    if cursor.None? || cursor.value < order {
      SubsetIsSmaller(after * before, others);
      OneFewer(k + 1, limit);
    } else {
      assert after !! before;
      assert |after + before| == |after| + |before|;
      SubsetIsSmaller(after + before, others);
    }
  }

  // ---------- one run ----------

  /** The loop over a page, cut when the budget of releases is used up. */
  function RunLoop(dist: Metric, db: Db, pc: ReconcilePc, budget: nat): (Db, nat)
    requires pc.RecLoop?
    decreases |pc.carriers|
  {
    if pc.carriers == [] then (db, pc.released)
    else if HeadRelease(dist, pc).Some? && budget == 0 then (db, pc.released)
    else
      var next := ReconcileStep(dist, db, pc, pc.now, []);
      RunLoop(dist, next.0, next.1, if HeadRelease(dist, pc).Some? then budget - 1 else budget)
  }

  function StuckOf(dist: Metric, pc: ReconcilePc, carrier: Courier): Option<StuckRelease>
    requires pc.RecLoop?
  {
    if carrier.currentOrderId.None? || carrier.currentOrderId.value !in pc.routes then None
    else StuckReleaseOf(dist, carrier, pc.routes[carrier.currentOrderId.value], pc.now, pc.graceMs, pc.rule)
  }

  /** The courier as a run leaves it: as it was, or freed where its route left it. */
  ghost function LeftBy(dist: Metric, pc: ReconcilePc, c: Courier): Courier
    requires pc.RecLoop?
  {
    var stuck := StuckOf(dist, pc, c);
    if stuck.None? then c else FreedAt(c, stuck.value.at, stuck.value.location)
  }

  /** Exactly the stuck ones of these carriers are freed, and nothing else changes. */
  ghost predicate FreesExactlyTheStuck(dist: Metric, db: Db, pc: ReconcilePc, after: Db)
    requires pc.RecLoop?
  {
    && after.(couriers := db.couriers) == db && after.couriers.Keys == db.couriers.Keys
    && (forall c :: c in pc.carriers ==> c.id in after.couriers && after.couriers[c.id] == LeftBy(dist, pc, c))
    && (forall id :: id in db.couriers && (forall c :: c in pc.carriers ==> c.id != id) ==>
          after.couriers[id] == db.couriers[id])
  }

  ghost predicate CurrentCarriers(db: Db, pc: ReconcilePc)
    requires pc.RecLoop?
  {
    && (forall i, j :: 0 <= i < j < |pc.carriers| ==> pc.carriers[i].id != pc.carriers[j].id)
    && (forall c :: c in pc.carriers ==> c.id in db.couriers && db.couriers[c.id] == c)
    && (forall o :: o in pc.routes ==> pc.routes[o].orderId == o)
  }

  lemma RestStaysCurrent(dist: Metric, db: Db, pc: ReconcilePc, next: Db, rest: ReconcilePc)
    requires pc.RecLoop? && pc.carriers != [] && CurrentCarriers(db, pc) && rest.RecLoop?
             && rest == pc.(carriers := pc.carriers[1..], released := rest.released)
    requires next == db.(couriers := db.couriers[pc.carriers[0].id := LeftBy(dist, pc, pc.carriers[0])])
    ensures CurrentCarriers(next, rest)
  {
    forall d | d in rest.carriers
      ensures d.id in next.couriers && next.couriers[d.id] == d
    {
      var k :| 0 <= k < |pc.carriers[1..]| && pc.carriers[1..][k] == d;
      assert pc.carriers[k + 1] == d && pc.carriers[0].id != d.id;
    }
  }

  /** The head first, then the rest. */
  lemma HeadThenRest(dist: Metric, db: Db, pc: ReconcilePc, next: Db, rest: ReconcilePc, after: Db)
    requires pc.RecLoop? && pc.carriers != [] && CurrentCarriers(db, pc)
    requires rest.RecLoop? && rest == pc.(carriers := pc.carriers[1..], released := rest.released)
    requires next == db.(couriers := db.couriers[pc.carriers[0].id := LeftBy(dist, pc, pc.carriers[0])])
    requires FreesExactlyTheStuck(dist, next, rest, after)
    ensures FreesExactlyTheStuck(dist, db, pc, after)
  {
    var head := pc.carriers[0];
    assert pc.carriers == [head] + rest.carriers;
    forall c | c in rest.carriers
      ensures c.id != head.id && LeftBy(dist, rest, c) == LeftBy(dist, pc, c)
    {
      OthersAreLeftAlike(dist, db, pc, rest, c);
    }
  }

  lemma OthersAreLeftAlike(dist: Metric, db: Db, pc: ReconcilePc, rest: ReconcilePc, c: Courier)
    requires pc.RecLoop? && pc.carriers != [] && CurrentCarriers(db, pc)
    requires rest.RecLoop? && rest == pc.(carriers := pc.carriers[1..], released := rest.released)
    requires c in rest.carriers
    ensures c.id != pc.carriers[0].id && LeftBy(dist, rest, c) == LeftBy(dist, pc, c)
  {
    var k :| 0 <= k < |rest.carriers| && rest.carriers[k] == c;
    assert pc.carriers[k + 1] == c;
  }

  /** An uncut run over current carriers frees exactly the stuck ones, each where its route left it. */
  lemma {:induction false} QuietRunFreesExactlyTheStuck(dist: Metric, db: Db, pc: ReconcilePc, budget: nat)
    requires pc.RecLoop? && |pc.carriers| <= budget && CurrentCarriers(db, pc)
    ensures FreesExactlyTheStuck(dist, db, pc, RunLoop(dist, db, pc, budget).0)
    decreases |pc.carriers|
  {
    if pc.carriers != [] {
      var (next, rest) := ReconcileStep(dist, db, pc, pc.now, []);
      HeadStep(dist, db, pc);
      RestStaysCurrent(dist, db, pc, next, rest);
      var left := if HeadRelease(dist, pc).Some? then budget - 1 else budget;
      QuietRunFreesExactlyTheStuck(dist, next, rest, left);
      HeadThenRest(dist, db, pc, next, rest, RunLoop(dist, next, rest, left).0);
    }
  }

  lemma HeadStep(dist: Metric, db: Db, pc: ReconcilePc)
    requires pc.RecLoop? && pc.carriers != []
    requires var c := pc.carriers[0]; c.id in db.couriers && db.couriers[c.id] == c
    requires forall o :: o in pc.routes ==> pc.routes[o].orderId == o
    ensures var c := pc.carriers[0];
            var (after, pc') := ReconcileStep(dist, db, pc, pc.now, []);
            var stuck := StuckOf(dist, pc, c);
            && after == db.(couriers := db.couriers[
                              c.id := if stuck.None? then c else FreedAt(c, stuck.value.at, stuck.value.location)])
            && pc'.RecLoop? && pc' == pc.(carriers := pc.carriers[1..], released := pc'.released)
            && pc'.released == pc.released + (if stuck.Some? then 1 else 0)
            && (HeadRelease(dist, pc).Some? <==> stuck.Some?)
  {
    var c := pc.carriers[0];
    if StuckOf(dist, pc, c).None? {
      assert db.couriers[c.id := c] == db.couriers;
    }
  }

  /** The loop with other carriers before it. */
  function Examining(pc: ReconcilePc, carriers: seq<Courier>): ReconcilePc
    requires pc.RecLoop?
  {
    RecLoop(carriers, pc.routes, pc.now, pc.rule, pc.graceMs, pc.released)
  }

  /** How many of these carriers are stuck. */
  function StuckAmong(dist: Metric, pc: ReconcilePc, carriers: seq<Courier>): nat
    requires pc.RecLoop?
  {
    if carriers == [] then 0
    else (if StuckOf(dist, pc, carriers[0]).Some? then 1 else 0) + StuckAmong(dist, pc, carriers[1..])
  }

  /** Only the roads, the routes and the moment decide who is stuck. */
  lemma {:induction false} StuckAlike(dist: Metric, pc: ReconcilePc, rest: ReconcilePc, carriers: seq<Courier>)
    requires pc.RecLoop? && rest.RecLoop? && rest.routes == pc.routes && rest.now == pc.now
    requires rest.rule == pc.rule && rest.graceMs == pc.graceMs
    ensures StuckAmong(dist, rest, carriers) == StuckAmong(dist, pc, carriers)
    decreases |carriers|
  {
    if carriers != [] {
      StuckAlike(dist, pc, rest, carriers[1..]);
    }
  }

  lemma FirstThenTheRest(dist: Metric, db: Db, pc: ReconcilePc, next: Db, rest: ReconcilePc, m: nat, after: Db)
    requires pc.RecLoop? && pc.carriers != [] && CurrentCarriers(db, pc)
    requires rest.RecLoop? && rest == pc.(carriers := pc.carriers[1..], released := rest.released) && m < |pc.carriers|
    requires next == db.(couriers := db.couriers[pc.carriers[0].id := LeftBy(dist, pc, pc.carriers[0])])
    requires FreesExactlyTheStuck(dist, next, Examining(rest, rest.carriers[..m]), after)
    ensures FreesExactlyTheStuck(dist, db, Examining(pc, pc.carriers[..m + 1]), after)
  {
    var part, tail := Examining(pc, pc.carriers[..m + 1]), Examining(rest, rest.carriers[..m]);
    assert part.carriers[1..] == tail.carriers;
    assert forall c :: c in part.carriers ==> c in pc.carriers;
    HeadThenRest(dist, db, part, next, tail, after);
  }

  /** The first m + 1 carriers of a run are its head and the first m of the rest. */
  lemma OneMoreExamined(dist: Metric, pc: ReconcilePc, rest: ReconcilePc, m: nat)
    requires pc.RecLoop? && pc.carriers != [] && m < |pc.carriers|
    requires rest.RecLoop? && rest == pc.(carriers := pc.carriers[1..], released := rest.released)
    ensures StuckAmong(dist, pc, pc.carriers[..m + 1])
         == (if StuckOf(dist, pc, pc.carriers[0]).Some? then 1 else 0) + StuckAmong(dist, rest, rest.carriers[..m])
    ensures m < |rest.carriers| ==> StuckOf(dist, rest, rest.carriers[m]) == StuckOf(dist, pc, pc.carriers[m + 1])
  {
    assert pc.carriers[..m + 1][1..] == rest.carriers[..m];
    StuckAlike(dist, pc, rest, rest.carriers[..m]);
  }

  /**
   * A run is cut before the n-th carrier exactly when as many before it are stuck as the budget allows, and so is it.
   */
  predicate IsCutAt(dist: Metric, pc: ReconcilePc, budget: nat, n: nat)
    requires pc.RecLoop?
  {
    && n <= |pc.carriers| && StuckAmong(dist, pc, pc.carriers[..n]) <= budget
    && (n < |pc.carriers| ==>
          StuckAmong(dist, pc, pc.carriers[..n]) == budget && StuckOf(dist, pc, pc.carriers[n]).Some?)
  }

  lemma CutAfterTheHead(dist: Metric, pc: ReconcilePc, rest: ReconcilePc, budget: nat, left: nat, m: nat)
    requires pc.RecLoop? && pc.carriers != []
    requires rest.RecLoop? && rest == pc.(carriers := pc.carriers[1..], released := rest.released)
    requires budget == left + (if StuckOf(dist, pc, pc.carriers[0]).Some? then 1 else 0)
    requires IsCutAt(dist, rest, left, m)
    ensures IsCutAt(dist, pc, budget, m + 1)
  {
    OneMoreExamined(dist, pc, rest, m);
  }

  /** Whatever its budget, a run frees, and counts, exactly the stuck ones of the carriers before the cut. */
  lemma {:induction false} BudgetCutsTheRun(dist: Metric, db: Db, pc: ReconcilePc, budget: nat) returns (n: nat)
    requires pc.RecLoop? && CurrentCarriers(db, pc)
    ensures IsCutAt(dist, pc, budget, n)
    ensures FreesExactlyTheStuck(dist, db, Examining(pc, pc.carriers[..n]), RunLoop(dist, db, pc, budget).0)
    ensures RunLoop(dist, db, pc, budget).1 == pc.released + StuckAmong(dist, pc, pc.carriers[..n])
    decreases |pc.carriers|
  {
    n := 0;
    if pc.carriers != [] {
      HeadStep(dist, db, pc);
      if !(HeadRelease(dist, pc).Some? && budget == 0) {
        var (next, rest) := ReconcileStep(dist, db, pc, pc.now, []);
        RestStaysCurrent(dist, db, pc, next, rest);
        var left := if HeadRelease(dist, pc).Some? then budget - 1 else budget;
        var m := BudgetCutsTheRun(dist, next, rest, left);
        n := m + 1;
        OneMoreExamined(dist, pc, rest, m);
        CutAfterTheHead(dist, pc, rest, budget, left, m);
        FirstThenTheRest(dist, db, pc, next, rest, m, RunLoop(dist, next, rest, left).0);
      }
    }
  }

  /** The orders of a listed page, which is a page of the keyed cursor. */
  function PageOrders(page: seq<Courier>): seq<OrderId>
    requires forall c :: c in page ==> c.currentOrderId.Some?
  {
    seq(|page|, i requires 0 <= i < |page| => page[i].currentOrderId.value)
  }

  ghost function Carried(couriers: Couriers): set<OrderId> {
    set id | id in couriers && couriers[id].currentOrderId.Some? :: couriers[id].currentOrderId.value
  }

  lemma ListingIsPage(couriers: Couriers, limit: nat, after: Option<OrderId>, page: seq<Courier>)
    requires IsCarryingPage(couriers, limit, after, page)
    ensures IsPage(Carried(couriers), limit, after, PageOrders(page))
  {
    var orders := PageOrders(page);
    forall i | 0 <= i < |orders| ensures orders[i] in Carried(couriers) {
      assert page[i] in page;
    }
    forall o | o in Carried(couriers) && (after.Some? ==> after.value < o) && o !in orders
      ensures |orders| == limit && forall i :: 0 <= i < |orders| ==> orders[i] < o
    {
      var id :| id in couriers && couriers[id].currentOrderId == Some(o);
      forall k | 0 <= k < |page| ensures page[k] != couriers[id] {
        assert orders[k] != o;
      }
      forall i | 0 <= i < |orders| ensures orders[i] < o {
        assert page[i] in page;
      }
    }
  }

  // ---------- the program ----------

  class ReconcileCarriersUseCase {
    const dist: Metric
    const routes: RouteStore
    const couriers: CourierStore
    const events: EventLog
    const live: LiveLocationStore
    const batchSize: nat
    const graceMs: nat
    var afterOrderId: Option<OrderId>

    constructor (dist: Metric, routes: RouteStore, couriers: CourierStore, events: EventLog, live: LiveLocationStore,
                 batchSize: nat, graceMs: nat)
      requires batchSize > 0
      ensures this.dist == dist && this.routes == routes && this.couriers == couriers
      ensures this.events == events && this.live == live
      ensures this.batchSize == batchSize && this.graceMs == graceMs && afterOrderId == None
    {
      this.dist, this.routes, this.couriers, this.events, this.live := dist, routes, couriers, events, live;
      this.batchSize, this.graceMs, afterOrderId := batchSize, graceMs, None;
    }

    ghost function Contents(): Db
      reads routes, couriers, events, live
    {
      Db(routes.Contents(), couriers.couriers, events.events, live.locations)
    }

    /** One run: a page of the cursor is examined, and the loop over it is the run of its releases. */
    method Run(rule: Movement, now: Instant, budget: nat) returns (released: nat, ghost page: seq<Courier>)
      requires couriers.Valid() && batchSize > 0
      modifies this`afterOrderId, couriers
      ensures couriers.Valid()
      ensures IsCarryingPage(old(couriers.couriers), batchSize, old(afterOrderId), page)
      ensures IsPage(Carried(old(couriers.couriers)), batchSize, old(afterOrderId), PageOrders(page))
      ensures afterOrderId == NextCursor(batchSize, PageOrders(page))
      ensures (Contents(), released)
           == RunLoop(dist, old(Contents()),
                      RecLoop(page, FindByOrders(old(routes.Contents()), OrdersOf(page)), now, rule, graceMs, 0),
                        budget)
    {
      var carriers := couriers.ListCarrying(batchSize, afterOrderId);
      page := carriers;
      ListingIsPage(couriers.couriers, batchSize, afterOrderId, page);
      if |carriers| < batchSize {
        afterOrderId := None;
      } else {
        assert carriers[|carriers| - 1] in carriers;
        afterOrderId := carriers[|carriers| - 1].currentOrderId;
      }
      released := 0;
      if carriers == [] {
        return;
      }
      var orderIds := OrdersOf(carriers);
      var found := map o | o in orderIds && o in routes.routes :: routes.routes[o];
      assert found == FindByOrders(routes.Contents(), orderIds);
      released := Loop(carriers, found, rule, now, budget);
    }

    method Loop(carriers: seq<Courier>, found: map<OrderId, Route>, rule: Movement, now: Instant, budget: nat)
      returns (released: nat)
      requires couriers.Valid()
      modifies couriers
      ensures couriers.Valid()
      ensures (Contents(), released)
           == RunLoop(dist, old(Contents()), RecLoop(carriers, found, now, rule, graceMs, 0), budget)
    {
      released := 0;
      var left := budget;
      var index := 0;
      while index < |carriers|
        invariant 0 <= index <= |carriers|
        invariant couriers.Valid()
        invariant RunLoop(dist, Contents(), RecLoop(carriers[index..], found, now, rule, graceMs, released), left)
               == RunLoop(dist, old(Contents()), RecLoop(carriers, found, now, rule, graceMs, 0), budget)
      {
        var carrier := carriers[index];
        ghost var pc := RecLoop(carriers[index..], found, now, rule, graceMs, released);
        var stuck :=
          if carrier.currentOrderId.None? || carrier.currentOrderId.value !in found then None
          else StuckReleaseOf(dist, carrier, found[carrier.currentOrderId.value], now, graceMs, rule);
        assert carriers[index..][1..] == carriers[index + 1..];
        if stuck.Some? {
          if left == 0 {
            return;
          }
          left := left - 1;
          var route := found[carrier.currentOrderId.value];
          ghost var before := Contents();
          var freed := couriers.ReleaseByOrder(route.orderId, stuck.value.at, carrier.id, stuck.value.location);
          if freed.Some? {
            released := released + 1;
          }
          assert ReconcileStep(dist, before, pc, now, [])
              == (Contents(), RecLoop(carriers[index + 1..], found, now, rule, graceMs, released));
        }
        index := index + 1;
      }
    }
  }
}
