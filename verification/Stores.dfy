/**
 * The two document stores and the event log, first as functions on their contents, then as the objects
 * that keep them (domain/route-repository.ts, domain/courier-repository.ts, infrastructure/memory).
 * Every store call is one atomic step.
 */
module Stores {
  import opened Common
  import opened Geometry
  import opened Routes

  // ---------- routes ----------

  /** The current route of each order, and the latest version of every identity ever stored. */
  datatype Docs = Docs(routes: map<OrderId, Route>, archive: map<RouteKey, Route>)

  function FindRoute(docs: Docs, orderId: OrderId): Option<Route> {
    if orderId in docs.routes then Some(docs.routes[orderId]) else None
  }

  function Write(docs: Docs, route: Route): Docs {
    Docs(docs.routes[route.orderId := route], docs.archive[Key(route) := route])
  }

  /** The condition of the conditional update: same route, still moving, and no ENDED over a recorded delivery. */
  predicate Accepts(stored: Route, route: Route, patch: RoutePatch) {
    && SameRoute(stored, route)
    && StateOf(stored) == Moving
    && !(patch.state == Some(Ended) && stored.deliveredAt.Some?)
  }

  function UpdateDocs(docs: Docs, route: Route, patch: RoutePatch): (Docs, Option<Route>) {
    if route.orderId in docs.routes && Accepts(docs.routes[route.orderId], route, patch) then
      var updated := Patched(docs.routes[route.orderId], patch);
      (Docs(docs.routes[route.orderId := updated], docs.archive[Key(updated) := updated]), Some(updated))
    else (docs, None)
  }

  function InsertDocs(docs: Docs, route: Route): (Docs, Route) {
    if route.orderId in docs.routes then (docs, docs.routes[route.orderId]) else (Write(docs, route), route)
  }

  /**
   * A read of an order sees the last write to it, a refused update leaves no trace, and other orders are not touched.
   */
  lemma ReadsSeeTheLastWrite(docs: Docs, route: Route, patch: RoutePatch, orderId: OrderId)
    requires forall o :: o in docs.routes ==> docs.routes[o].orderId == o
    ensures FindRoute(Write(docs, route), orderId)
         == if orderId == route.orderId then Some(route) else FindRoute(docs, orderId)
    ensures var (after, kept) := InsertDocs(docs, route);
            && FindRoute(after, route.orderId) == Some(kept)
            && (FindRoute(docs, route.orderId).Some? ==> FindRoute(docs, route.orderId) == Some(kept))
            && (orderId != route.orderId ==> FindRoute(after, orderId) == FindRoute(docs, orderId))
    ensures var (after, updated) := UpdateDocs(docs, route, patch);
            && (updated.Some? ==> updated.value.orderId == route.orderId && FindRoute(after, route.orderId) == updated)
            && (updated.None? ==> after == docs)
            && (orderId != route.orderId ==> FindRoute(after, orderId) == FindRoute(docs, orderId))
  {
  }

  /** Older by creation; ties are broken by the order id. */
  predicate CreatedBefore(left: Route, right: Route) {
    left.createdAt < right.createdAt || (left.createdAt == right.createdAt && left.orderId < right.orderId)
  }

  /** An older route comes first, and of two of one age the one of the smaller order. */
  lemma OlderComesFirst(left: Route, right: Route)
    ensures left.createdAt < right.createdAt ==> CreatedBefore(left, right) && !CreatedBefore(right, left)
    ensures left.createdAt == right.createdAt ==> (CreatedBefore(left, right) <==> left.orderId < right.orderId)
  {
  }

  ghost predicate IsMovingIn(routes: map<OrderId, Route>, r: Route) {
    r.orderId in routes && routes[r.orderId] == r && StateOf(r) == Moving
  }

  /** A listing of moving routes: current ones, oldest first, and nothing older is left out. */
  ghost predicate IsMovingPage(routes: map<OrderId, Route>, limit: nat, page: seq<Route>) {
    && |page| <= limit
    && (forall r :: r in page ==> IsMovingIn(routes, r))
    && (forall i, j :: 0 <= i < j < |page| ==> CreatedBefore(page[i], page[j]))
    && (forall o :: o in routes && StateOf(routes[o]) == Moving && routes[o] !in page ==>
          |page| == limit && forall r :: r in page ==> CreatedBefore(r, routes[o]))
  }

  class RouteStore {
    var routes: map<OrderId, Route>
    ghost var archive: map<RouteKey, Route>

    ghost function Contents(): Docs
      reads this
    {
      Docs(routes, archive)
    }

    constructor ()
      ensures Contents() == Docs(map[], map[])
    {
      routes := map[];
      archive := map[];
    }

    method FindByOrder(orderId: OrderId) returns (route: Option<Route>)
      ensures route.Some? <==> orderId in routes
      ensures route == FindRoute(Contents(), orderId)
      ensures Valid() && route.Some? ==> route.value.orderId == orderId
    {
      route := if orderId in routes then Some(routes[orderId]) else None;
    }

    ghost predicate Valid()
      reads this
    {
      forall o :: o in routes ==> routes[o].orderId == o
    }

    /** The moving routes, oldest first, at most `limit` of them. */
    method ListMoving(limit: nat) returns (page: seq<Route>)
      requires Valid()
      ensures IsMovingPage(routes, limit, page)
    {
      page := [];
      var rest := set o | o in routes && StateOf(routes[o]) == Moving;
      while |page| < limit && rest != {}
        invariant |page| <= limit && (forall o :: o in rest ==> o in routes && StateOf(routes[o]) == Moving)
        invariant forall r :: r in page ==> IsMovingIn(routes, r) && r.orderId !in rest
        invariant forall i, j :: 0 <= i < j < |page| ==> CreatedBefore(page[i], page[j])
        invariant forall r, o :: r in page && o in rest ==> CreatedBefore(r, routes[o])
        invariant forall o :: o in routes && StateOf(routes[o]) == Moving ==> o in rest || routes[o] in page
      {
        var first := FirstMoving(rest);
        page := page + [routes[first]];
        rest := rest - {first};
      }
    }

    method FirstMoving(orders: set<OrderId>) returns (first: OrderId)
      requires Valid() && orders != {} && (forall o :: o in orders ==> o in routes)
      ensures first in orders && forall o :: o in orders && o != first ==> CreatedBefore(routes[first], routes[o])
    {
      first :| first in orders;
      var rest := orders - {first};
      while rest != {}
        invariant rest <= orders && first in orders
        invariant forall o :: o in orders && o !in rest && o != first ==> CreatedBefore(routes[first], routes[o])
        decreases rest
      {
        var o :| o in rest;
        rest := rest - {o};
        if CreatedBefore(routes[o], routes[first]) {
          first := o;
        }
      }
    }

    method InsertOnce(route: Route) returns (stored: Route)
      modifies this
      ensures (Contents(), stored) == InsertDocs(old(Contents()), route)
    {
      if route.orderId in routes {
        return routes[route.orderId];
      }
      routes := routes[route.orderId := route];
      archive := archive[Key(route) := route];
      return route;
    }

    method Replace(route: Route)
      modifies this
      ensures Contents() == Write(old(Contents()), route)
    {
      routes := routes[route.orderId := route];
      archive := archive[Key(route) := route];
    }

    method Update(route: Route, patch: RoutePatch) returns (updated: Option<Route>)
      modifies this
      ensures (Contents(), updated) == UpdateDocs(old(Contents()), route, patch)
    {
      if route.orderId !in routes {
        return None;
      }
      var stored := routes[route.orderId];
      if || stored.courierId != route.courierId
         || stored.createdAt != route.createdAt
         || StateOf(stored) != Moving
         || (patch.state == Some(Ended) && stored.deliveredAt.Some?)
      {
        return None;
      }
      var patched := Patched(stored, patch);
      routes := routes[route.orderId := patched];
      archive := archive[Key(patched) := patched];
      return Some(patched);
    }
  }

  // ---------- couriers ----------

  type Couriers = map<CourierId, Courier>

  /** Documents sit under their own id, carry an order exactly while BUSY, and share no order. */
  ghost predicate CouriersOk(couriers: Couriers) {
    && (forall id :: id in couriers ==>
         couriers[id].id == id && (couriers[id].status == Busy <==> couriers[id].currentOrderId.Some?))
    && (forall a, b ::
          (a in couriers && b in couriers
           && couriers[a].currentOrderId.Some? && couriers[a].currentOrderId == couriers[b].currentOrderId)
          ==> a == b)
  }

  ghost predicate Carries(couriers: Couriers, id: CourierId, orderId: OrderId) {
    id in couriers && couriers[id].currentOrderId == Some(orderId)
  }

  ghost predicate IsCarried(couriers: Couriers, orderId: OrderId) {
    exists id :: Carries(couriers, id, orderId)
  }

  ghost function CarrierOf(couriers: Couriers, orderId: OrderId): (carrier: Option<Courier>)
    ensures carrier.Some? <==> IsCarried(couriers, orderId)
    ensures carrier.Some? ==> exists id :: Carries(couriers, id, orderId) && carrier.value == couriers[id]
  {
    if IsCarried(couriers, orderId) then
      var id :| Carries(couriers, id, orderId);
      Some(couriers[id])
    else None
  }

  lemma CarrierIsUnique(couriers: Couriers, id: CourierId, orderId: OrderId)
    requires CouriersOk(couriers) && Carries(couriers, id, orderId)
    ensures CarrierOf(couriers, orderId) == Some(couriers[id])
  {
  }

  function BusyWith(courier: Courier, orderId: OrderId, at: Instant): Courier {
    courier.(status := Busy, currentOrderId := Some(orderId), lastAssignedAt := Some(at), idleSince := None)
  }

  function ClaimCourier(couriers: Couriers, id: CourierId, orderId: OrderId, at: Instant): Couriers
    requires id in couriers
  {
    couriers[id := BusyWith(couriers[id], orderId, at)]
  }

  lemma ClaimKeepsCouriersOk(couriers: Couriers, id: CourierId, orderId: OrderId, at: Instant)
    requires CouriersOk(couriers) && id in couriers && !IsCarried(couriers, orderId)
    ensures CouriersOk(ClaimCourier(couriers, id, orderId, at))
  {
    forall other | other in couriers
      ensures couriers[other].currentOrderId != Some(orderId)
    {
      assert !Carries(couriers, other, orderId);
    }
  }

  function FreedAt(courier: Courier, at: Instant, location: Option<GeoPoint>): Courier {
    var moved := if location.Some?
                 then courier.(lastLocation := location.value, lastLocationAt := at)
                 else courier;
    moved.(status := Idle, currentOrderId := None, idleSince := Some(at))
  }

  /** Frees the courier only while it still carries this very order. */
  function ReleaseCouriers(couriers: Couriers, orderId: OrderId, at: Instant, courierId: CourierId,
                           location: Option<GeoPoint>)
    : (Couriers, Option<Courier>)
  {
    if courierId in couriers && couriers[courierId].currentOrderId == Some(orderId) then
      var freed := FreedAt(couriers[courierId], at, location);
      (couriers[courierId := freed], Some(freed))
    else (couriers, None)
  }

  datatype PoolRule = PoolRule(radiusMeters: real, bandMeters: real)

  type UsablePool = p: PoolRule | p.bandMeters > 0.0 witness PoolRule(1.0, 1.0)

  predicate InPool(dist: Metric, near: GeoPoint, rule: UsablePool, courier: Courier) {
    courier.status == Idle && dist(near, courier.lastLocation) <= rule.radiusMeters
  }

  ghost predicate PoolIsEmpty(dist: Metric, near: GeoPoint, rule: UsablePool, couriers: Couriers) {
    forall id :: id in couriers ==> !InPool(dist, near, rule, couriers[id])
  }

  function Band(dist: Metric, near: GeoPoint, rule: UsablePool, courier: Courier): int {
    (dist(near, courier.lastLocation) / rule.bandMeters).Floor
  }

  /** Nearest band first, then longest idle (never idle before everyone), then the id. */
  predicate Precedes(dist: Metric, near: GeoPoint, rule: UsablePool, left: Courier, right: Courier) {
    var l, r := Band(dist, near, rule, left), Band(dist, near, rule, right);
    if l != r then l < r
    else if left.idleSince != right.idleSince then
      left.idleSince.None? || (right.idleSince.Some? && left.idleSince.value < right.idleSince.value)
    else left.id < right.id
  }

  lemma PrecedesIsAStrictOrder(dist: Metric, near: GeoPoint, rule: UsablePool, a: Courier, b: Courier, c: Courier)
    ensures !Precedes(dist, near, rule, a, a)
    ensures Precedes(dist, near, rule, a, b) && Precedes(dist, near, rule, b, c) ==> Precedes(dist, near, rule, a, c)
    ensures a.id != b.id ==> Precedes(dist, near, rule, a, b) || Precedes(dist, near, rule, b, a)
  {
  }

  // ---------- what claiming and releasing mean for a courier ----------

  /** The courier has been free since this moment, at the place it was left at, or where it was. */
  predicate IsFreed(before: Courier, after: Courier, at: Instant, place: Option<GeoPoint>) {
    && after.status == Idle && after.currentOrderId.None? && after.idleSince == Some(at)
    && after.id == before.id && after.name == before.name && after.lastAssignedAt == before.lastAssignedAt
    && match place
       case Some(p) => after.lastLocation == p && after.lastLocationAt == at
       case None => after.lastLocation == before.lastLocation && after.lastLocationAt == before.lastLocationAt
  }

  /** The courier has been busy with the order since this moment, and is where it was. */
  predicate IsTaken(before: Courier, after: Courier, orderId: OrderId, at: Instant) {
    && after.status == Busy && after.currentOrderId == Some(orderId)
    && after.lastAssignedAt == Some(at) && after.idleSince.None?
    && after.id == before.id && after.name == before.name
    && after.lastLocation == before.lastLocation && after.lastLocationAt == before.lastLocationAt
  }

  predicate OnlyDiffersAt(before: Couriers, after: Couriers, id: CourierId) {
    before.Keys == after.Keys && forall other :: other in before && other != id ==> after[other] == before[other]
  }

  /** A release frees the courier that carries the order, and nobody otherwise; then nobody carries it. */
  lemma ReleaseFreesTheCarrier(couriers: Couriers, orderId: OrderId, at: Instant, courierId: CourierId,
                               location: Option<GeoPoint>)
    requires CouriersOk(couriers)
    ensures var (after, freed) := ReleaseCouriers(couriers, orderId, at, courierId, location);
            if Carries(couriers, courierId, orderId) then
              && courierId in after && freed == Some(after[courierId]) && OnlyDiffersAt(couriers, after, courierId)
              && IsFreed(couriers[courierId], after[courierId], at, location) && !IsCarried(after, orderId)
            else after == couriers && freed.None?
  {
    if Carries(couriers, courierId, orderId) {
      var after := ReleaseCouriers(couriers, orderId, at, courierId, location).0;
      forall id | id in after
        ensures !Carries(after, id, orderId)
      {
        assert id != courierId ==> !Carries(couriers, id, orderId);
      }
    }
  }

  /** A freed courier can be claimed again exactly around the places within the radius of where it was left. */
  lemma FreedCouriersCanBeClaimed(dist: Metric, near: GeoPoint, rule: UsablePool, couriers: Couriers, orderId: OrderId,
                                  at: Instant, courierId: CourierId, location: Option<GeoPoint>)
    requires CouriersOk(couriers) && Carries(couriers, courierId, orderId)
    ensures var after := ReleaseCouriers(couriers, orderId, at, courierId, location).0;
            var place := if location.Some? then location.value else couriers[courierId].lastLocation;
            courierId in after && (InPool(dist, near, rule, after[courierId])
              <==> dist(near, place) <= rule.radiusMeters)
            && (dist(near, place) <= rule.radiusMeters ==> !PoolIsEmpty(dist, near, rule, after))
  {
    ReleaseFreesTheCarrier(couriers, orderId, at, courierId, location);
  }

  /** A claim takes the courier out of every pool until it is released. */
  lemma ClaimTakesTheCourier(dist: Metric, near: GeoPoint, rule: UsablePool, couriers: Couriers, id: CourierId,
                             orderId: OrderId, at: Instant)
    requires id in couriers
    ensures var after := ClaimCourier(couriers, id, orderId, at);
            && OnlyDiffersAt(couriers, after, id) && IsTaken(couriers[id], after[id], orderId, at)
            && !InPool(dist, near, rule, after[id])
  {
  }

  /** The band of a distance. */
  predicate InBand(band: int, meters: real, width: real) {
    band as real * width <= meters < (band + 1) as real * width
  }

  /** Idle for longer; whoever was never idle comes first. */
  predicate IdleLonger(left: Courier, right: Courier) {
    match (left.idleSince, right.idleSince)
    case (None, Some(_)) => true
    case (Some(l), Some(r)) => l < r
    case _ => false
  }

  /** The pool prefers the nearer band, within a band the longer idle, and among these the smaller id. */
  lemma PoolPrefers(dist: Metric, near: GeoPoint, rule: UsablePool, left: Courier, right: Courier)
    returns (l: int, r: int)
    ensures InBand(l, dist(near, left.lastLocation), rule.bandMeters)
    ensures InBand(r, dist(near, right.lastLocation), rule.bandMeters)
    ensures Precedes(dist, near, rule, left, right)
       <==> || l < r
            || (l == r && IdleLonger(left, right))
            || (l == r && left.idleSince == right.idleSince && left.id < right.id)
  {
    l, r := Band(dist, near, rule, left), Band(dist, near, rule, right);
    BandHolds(dist(near, left.lastLocation), rule.bandMeters);
    BandHolds(dist(near, right.lastLocation), rule.bandMeters);
  }

  lemma BandHolds(meters: real, width: real)
    requires width > 0.0
    ensures InBand((meters / width).Floor, meters, width)
  {
    var ratio := meters / width;
    var band := ratio.Floor;
    assert ratio * width == meters;
    assert (ratio - band as real) * width >= 0.0;
    assert ((band + 1) as real - ratio) * width > 0.0;
  }

  // ---------- listings of carriers ----------

  predicate IsListed(courier: Courier, after: Option<OrderId>) {
    courier.currentOrderId.Some? && (after.Some? ==> after.value < courier.currentOrderId.value)
  }

  /** A listing of carriers: current ones, by order id, and none with a smaller order id is left out. */
  ghost predicate IsCarryingPage(couriers: Couriers, limit: nat, after: Option<OrderId>, page: seq<Courier>) {
    && |page| <= limit
    && (forall c :: c in page ==> IsListed(c, after) && c.id in couriers && couriers[c.id] == c)
    && (forall i, j :: 0 <= i < j < |page| ==> page[i].currentOrderId.value < page[j].currentOrderId.value)
    && (forall id :: id in couriers && IsListed(couriers[id], after) && couriers[id] !in page ==>
          |page| == limit && forall c :: c in page ==> c.currentOrderId.value < couriers[id].currentOrderId.value)
  }

  /** A listing under way: `page` is listed, `rest` still to come, in this order. */
  ghost predicate Listing(couriers: Couriers, after: Option<OrderId>, page: seq<Courier>, rest: set<CourierId>) {
    && (forall id :: id in rest ==> id in couriers && IsListed(couriers[id], after))
    && (forall c :: c in page ==> IsListed(c, after) && c.id in couriers && couriers[c.id] == c && c.id !in rest)
    && (forall i, j :: 0 <= i < j < |page| ==> page[i].currentOrderId.value < page[j].currentOrderId.value)
    && (forall c, id :: c in page && id in rest ==> c.currentOrderId.value < couriers[id].currentOrderId.value)
    && (forall id :: id in couriers && IsListed(couriers[id], after) ==> id in rest || couriers[id] in page)
  }

  lemma ListingGrows(couriers: Couriers, after: Option<OrderId>, page: seq<Courier>, rest: set<CourierId>,
                     first: CourierId)
    requires Listing(couriers, after, page, rest) && first in rest && couriers[first].id == first
    requires forall id :: id in rest && id != first ==>
             couriers[first].currentOrderId.value < couriers[id].currentOrderId.value
    ensures Listing(couriers, after, page + [couriers[first]], rest - {first})
  {
    var grown := page + [couriers[first]];
    forall c | c in grown ensures c in page || c == couriers[first] {
    }
    assert couriers[first] in grown && forall c :: c in page ==> c in grown;
  }

  datatype ClaimResult = Claimed(courier: Courier) | NoneFree | Conflict

  class CourierStore {
    var couriers: Couriers

    ghost predicate Valid()
      reads this
    {
      CouriersOk(couriers)
    }

    constructor (initial: Couriers)
      requires CouriersOk(initial)
      ensures Valid() && couriers == initial
    {
      couriers := initial;
    }

    method FindByOrder(orderId: OrderId) returns (carrier: Option<Courier>)
      requires Valid()
      ensures carrier == CarrierOf(couriers, orderId)
    {
      var rest := couriers.Keys;
      while rest != {}
        invariant rest <= couriers.Keys
        invariant forall id :: id in couriers && id !in rest ==> !Carries(couriers, id, orderId)
        decreases rest
      {
        var id :| id in rest;
        if couriers[id].currentOrderId == Some(orderId) {
          CarrierIsUnique(couriers, id, orderId);
          return Some(couriers[id]);
        }
        rest := rest - {id};
      }
      return None;
    }

    /** The couriers that carry an order after the cursor, by order id, at most `limit` of them. */
    method ListCarrying(limit: nat, after: Option<OrderId>) returns (page: seq<Courier>)
      requires Valid()
      ensures IsCarryingPage(couriers, limit, after, page)
    {
      page := [];
      var rest := set id | id in couriers && IsListed(couriers[id], after);
      while |page| < limit && rest != {}
        invariant |page| <= limit && Listing(couriers, after, page, rest)
      {
        var first := FirstCarrying(rest);
        ListingGrows(couriers, after, page, rest, first);
        page := page + [couriers[first]];
        rest := rest - {first};
      }
    }

    method FirstCarrying(ids: set<CourierId>) returns (first: CourierId)
      requires Valid() && ids != {} && (forall id :: id in ids ==> id in couriers && couriers[id].currentOrderId.Some?)
      ensures first in ids
      ensures forall id :: id in ids && id != first ==>
              couriers[first].currentOrderId.value < couriers[id].currentOrderId.value
    {
      first :| first in ids;
      var rest := ids - {first};
      while rest != {}
        invariant rest <= ids && first in ids
        invariant forall id :: id in ids && id !in rest && id != first ==>
                    couriers[first].currentOrderId.value < couriers[id].currentOrderId.value
        decreases rest
      {
        var id :| id in rest;
        rest := rest - {id};
        if couriers[id].currentOrderId.value < couriers[first].currentOrderId.value {
          first := id;
        }
      }
    }

    /** Claims the first free courier of the pool; a second courier for the same order is a conflict. */
    method ClaimNearest(dist: Metric, orderId: OrderId, near: GeoPoint, rule: UsablePool, at: Instant)
      returns (result: ClaimResult)
      requires Valid()
      modifies this
      ensures Valid()
      ensures result.NoneFree? <==> PoolIsEmpty(dist, near, rule, old(couriers))
      ensures result.Conflict? <==> !PoolIsEmpty(dist, near, rule, old(couriers)) && IsCarried(old(couriers), orderId)
      ensures !result.Claimed? ==> couriers == old(couriers)
      ensures result.Claimed? ==>
        var id := result.courier.id;
        && id in old(couriers) && InPool(dist, near, rule, old(couriers)[id])
        && (forall other :: other in old(couriers) && other != id && InPool(dist, near, rule, old(couriers)[other])
                            ==> Precedes(dist, near, rule, old(couriers)[id], old(couriers)[other]))
        && couriers == ClaimCourier(old(couriers), id, orderId, at) && result.courier == couriers[id]
    {
      var best: Option<CourierId> := None;
      var rest := couriers.Keys;
      while rest != {}
        invariant couriers == old(couriers) && rest <= couriers.Keys
        invariant best.Some? ==>
                  best.value in couriers && best.value !in rest && InPool(dist, near, rule, couriers[best.value])
        invariant forall id :: id in couriers && id !in rest && InPool(dist, near, rule, couriers[id]) ==>
                    best.Some? && (id == best.value || Precedes(dist, near, rule, couriers[best.value], couriers[id]))
        decreases rest
      {
        var id :| id in rest;
        rest := rest - {id};
        if InPool(dist, near, rule, couriers[id]) {
          if best.None? || Precedes(dist, near, rule, couriers[id], couriers[best.value]) {
            if best.Some? {
              forall c | c in couriers {
                PrecedesIsAStrictOrder(dist, near, rule, couriers[id], couriers[best.value], couriers[c]);
              }
            }
            best := Some(id);
          } else {
            PrecedesIsAStrictOrder(dist, near, rule, couriers[id], couriers[best.value], couriers[id]);
          }
        }
      }
      if best.None? {
        return NoneFree;
      }
      var carrier := FindByOrder(orderId);
      if carrier.Some? {
        return Conflict;
      }
      ClaimKeepsCouriersOk(couriers, best.value, orderId, at);
      couriers := couriers[best.value := BusyWith(couriers[best.value], orderId, at)];
      return Claimed(couriers[best.value]);
    }

    method ReleaseByOrder(orderId: OrderId, at: Instant, courierId: CourierId, location: Option<GeoPoint>)
      returns (freed: Option<Courier>)
      requires Valid()
      modifies this
      ensures Valid()
      ensures (couriers, freed) == ReleaseCouriers(old(couriers), orderId, at, courierId, location)
    {
      var carrier := FindByOrder(orderId);
      if carrier.None? || carrier.value.id != courierId {
        if courierId in couriers && couriers[courierId].currentOrderId == Some(orderId) {
          CarrierIsUnique(couriers, courierId, orderId);
        }
        return None;
      }
      var released := FreedAt(carrier.value, at, location);
      couriers := couriers[released.id := released];
      return Some(released);
    }
  }

  // ---------- events ----------

  datatype RouteEvent =
    | PickedUpEvent(key: RouteKey, marketId: MarketId, at: Instant)
    | DeliveredEvent(key: RouteKey, at: Instant)

  class EventLog {
    var events: seq<RouteEvent>

    constructor ()
      ensures events == []
    {
      events := [];
    }

    method Publish(event: RouteEvent)
      modifies this
      ensures events == old(events) + [event]
    {
      events := events + [event];
    }
  }

  // ---------- live locations ----------

  datatype LiveLocation = LiveLocation(location: GeoPoint, at: Instant)

  class LiveLocationStore {
    var locations: map<CourierId, LiveLocation>

    constructor ()
      ensures locations == map[]
    {
      locations := map[];
    }

    method Save(courierId: CourierId, live: LiveLocation)
      modifies this
      ensures locations == old(locations)[courierId := live]
    {
      locations := locations[courierId := live];
    }
  }

  /** Everything the port calls of the courier service read and write. */
  datatype Db = Db(docs: Docs, couriers: Couriers, events: seq<RouteEvent>, live: map<CourierId, LiveLocation>)
}
