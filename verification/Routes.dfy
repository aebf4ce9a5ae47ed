/** The courier and route documents and the predicates every use case shares (domain/courier.ts, domain/route.ts). */
module Routes {
  import opened Common
  import opened Geometry

  // Identifiers are only compared: for equality, order ids also by the store's index order.
  type OrderId = nat
  type CourierId = nat
  type MarketId = nat

  datatype CourierStatus = Idle | Busy | Offline

  datatype Courier = Courier(
    id: CourierId,
    name: string,
    status: CourierStatus,
    currentOrderId: Option<OrderId>,
    lastAssignedAt: Option<Instant>,
    idleSince: Option<Instant>,
    lastLocation: GeoPoint,
    lastLocationAt: Instant)

  predicate CarriesOrder(courier: Option<Courier>, orderId: OrderId) {
    courier.Some? && courier.value.status == Busy && courier.value.currentOrderId == Some(orderId)
  }

  datatype MovementRule = MovementRule(speedKmh: real, prepSeconds: real)

  /** A rule as configuration and the document mapper let it through: positive speed, no negative wait. */
  type Movement = m: MovementRule | m.speedKmh > 0.0 && m.prepSeconds >= 0.0
    witness MovementRule(1.0, 0.0)

  datatype RouteState = Moving | Done | Ended

  datatype RouteDocument = RouteDocument(
    orderId: OrderId,
    courierId: CourierId,
    points: seq<GeoPoint>,
    pickupIndex: nat,
    distanceMeters: int,
    etaSeconds: int,
    createdAt: Instant,
    movement: Option<Movement>,
    marketId: Option<MarketId>,
    state: Option<RouteState>,
    pickedUpAt: Option<Instant>,
    pickupPublished: bool,
    deliveredAt: Option<Instant>,
    deliveryPublished: bool,
    endedAt: Option<Instant>)

  /** A route as the planner writes it: the market is one of its points. */
  type Route = r: RouteDocument | r.pickupIndex < |r.points|
    witness RouteDocument(0, 0, [GeoPoint(0.0, 0.0)], 0, 0, 0, 0, None, None, None, None, false, None, false, None)

  /** One document per order, but one identity per assignment. */
  datatype RouteKey = RouteKey(orderId: OrderId, courierId: CourierId, createdAt: Instant)

  function Key(route: Route): RouteKey {
    RouteKey(route.orderId, route.courierId, route.createdAt)
  }

  /** Routes written before the state field existed count as moving. */
  function StateOf(route: Route): RouteState {
    if route.state.Some? then route.state.value else Moving
  }

  function DeliveredNoEarlierThan(deliveredAt: Instant, pickedUpAt: Option<Instant>): (at: Instant)
    ensures at >= deliveredAt && (pickedUpAt.Some? ==> at >= pickedUpAt.value)
    ensures at == deliveredAt || Some(at) == pickedUpAt
  {
    if pickedUpAt.Some? && pickedUpAt.value > deliveredAt then pickedUpAt.value else deliveredAt
  }

  predicate IsDelivered(route: Route) {
    route.deliveredAt.Some? || StateOf(route) == Done
  }

  predicate SameRoute(left: Route, right: Route) {
    left.courierId == right.courierId && left.createdAt == right.createdAt
  }

  predicate DeliveredMeanwhile(first: Route, again: Option<Route>) {
    again.Some? && SameRoute(again.value, first) && StateOf(again.value) != Ended && IsDelivered(again.value)
  }

  predicate BelongsToAssignment(route: Route, courier: Courier) {
    && route.courierId == courier.id
    && (courier.lastAssignedAt.Some? ==> route.createdAt >= courier.lastAssignedAt.value)
  }

  /** The fields a conditional update may set; an absent field is left alone. */
  datatype RoutePatch = RoutePatch(
    state: Option<RouteState>,
    pickedUpAt: Option<Instant>,
    pickupPublished: bool,
    deliveredAt: Option<Instant>,
    deliveryPublished: bool,
    endedAt: Option<Instant>)

  const NO_PATCH := RoutePatch(None, None, false, None, false, None)

  function Patched(stored: Route, patch: RoutePatch): Route {
    stored.(
      state := if patch.state.Some? then patch.state else stored.state,
      pickedUpAt := if patch.pickedUpAt.Some? then patch.pickedUpAt else stored.pickedUpAt,
      pickupPublished := patch.pickupPublished || stored.pickupPublished,
      deliveredAt := if patch.deliveredAt.Some? then patch.deliveredAt else stored.deliveredAt,
      deliveryPublished := patch.deliveryPublished || stored.deliveryPublished,
      endedAt := if patch.endedAt.Some? then patch.endedAt else stored.endedAt)
  }

  /** The plan of a route: everything no patch can touch. */
  function PlanOf(route: Route): Route {
    route.(state := None, pickedUpAt := None, pickupPublished := false, deliveredAt := None,
           deliveryPublished := false, endedAt := None)
  }

  predicate SamePlan(left: Route, right: Route) {
    PlanOf(left) == PlanOf(right)
  }
}
