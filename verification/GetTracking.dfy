/** Reading an order's tracking while others write (courier-service application/get-tracking.ts). */
module GetTracking {
  import opened Common
  import opened Routes
  import opened Stores

  const COURIER_FALLBACK_NAME := "Kurye"

  datatype Answer = NotFound | Tracked(route: Route, courierName: string)

  datatype TrackPc =
    | TrkBegin(orderId: OrderId)
    | TrkCourier(orderId: OrderId, first: Route)
    | TrkReread(orderId: OrderId, first: Route, courier: Option<Courier>)
    | TrkDone(answer: Answer)

  function Answered(route: Option<Route>, courier: Option<Courier>): TrackPc {
    TrkDone(if route.None? then NotFound
            else Tracked(route.value, if courier.Some? then courier.value.name else COURIER_FALLBACK_NAME))
  }

  /** The route to show once the courier is read; a doubtful one is read once more. */
  function TrackedRoute(orderId: OrderId, first: Route, courier: Option<Courier>): TrackPc {
    if IsDelivered(first) then Answered(Some(first), courier)
    else if CarriesOrder(courier, first.orderId)
    then Answered(if BelongsToAssignment(first, courier.value) then Some(first) else None, courier)
    else TrkReread(orderId, first, courier)
  }

  function TrackStep(db: Db, pc: TrackPc): TrackPc {
    match pc
    case TrkBegin(orderId) =>
      var first := FindRoute(db.docs, orderId);
      if first.None? || StateOf(first.value) == Ended then TrkDone(NotFound) else TrkCourier(orderId, first.value)
    case TrkCourier(orderId, first) =>
      TrackedRoute(orderId, first,
                   if first.courierId in db.couriers then Some(db.couriers[first.courierId]) else None)
    case TrkReread(orderId, first, courier) =>
      var again := FindRoute(db.docs, orderId);
      Answered(if DeliveredMeanwhile(first, again) then again else None, courier)
    case TrkDone(_) => pc
  }
}
