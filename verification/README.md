# A verified model of the courier, event and storage protocols

This project models, in Dafny, the concurrent parts of a quick-commerce back end and proves what they are for:

* **Courier routes.** One route document per order is written by several workers at once: the tick that records
  pickup and delivery and announces them, the release of a cancelled order, the assignment of a courier, the
  reconciler of couriers left busy, while tracking reads in between. `Stores` holds the route and courier stores with
  their conditional updates; `AdvanceRoute`, `ReleaseCourier`, `AssignCourier`, `ReconcileCarriers` and `GetTracking`
  hold each worker as a state machine whose steps are single store calls, and as the program it is. `Lifecycle` runs
  any number of them together, with crashes between any two calls, and `Outcomes`, `RouteTimes`, `LegacyRoutes`,
  `AssignSafety`, `ReconcileRuns` and `AdvanceRoutes` state what holds over all runs; `QuietTicks` and
  `QuietAssignments` say all that an uninterrupted call does.
* **Route timing and the tracking view.** `Geometry`, `RoutePlanner`, `RouteProgress`, `TrackingView` and
  `TrackingContract`: positions recomputed from elapsed time, and the view that must meet a schema of another package.
  `RouteMeaning` and `TrackingMeaning` say what they mean: the moment of a ride told by roads, speed and waiting time.
* **Event consumer groups.** `StreamFields`, `DeadLetters` and `Dispatch` are the wire form, the dead letters and the
  fate of one entry; `StreamGroup` has the commands of a Redis stream group, `GroupProtocol` the workers on it with
  lost replies and crashes, `GroupWorker` the reading loop as a program, and `HandlerCalls`, `HandlerCallsExact`,
  `GroupRuns`, `GroupBacklog` and `GroupSettlements` what follows from them.
* **Migrations.** `Migration` compares records with the list in the code, `MigrationLock` is the expiring lock,
  `MigrationRun` several instances racing, `MigrationRunner` the runner as a program.
* **Address book.** `AddressBook` has it twice, under a mutex and as conditional updates; `AddressBookAgreement` proves
  that the two agree, and exactly when they would not.

Distances are an arbitrary non-negative function (`Geometry.Metric`) and the points of a great circle an arbitrary
choice (`Geometry.Arc`); metres and seconds are real numbers, instants whole milliseconds, and rounding is
`floor(x + 1/2)`. A step of a state machine is one call to a store, a stream or a lock; the clock never goes back.

Where a claim of the sources does not hold as written, the exact reach is stated:

* An entry can reach its handler more than `maxDeliveries` times when a worker claims by an old listing. With at most n
  workers the most calls are 1 for a limit of one and `maxDeliveries + n - 1` otherwise: no run makes more
  (`HandlerCalls.HandlerCallsAreBounded`) and for every limit and every n some run makes as many
  (`HandlerCallsExact.TheBoundIsReached`), also when handlers answer at once. So the limit holds in all runs if and only
  if n or `maxDeliveries` is one (`HandlerCallsExact.TheLimitHoldsExactlyForOne`).
* Pickups precede deliveries on every route that carries its own movement rule (`Outcomes.MilestonesInOrder`). A route
  without one is timed by the rule of each tick. Its milestones keep their order in all runs if and only if the rules in
  force are safe for it: none plans the pickup after an arrival another one computes
  (`LegacyRoutes.OrderHoldsExactlyUnderSafeRules`). One unchanged rule is always safe
  (`RouteTimes.OneRuleKeepsTheOrder`).
* A plan ends at the address exactly when the second leg has length, the first has none, or the address is the market
  (`RoutePlanner.PlanIsSound`).
* The single outcome of a route identity rests on replacements getting a fresh creation time:
  `Outcomes.ReplacementKeepsHistoryExactly` says exactly when a replacement loses history.

## Model

| member | source | states |
|---|---|---|
| Geometry.MeasurePolyline | apps/courier-service/src/domain/route-progress.ts:82-90 | the loop adds up the segment lengths |
| Geometry.WalkPolyline | apps/courier-service/src/domain/route-progress.ts:98-118 | the loop finds the same point as the walk by segments, and fails exactly on an empty polyline |
| Geometry.PointAlongIsArcLength | apps/courier-service/src/domain/route-progress.ts:93-118 | the point lies on a segment at a ratio in [0,1] so that the road before it is the wanted distance clamped to the polyline; beyond the end it is the last point |
| Geometry.GreatCirclePoints | apps/courier-service/src/domain/geo.ts:66-86 | one point more than segments, exact end points |
| Geometry.BuildGreatCircle | apps/courier-service/src/domain/geo.ts:66-86 | the loop builds exactly those points |
| Geometry.GreatCircleFollowsTheArc | apps/courier-service/src/domain/geo.ts:66-86 | between the ends, the k-th point is the k-th part of the great circle |
| RoutePlanner.RoutePointCount | apps/courier-service/src/domain/route-planner.ts:50-53 | the count stays within the configured bounds |
| RoutePlanner.PointsKeepTheSpacing | apps/courier-service/src/domain/route-planner.ts:50-53 | between the bounds, it is the least count whose gaps are no wider than the spacing |
| RoutePlanner.FirstLegSegments | apps/courier-service/src/domain/route-planner.ts:56-63 | no segment for a leg without length, at least one for a leg with length, all segments used |
| RoutePlanner.FirstLegIsProportional | apps/courier-service/src/domain/route-planner.ts:56-63 | between the clamps the first leg gets its share of the segments to the nearest whole one |
| RoutePlanner.PlanIsSound | apps/courier-service/src/domain/route-planner.ts:70-85 | the plan has exactly the planned number of points, its corner is the market, and it ends at the address exactly under the stated condition |
| RoutePlanner.PlanFollowsTheArcs | apps/courier-service/src/domain/route-planner.ts:70-85 | the points follow the two great circles in equal parts of each, the market taken once |
| RoutePlanner.PlanNumbers | apps/courier-service/src/domain/route-planner.ts:65-85 | the length to the nearest metre, and the least whole seconds in which it can be ridden |
| RouteProgress.ArrivalFollowsPickup | apps/courier-service/src/domain/route-progress.ts:188-205 | the arrival is never before the pickup |
| RouteProgress.RecordingPickupKeepsTheSchedule | apps/courier-service/src/domain/route-progress.ts:180-205 | writing the computed pickup down keeps it and moves the arrival by at most one millisecond |
| RouteProgress.ProgressFitsRoute | apps/courier-service/src/domain/route-progress.ts:210-251 | milestones appear with their phases, in order, a recorded pickup taking precedence over the computed one |
| RouteProgress.ProgressIsMonotone | apps/courier-service/src/domain/route-progress.ts:210-251 | with time the phase never goes back and remaining metres and seconds never grow |
| RouteProgress.EtaIsZeroExactlyAtDelivery | apps/courier-service/src/domain/route-progress.ts:210-251 | the remaining time is zero exactly once delivered, and then the courier is at the last point |
| RouteProgress.RecordedPickupHidesTheFirstLeg | apps/courier-service/src/domain/route-progress.ts:120-147 | once a pickup is recorded the written location lies on the market-to-address leg |
| RouteMeaning.MilestonesAreTheRides | apps/courier-service/src/domain/route-progress.ts:162-205 | the pickup is the rounded first moment at which the first road is ridden and the preparation over, the arrival when the second road is ridden too; a recorded pickup stays, and the ride goes on from it |
| RouteMeaning.TimetableIsUnique | apps/courier-service/src/domain/route-progress.ts:162-205 | the roads, the rule and the recorded pickup leave only one speed and one pair of milestones |
| RouteMeaning.ProgressIsTheRide | apps/courier-service/src/domain/route-progress.ts:210-251 | at every instant the position is the road ridden since the start or since the pickup, road ridden and road left make up the second road, and the time left is rounded up |
| RouteMeaning.WrittenLocation | apps/courier-service/src/domain/route-progress.ts:120-152 | the location that is written is that position, or the market while the clock is behind a recorded pickup |
| RouteMeaning.InterpolateDivides | apps/courier-service/src/domain/route-progress.ts:108-114 | a point between two others divides the way in the given ratio, in both coordinates |
| TrackingContract.NoIssuesExactlyWhenConsistent | packages/contracts/src/tracking.ts:68-102 | the refinement reports nothing exactly when the documented reading of each phase holds |
| TrackingContract.EnforceTrackingPhase | packages/contracts/src/tracking.ts:82-102 | the refinement adds exactly these issues, in this order |
| TrackingContract.IssuesNameTheirRule | packages/contracts/src/tracking.ts:82-102 | each issue is reported exactly when its own rule is broken |
| TrackingView.ViewMeetsTheContract | apps/courier-service/src/domain/tracking-view.ts:85-125 | every view of every route at every instant passes the contract of the other package |
| TrackingView.ViewNeverTakesBackAMilestone | apps/courier-service/src/domain/tracking-view.ts:61-125 | no view is behind the recorded milestones, and a delivered view has both times in order |
| TrackingView.ViewPhaseIsMonotone | apps/courier-service/src/domain/tracking-view.ts:85-125 | the shown phase of a document never goes back |
| TrackingView.FirstLegIsHidden | apps/courier-service/src/domain/tracking-view.ts:85-125 | before the pickup, routes that differ only on the first leg look the same |
| TrackingView.RoundingUpIsHarmless | apps/courier-service/src/domain/tracking-view.ts:54-58 | the estimate before the pickup is rounded up to whole minutes by less than one |
| TrackingMeaning.ViewShowsTheRide | apps/courier-service/src/domain/tracking-view.ts:61-125 | every view is a moment of the ride: on the way the location is the road ridden since the pickup, with the rest of road and time; behind a recorded pickup the market and whole minutes; before the pickup no place; delivered the last point and both times |
| TrackingMeaning.ReadAnswersExactly | apps/courier-service/src/application/get-tracking.ts:60-101 | whatever others write between the three reads: which route is answered, under whose name, or none |
| TrackingMeaning.QuietReadAnswersExactly | apps/courier-service/src/application/get-tracking.ts:60-101 | an undisturbed read answers "not found" exactly when the order has no route, an ENDED one, or one without delivery whose courier does not carry the order or carries it in a later assignment; else that very route |
| Stores.ReadsSeeTheLastWrite | apps/courier-service/src/infrastructure/memory/in-memory-route-store.ts:19-72 | a read of an order sees the last write to it, a first insertion is kept, a refused update leaves no trace, and other orders are not touched |
| Stores.RouteStore.ListMoving | apps/courier-service/src/infrastructure/memory/in-memory-route-store.ts:47-56 | the moving routes from the oldest on, and no moving route is passed over |
| Stores.OlderComesFirst | apps/courier-service/src/infrastructure/memory/in-memory-route-store.ts:47-56 | listed first is the older route, and of one age the one of the smaller order |
| Stores.RouteStore.InsertOnce | apps/courier-service/src/infrastructure/memory/in-memory-route-store.ts:32-39 | the first writer wins, and everyone gets the stored route |
| Stores.RouteStore.Replace | apps/courier-service/src/infrastructure/memory/in-memory-route-store.ts:41-45 | the order's document is overwritten |
| Stores.RouteStore.Update | apps/courier-service/src/infrastructure/memory/in-memory-route-store.ts:58-72 | patches only the same, still moving route; ending is refused after a recorded delivery |
| Stores.CourierStore.FindByOrder | apps/courier-service/src/infrastructure/memory/in-memory-courier-store.ts:45-47 | the courier that carries the order, if any |
| Stores.CourierStore.ListCarrying | apps/courier-service/src/infrastructure/memory/in-memory-courier-store.ts:49-58 | a page of the carrying couriers after the cursor in order of their orders |
| Stores.CourierStore.ClaimNearest | apps/courier-service/src/infrastructure/memory/in-memory-courier-store.ts:69-95 | claims the first courier of the pool order, or nobody exactly when the pool is empty; an order carried already is refused |
| Stores.CourierStore.ReleaseByOrder | apps/courier-service/src/infrastructure/memory/in-memory-courier-store.ts:97-108 | frees the courier only if it still carries the order |
| Stores.ReleaseFreesTheCarrier | apps/courier-service/src/infrastructure/memory/in-memory-courier-store.ts:97-108 | the carrier is IDLE since that moment, without order, at the place given or where it was, else as before; nobody carries the order then |
| Stores.FreedCouriersCanBeClaimed | apps/courier-service/src/infrastructure/memory/in-memory-courier-store.ts:69-108 | a freed courier is in the pool exactly of the places within the radius of where it was left |
| Stores.ClaimTakesTheCourier | apps/courier-service/src/infrastructure/memory/in-memory-courier-store.ts:84-95 | a claimed courier is BUSY with the order since that moment, where it was, and in nobody's pool |
| Stores.PoolPrefers | apps/courier-service/src/infrastructure/memory/in-memory-courier-store.ts:69-83 | the pool prefers the nearer band, then the longer idle, then the smaller id |
| Stores.PrecedesIsAStrictOrder | apps/courier-service/src/infrastructure/memory/in-memory-courier-store.ts:69-95 | the choice among the pool is a strict order, so the claimed courier is unique |
| AdvanceRoute.EveryCallMakesProgress | apps/courier-service/src/application/advance-route.ts:74-129 | every call brings a tick closer to its end |
| AdvanceRoute.OneQuietTickCompletes | apps/courier-service/src/application/advance-route.ts:74-181 | whatever earlier ticks left behind, one uninterrupted tick completes a route whose delivery is recorded or due |
| QuietTicks.QuietTickOnTheWay | apps/courier-service/src/application/advance-route.ts:77-129 | before the arrival an uninterrupted tick records and announces a pickup that is due, saves where the courier is, and does nothing else |
| QuietTicks.QuietTickDelivers | apps/courier-service/src/application/advance-route.ts:77-181 | a delivery recorded or due: what was not announced is announced, the courier is free at the address at that moment, the route is closed with these very times |
| QuietTicks.QuietTickAbandons | apps/courier-service/src/application/advance-route.ts:82-88 | without delivery and carrier the route is ENDED now, and nothing else changes |
| QuietTicks.StaleTicksStop | apps/courier-service/src/application/advance-route.ts:77-129 | a tick whose route is another by now, or no longer moving, stops at its next write and changes nothing |
| QuietTicks.OnlyMovingRoutesAreTicked | apps/courier-service/src/infrastructure/memory/in-memory-route-store.ts:47-56 | a route that is done or ended, or none, is left alone |
| AdvanceRoute.AdvanceRouteUseCase.Advance | apps/courier-service/src/application/advance-route.ts:77-129 | the program is exactly the run of its port calls |
| AdvanceRoute.AdvanceRouteUseCase.PublishPickup | apps/courier-service/src/application/advance-route.ts:131-147 | the pickup is announced first, then flagged |
| AdvanceRoute.AdvanceRouteUseCase.CompleteDelivery | apps/courier-service/src/application/advance-route.ts:149-181 | the courier is freed, the delivery announced, then the route closed |
| ReleaseCourier.QuietReleaseOfADelivery | apps/courier-service/src/application/release-courier.ts:101-121 | a delivered route makes the release change nothing |
| ReleaseCourier.QuietReleaseOfARoute | apps/courier-service/src/application/release-courier.ts:65-160 | otherwise the assignment's route is ENDED now, and the courier is freed where the route had brought it |
| ReleaseCourier.QuietReleaseWithoutRoute | apps/courier-service/src/application/release-courier.ts:101-121 | without a route of this assignment only the courier is freed, its place unknown |
| ReleaseCourier.NobodyToRelease | apps/courier-service/src/application/release-courier.ts:65-80 | an order nobody carries: nothing happens |
| ReleaseCourier.QuietReleaseWithoutLooking | apps/courier-service/src/application/release-courier.ts:65-99 | a release without a route store frees the courier, its place unknown |
| ReleaseCourier.RefusedEndingDecidesExactly | apps/courier-service/src/application/release-courier.ts:123-153 | after a refused ending: another route, an ENDED one, a delivered one, or one still moving, each with its own decision |
| ReleaseCourier.FreeingTellsExactly | apps/courier-service/src/application/release-courier.ts:77-99 | the last call frees the courier at the decided place exactly if it still carries the order, and tells so |
| ReleaseCourier.ReleaseCourierUseCase.Release | apps/courier-service/src/application/release-courier.ts:65-99 | the program is exactly the run of its port calls |
| ReleaseCourier.ReleaseCourierUseCase.RouteDecision | apps/courier-service/src/application/release-courier.ts:101-153 | the route decision, from the first read to the re-read after a refused ending |
| AssignCourier.PlannedRouteIsWhatCustomersSee | apps/courier-service/src/application/assignment-route.ts:52-90 | the view of an assigned route starts at the market and ends at the address, within the points the contract allows |
| AssignCourier.AssigningTwiceIsAssigningOnce | apps/courier-service/src/application/assign-courier.ts:93-158 | a repeated call writes nothing and answers the same courier and route |
| QuietAssignments.QuietAssignment | apps/courier-service/src/application/assign-courier.ts:93-158 | a free courier of the pool around the market is claimed now and gets a route from where it stands over the market to the address, stored for the order |
| QuietAssignments.QuietAssignmentOfACarriedOrder | apps/courier-service/src/application/assign-courier.ts:93-158 | a carried order without a route of its assignment gets one if its market is known |
| QuietAssignments.QuietRefusals | apps/courier-service/src/application/assign-courier.ts:100-130 | an unknown market and an empty pool are answered as such, and nothing is written |
| QuietAssignments.LostClaimsLookAgain | apps/courier-service/src/application/assign-courier.ts:110-130 | a refused claim goes on with whoever carries the order, and ends as refused when nobody does |
| QuietAssignments.RouteForIsPlanned | apps/courier-service/src/application/assignment-route.ts:52-90 | what a new route records: courier, market, rule, moment, length, time, and no milestone |
| AssignCourier.AssignCourierUseCase.Assign | apps/courier-service/src/application/assign-courier.ts:93-158 | the program is exactly the run of its port calls |
| AssignCourier.AssignCourierUseCase.PlanAndStore | apps/courier-service/src/application/assignment-route.ts:53-90 | without a market the courier is kept without a route; otherwise the planned route is written once or replaces a foreign one |
| AssignSafety.AssignmentCallsAgree | apps/courier-service/src/application/assign-courier.ts:93-158 | over all interleavings for an order not released: at most one call is new, all name one courier, and all routes answered are one |
| AssignSafety.NoCourierIsHonest | apps/courier-service/src/application/assign-courier.ts:110-130 | "no courier" is answered only if the pool around the market of the command was empty and, later, the order uncarried at moments inside the call |
| AssignSafety.RunKeepsAssignInv | apps/courier-service/src/application/assign-courier.ts:93-158 | the invariant behind both, over every run |
| TickSafety.TickStepKeeps | apps/courier-service/src/application/advance-route.ts:82-181 | every call of a tick, on however old a copy, keeps the stores sound and loses nothing recorded |
| Lifecycle.StepKeepsInv | apps/courier-service/src/domain/leader-lock.ts:6-9 | every step of any worker keeps the invariant of the whole system, without relying on leadership |
| Lifecycle.RunKeepsInv | apps/courier-service/src/domain/leader-lock.ts:6-9 | so does every run, with crashes between any two calls |
| Outcomes.SingleOutcome | apps/courier-service/src/domain/route-repository.ts:38-45 | no route identity is ever both ENDED and delivery-recorded, at whatever moments of a run |
| Outcomes.AnnouncedDeliveryIsFinal | apps/courier-service/src/application/advance-route.ts:149-181 | courier.delivered is announced only for a recorded delivery, which never ends otherwise |
| Outcomes.CancellationIsFinal | apps/courier-service/src/application/release-courier.ts:123-153 | a release that cancelled with a location has that identity ENDED for good: never delivered, never announced |
| Outcomes.GivingWayIsFinal | apps/courier-service/src/application/release-courier.ts:101-153 | a release that gave way gave way to a recorded delivery |
| Outcomes.MilestonesInOrder | apps/courier-service/src/application/advance-route.ts:90-181 | in every state of every run milestones are recorded in order on routes with their own rule, and each published flag has its event in the log |
| Outcomes.MilestonesAreNeverLost | apps/courier-service/src/application/advance-route.ts:77-129 | what was once recorded is there in every later state (how far its instant may move: RouteTimes.InstantsAgree) |
| Outcomes.AnyRunRecovers | apps/courier-service/src/application/advance-route.ts:77-181 | after any run, one uninterrupted tick completes what is due |
| Outcomes.ReplacementKeepsHistoryExactly | apps/courier-service/src/application/assignment-route.ts:70-90 | a replacement loses no recorded history exactly when its identity is new or held nothing yet |
| Outcomes.ReusedIdentityHasTwoOutcomes | apps/courier-service/src/domain/route-repository.ts:15-18 | why the creation time must be fresh: reusing a delivered identity lets it end as well |
| Outcomes.TrackingSeesTheDelivery | apps/courier-service/src/application/get-tracking.ts:88-101 | a delivery between the two reads is answered as DELIVERED, not as missing |
| Outcomes.TrackingAnswersExactly | apps/courier-service/src/application/get-tracking.ts:88-101 | the second look answers "not found" exactly when the route is another one or has no delivery |
| Outcomes.ReconcilerFreesOnlySettledCouriers | apps/courier-service/src/application/reconcile-carriers.ts:100-126 | only couriers whose own route is ENDED, or DONE with its delivery, and settled are freed |
| Outcomes.CarriersWereRead | apps/courier-service/src/application/reconcile-carriers.ts:60-80 | every carrier a run works on was in the store as it is in hand |
| RouteTimes.SafeRulesKeepTheOrder | apps/courier-service/src/application/advance-route.ts:82-118 | while the ticks of an order carry rules that are safe for its route, every run records a pickup planned under one of them, and no pickup after its delivery |
| RouteTimes.OneRuleKeepsTheOrder | apps/courier-service/src/domain/route-progress.ts:39-48 | while all rules move the route alike (its own rule, or one for all ticks), its recorded pickup is the planned one and not after its delivery |
| RouteTimes.InstantsAgree | apps/courier-service/src/domain/route-progress.ts:180-205 | over a whole run all its recorded or announced deliveries then lie within one millisecond, and all its recorded or announced pickups are one instant |
| RouteTimes.OwnRuleFixesTheInstants | apps/courier-service/src/domain/route-progress.ts:39-48 | the same for a route with its own rule, whatever rules the ticks carry |
| LegacyRoutes.LatePickupKeepsTheOrderExactly | apps/courier-service/src/application/advance-route.ts:90-95 | a pickup written over a recorded delivery keeps the order exactly when the pickup its rule plans is not after that delivery |
| LegacyRoutes.DeliveryFromACopyKeepsTheOrderExactly | apps/courier-service/src/application/advance-route.ts:102-110 | a delivery computed from a copy whose pickup was overwritten since keeps the order exactly when the overwriting pickup is not after the computed arrival |
| LegacyRoutes.OrderHoldsExactlyUnderSafeRules | apps/courier-service/src/application/advance-route.ts:82-118 | for an open route whose courier carries the order, every run with ticks under these rules keeps the milestones in order if and only if the rules are safe for it |
| ReconcileRuns.EveryCarrierIsExamined | apps/courier-service/src/application/reconcile-carriers.ts:54-98 | an order that stays carried is examined within ceil(n/batch) + 1 uncut runs, whatever happens to the others |
| ReconcileRuns.QuietRunFreesExactlyTheStuck | apps/courier-service/src/application/reconcile-carriers.ts:54-126 | an uncut run frees exactly the stuck carriers, each where its route left it |
| ReconcileRuns.BudgetCutsTheRun | apps/courier-service/src/application/reconcile-carriers.ts:80-98 | whatever its budget, a run frees and counts exactly the stuck carriers before the one at which the budget is used up |
| ReconcileCarriers.StuckExactly | apps/courier-service/src/application/reconcile-carriers.ts:100-126 | stuck is exactly a busy courier whose own route ended or delivered at least the grace time ago; when and where it is freed |
| ReconcileRuns.ReconcileCarriersUseCase.Run | apps/courier-service/src/application/reconcile-carriers.ts:54-98 | the program: the page after the cursor, the cursor moved, and the releases within the budget |
| AdvanceRoutes.EveryListedRouteIsAccountedFor | apps/courier-service/src/application/advance-routes.ts:53-99 | the summary counts every listed route once, by outcome or as deferred |
| AdvanceRoutes.CountersCountTheirOutcomes | apps/courier-service/src/application/advance-routes.ts:53-99 | each counter has grown by the ticks that answered its outcome |
| AdvanceRoutes.DeferredAreBeyondTheBudget | apps/courier-service/src/application/advance-routes.ts:79-83 | deferred are exactly the listed routes beyond the budget |
| AdvanceRoutes.QuietRoundCompletesDueRoutes | apps/courier-service/src/application/advance-routes.ts:53-99 | a round that nothing interrupts completes every listed due route within its budget |
| AdvanceRoutes.TickOnlyTouches | apps/courier-service/src/application/advance-route.ts:74-181 | a tick leaves all other orders alone |
| AdvanceRoutes.AdvanceRoutesUseCase.Round | apps/courier-service/src/application/advance-routes.ts:53-99 | the program: reconciliation when due, then the listed routes in turn |
| StreamFields.ReadFieldMap | packages/event-bus/src/stream-fields.ts:90-96 | the loop computes the map of the pairs |
| StreamFields.TheLastPairWins | packages/event-bus/src/stream-fields.ts:90-96 | a field reads as its last pair, and as absent exactly when no pair has its name |
| StreamFields.EnvelopeRoundTrip | packages/event-bus/src/stream-fields.ts:24-88 | a valid envelope survives the wire |
| StreamFields.PeekAgreesWithParse | packages/event-bus/src/stream-fields.ts:53-88 | whatever parses is valid and is what the quick look saw; an invalid correlation field is dropped |
| StreamFields.IssuesExactly | packages/event-bus/src/stream-fields.ts:66-88 | a record is rejected exactly for its bad required fields, each named |
| DeadLetters.ToDeadLetterFields | packages/event-bus/src/dead-letter.ts:59-88 | the loop keeps the undecorated pairs and appends the metadata |
| DeadLetters.MetadataOccursOnce | packages/event-bus/src/dead-letter.ts:54-88 | each `dead.` field occurs exactly once, and no other remains from an earlier death |
| DeadLetters.MetadataReadsBack | packages/event-bus/src/dead-letter.ts:44-88 | the metadata says source, group, consumer, reason, attempts, the shortened error and the moment |
| DeadLetters.ShortenedExactly | packages/event-bus/src/dead-letter.ts:15-42 | the error keeps its first 500 characters, and the four reasons read differently |
| DeadLetters.KeptIsIdentityExactlyWithoutDeadFields | packages/event-bus/src/dead-letter.ts:63-70 | dropping `dead.` fields changes a list exactly when it has some, or an odd name |
| DeadLetters.ReplayingRestoresTheOriginal | packages/event-bus/src/dead-letter.ts:4-8 | dropping the `dead.` fields gives the original pairs back in order |
| DeadLetters.AnyReplayRestoresTheOriginal | packages/event-bus/src/dead-letter.ts:54-88 | also after any number of deaths and replays |
| DeadLetters.EnvelopeSurvivesDeadLettering | packages/event-bus/src/stream-fields.ts:66-88 | a valid envelope parses to itself after any number of dead-letterings |
| DeadLetters.DeathsDoNotChangeTheEnvelope | packages/event-bus/src/dead-letter.ts:59-88 | any record parses and peeks the same after any number of dead-letterings |
| Dispatch.DispatchEntry | packages/event-bus/src/dispatch.ts:54-118 | the decision step by step, with at most one handler call |
| Dispatch.HandlerSeesExactly | packages/event-bus/src/dispatch.ts:58-86 | a handler sees exactly the readable entries of its topics within the delivery limit |
| Dispatch.SkippedExactlyWhenUnlistened | packages/event-bus/src/dispatch.ts:61-69 | entries of other topics are skipped at any attempt, and nothing else is |
| Dispatch.RetriedExactlyWhenThrownEarly | packages/event-bus/src/dispatch.ts:112-117 | an entry comes back exactly when its handler threw below the limit |
| Dispatch.DeadReasonsExactly | packages/event-bus/src/dispatch.ts:54-118 | which entries die for which reason, the attempts counted and the error told; which are done |
| StreamGroup.StaleFromMeaning | packages/event-bus/src/redis-stream-group.ts:104-111 | the listing is of idle entries with their delivery counts, oldest first |
| StreamGroup.StaleFromMissesOnlyYounger | packages/event-bus/src/redis-stream-group.ts:104-111 | an idle entry is missing only when the listing is full of older ones |
| StreamGroup.NewFromPassesOverNothing | packages/event-bus/src/redis-stream-group.ts:121-137 | a read of new entries passes over none |
| StreamGroup.NewFromIsFull | packages/event-bus/src/redis-stream-group.ts:121-137 | an entry is missing from a read only behind a full batch |
| StreamGroup.ReadingHandsOut | packages/event-bus/src/redis-stream-group.ts:121-137 | each new entry is pending for this consumer from now on, delivered once |
| StreamGroup.AckTakesAll | packages/event-bus/src/redis-stream-group.ts:139-144 | one acknowledgement takes all its entries and only these off the pending list |
| GroupProtocol.NothingIsLost | packages/event-bus/src/group-worker.ts:53-166 | in every run every entry given to the group and still in the stream is pending, handled, unlistened or copied to the dead letters |
| GroupProtocol.StepKeepsInv | packages/event-bus/src/redis-stream-group.ts:146-173 | every command of every worker keeps this, also when its reply is lost or the worker crashes |
| GroupProtocol.CopyIsWritten | packages/event-bus/src/redis-stream-group.ts:146-163 | the copy is written before the source is acknowledged, under the source's id |
| HandlerCalls.HandlerCallsAreBounded | packages/event-bus/src/group-worker.ts:75-92 | with at most n workers an entry's handler is called at most once for a limit of one, and at most maxDeliveries + n - 1 times otherwise |
| HandlerCalls.CurrentClaimsKeepTheLimit | packages/event-bus/src/group-worker.ts:75-92 | while claims find the listed delivery counts, at most maxDeliveries times with any number of workers |
| HandlerCallsExact.TheBoundIsReached | packages/event-bus/src/group-worker.ts:75-92 | for every limit and every number of workers a run makes exactly that many calls, with handlers that answer at once |
| HandlerCallsExact.TheLimitHoldsExactlyForOne | packages/event-bus/src/delivery-settings.ts:28-35 | no run with at most n workers exceeds maxDeliveries calls if and only if n or maxDeliveries is one, however long handlers take |
| StreamGroup.ClaimsExcludeEachOther | packages/event-bus/src/redis-stream-group.ts:113-119 | a claim that gives an entry counts one more delivery, makes the claimer its owner, and shuts everyone else out until the claim time has passed again |
| StreamGroup.EmptyClaimsTouchOnlyTrimmedEntries | packages/event-bus/src/redis-stream-group.ts:113-119 | a claim that gives nothing changes nothing, except that a trimmed entry leaves the pending list |
| GroupWorker.RedisStreamGroup.DeadLetterEntry | packages/event-bus/src/redis-stream-group.ts:146-163 | the dead letter is written, then the source acknowledged |
| GroupWorker.RedisStreamGroup.Release | packages/event-bus/src/redis-stream-group.ts:165-173 | the name is given up exactly when nothing is pending for it, so nothing pending is forgotten |
| GroupWorker.GroupLoop.Settle | packages/event-bus/src/group-worker.ts:110-166 | dispatches and carries out the settlement |
| GroupWorker.GroupLoop.ReclaimStale | packages/event-bus/src/group-worker.ts:75-92 | the loop over the stale entries, until shutdown |
| GroupWorker.GroupLoop.SettleBatch | packages/event-bus/src/group-worker.ts:94-107 | the loop over new entries, skipped ones acknowledged together at the end |
| GroupWorker.GroupLoop.Turn | packages/event-bus/src/group-worker.ts:55-66 | one turn of the reading loop |
| GroupWorker.GroupLoop.Run | packages/event-bus/src/group-worker.ts:53-73 | the reading loop: turn after turn until shutdown |
| GroupRuns.TurnIsARun | packages/event-bus/src/group-worker.ts:53-107 | every undisturbed turn is a run of the protocol, so what its runs keep the program keeps |
| GroupBacklog.BacklogDrains | packages/event-bus/src/group-worker.ts:75-92 | as many undisturbed passes as the backlog counts leave nothing pending, whatever the handlers answer |
| GroupBacklog.ReclaimedTakesUp | packages/event-bus/src/dispatch.ts:78-117 | a reclaimed entry leaves the pending list, or stays one delivery later while below the limit |
| GroupSettlements.BatchLeavesExactlyTheRetries | packages/event-bus/src/group-worker.ts:94-107 | of the entries just read exactly those stay pending whose handler threw below the limit |
| GroupSettlements.ReclaimingLeavesExactlyTheRetries | packages/event-bus/src/group-worker.ts:75-92 | so does a reclaimed entry, one delivery later |
| GroupSettlements.LettersTellTheStory | packages/event-bus/src/redis-stream-group.ts:146-163 | a given-up entry leaves one letter with its source, group, consumer, reason, attempts, error, moment and original fields |
| Migration.AssertMigrationList | packages/mongo-kit/src/migration.ts:66-83 | accepts exactly the valid lists, and names the first broken rule |
| Migration.MigrationStatus | packages/mongo-kit/src/migration.ts:91-118 | computes applied, pending and conflicts in the stated order |
| Migration.NoConflictExactlyForPrefixes | packages/mongo-kit/src/migration.ts:85-118 | no conflict exactly when the records are those of a prefix of the list; then applied and pending are the whole list |
| Migration.SortSorts | packages/mongo-kit/src/migration.ts:95 | the applied records are the records in version order |
| Migration.ConflictsExactly | packages/mongo-kit/src/migration.ts:91-118 | exactly the unknown and renamed records, and the steps without a record before the latest one the code knows |
| Migration.ProblemsExactly | packages/mongo-kit/src/migration.ts:66-83 | a step is rejected for its version, or else for its name |
| MigrationLock.MongoMigrationLock.TryAcquire | packages/mongo-kit/src/migration-lock.ts:121-148 | takes the lock exactly when it is free, expired or already ours |
| MigrationLock.MongoMigrationLock.Acquire | packages/mongo-kit/src/migration-lock.ts:79-94 | ends; gives up only while another's write outlives the deadline; succeeds whenever nobody else writes |
| MigrationLock.MongoMigrationLock.Renew | packages/mongo-kit/src/migration-lock.ts:97-108 | succeeds exactly for the stored owner |
| MigrationLock.ReleaseFreesOnlyTheCallersLock | packages/mongo-kit/src/migration-lock.ts:111-119 | another owner's lock is untouched, and the caller's is free for everyone at once |
| MigrationRun.UpAppliesEachStepOnce | packages/mongo-kit/src/migration-runner.ts:90-149 | any number of instances running `up`, with any lock loss or crash: records are a prefix of the list, each effect committed exactly once and in order |
| MigrationRun.UpNeverFindsAConflict | packages/mongo-kit/src/migration-runner.ts:67-73 | in such runs nobody stops over a conflict |
| MigrationRun.LeasesExcludeEachOther | packages/mongo-kit/src/migration-lock.ts:74-108 | two instances never both hold the lock by what they know of it |
| MigrationRun.AcquiringExactly | packages/mongo-kit/src/migration-lock.ts:79-94 | an instance takes a lock nobody else holds, and gives up only past the deadline |
| MigrationRun.UpAndDownKeepAPrefix | packages/mongo-kit/src/migration-runner.ts:104-169 | with `down` too, while no commit comes after the life of its lock, records stay a prefix and exactly its effects stand |
| MigrationRunner.MigrationRunner.Up | packages/mongo-kit/src/migration-runner.ts:121-150 | reads first and takes no lock without pending steps; otherwise the locked section runs on what is read then |
| MigrationRunner.MigrationRunner.ApplyAll | packages/mongo-kit/src/migration-runner.ts:131-148 | the loop: renew, apply, record |
| MigrationRunner.MigrationRunner.Commit | packages/mongo-kit/src/migration-runner.ts:90-102 | effect and record together, or neither; a recorded version aborts |
| MigrationRunner.MigrationRunner.Down | packages/mongo-kit/src/migration-runner.ts:152-169 | undoes the newest record if the code still knows it |
| MigrationRunner.SectionIsARun | packages/mongo-kit/src/migration-runner.ts:111-169 | every undisturbed call is a run of the protocol |
| MigrationRunner.QuietUpAppliesTheRest | packages/mongo-kit/src/migration-runner.ts:128-149 | with the lock and no failure, `up` completes the list, answers the new records and frees the lock |
| MigrationRunner.QuietDownUndoesTheNewest | packages/mongo-kit/src/migration-runner.ts:152-169 | with the lock and no failure, `down` takes back exactly the newest record and its effect if the code has its step under its name, answers it and frees the lock; else it changes nothing but the lock |
| MigrationRunner.QuietDownShortensThePrefix | packages/mongo-kit/src/migration-runner.ts:152-169 | on the records of a prefix the last step is taken back; without records nothing |
| AddressBook.MemoryUsers.AddAddress | apps/gateway/internal/authstore/memory_addresses.go:12-31 | under the mutex: user, title, size, then the address at the end |
| AddressBook.MemoryUsers.UpdateAddress | apps/gateway/internal/authstore/memory_addresses.go:35-56 | under the mutex: user, address, title elsewhere, then the first address of the id replaced |
| AddressBook.MemoryUsers.DeleteAddress | apps/gateway/internal/authstore/memory_addresses.go:59-73 | under the mutex: user, address, then the first address of the id removed |
| AddressBook.MongoUsers.AddAddress | apps/gateway/internal/authstore/mongo_addresses.go:20-57 | one conditional push; a rejection is explained by a later read |
| AddressBook.MongoUsers.UpdateAddress | apps/gateway/internal/authstore/mongo_addresses.go:64-126 | one conditional replacement of every element of the id; a rejection is explained by a later read |
| AddressBook.MongoUsers.DeleteAddress | apps/gateway/internal/authstore/mongo_addresses.go:89-105 | one conditional removal of every element of the id |
| AddressBookAgreement.OperationsKeepTheBook | apps/gateway/internal/authstore/memory_addresses.go:10-73 | ids and titles stay unique and the book within its size |
| AddressBookAgreement.OperationsAnswerExactly | apps/gateway/internal/authstore/memory_addresses.go:12-73 | which check refuses an operation, in their order, and the change it makes otherwise, to the first address with the id only |
| AddressBookAgreement.FilterAgrees | apps/gateway/internal/authstore/mongo_addresses.go:22-72 | on any stored book the filter matches exactly when the mutex version accepts, except for a change or removal by the empty id on a book with an address stored without id |
| AddressBookAgreement.RejectionAgrees | apps/gateway/internal/authstore/mongo_addresses.go:41-126 | without other writers the reason given is the mutex version's exactly when that version rejects, and a concurrent change is reported exactly for an update it would accept |
| AddressBookAgreement.UpdateWritesTheSameExactly | apps/gateway/internal/authstore/mongo_addresses.go:73-76 | where the filter finds the id, replacing all its elements equals replacing the first exactly when later ones already equal the address |
| AddressBookAgreement.DeleteWritesTheSameExactly | apps/gateway/internal/authstore/mongo_addresses.go:90-91 | where the filter finds the id, removing all its elements equals removing the first exactly when the id occurs once |
| AddressBookAgreement.SequencesAgree | apps/gateway/internal/authstore/mongo_addresses.go:16-126 | over every sequence with fresh ids both versions answer alike and end with the same good books |
| AddressBookAgreement.NoConcurrentChangeWithoutWriters | apps/gateway/internal/authstore/mongo_addresses.go:54-57 | without other writers nobody is told of a concurrent change |
| AddressBookAgreement.ConcurrentChangeExactly | apps/gateway/internal/authstore/mongo_addresses.go:41-126 | with other writers an addition or update is told of a concurrent change exactly when the filter missed but the mutex version would accept the document as read afterwards |

## Left out

- Lifecycle.RunKeepsInv: the courier a claim picks is any of the pool; the exact choice is stated at Stores.CourierStore.ClaimNearest.
- Lifecycle.StepKeepsInv: the page a reconciliation reads is any set of couriers in the store; order and completeness of pages are stated at Stores.CourierStore.ListCarrying.
- Outcomes.ReconcilerFreesOnlySettledCouriers: a courier freed and given the same order again between the read and the release is freed as well, because the release asks only for courier and order.
- Outcomes.SingleOutcome: holds for runs whose replacement routes carry a fresh creation time; the need for it is stated at Outcomes.ReplacementKeepsHistoryExactly.
- Outcomes.MilestonesInOrder: the order of pickup and delivery is stated here for routes with their own movement rule; the exact condition for the others is at LegacyRoutes.OrderHoldsExactlyUnderSafeRules.
- AdvanceRoutes.AdvanceRoutesUseCase.Round: a store error of one route, which the source logs and counts as failed, is not a step of the program; Lifecycle covers ticks cut off at any call.
- GroupProtocol.NothingIsLost: says nothing of entries trimmed from the stream, whose pending records Redis drops on the next claim.
- GroupWorker.GroupLoop.Run: takes the moments of its turns as an input, so it ends; a turn happens at one instant; the pause after a failed turn and the group's re-creation after its stream was deleted are not modelled (GroupProtocol has failed turns).
- GroupWorker.RedisStreamGroup.DeadLetterEntry: states the final state; that the copy is written before the acknowledgement is at GroupProtocol.CopyIsWritten, and the length cap of the dead stream is not modelled.
- StreamGroup.ClaimsExcludeEachOther: replies follow Redis 7, where a claim never returns a trimmed entry; Dispatch still covers the entry without fields.
- MigrationRun.UpAndDownKeepAPrefix: `down` together with a commit after the life of the lock is outside what the source promises, as are migrations without a transaction.
- MigrationRunner.MigrationRunner.Up: within the locked section time passes only while a migration works; MigrationRun covers stalls anywhere.
- AddressBookAgreement.FilterAgrees: the empty id on which the two versions part is part of the model, though the service above checks the format of ids and lets none through (apps/gateway/internal/auth/service_addresses.go:31 and 48).
- Trigonometry of distances and great circles and floating-point rounding: distances are any non-negative function, reals are exact.
- The expiry of live locations, and everything read from them.
- The checks of the envelope schema (id formats, topics, timestamps, correlation formats) and the JSON coding are parameters; decoding an encoded value is taken to give it back.
- The moment of a dead letter is already ISO 8601 text; the texts of handler errors are given by the handler.
- Order, courier and market ids of the courier service are natural numbers, compared for equality and by the store's index order; ids of stream entries are positions in the stream.
- Logging, tracing, metrics, group statistics, configuration checks, bootstrap and transport.
- The Mongo stores of couriers and routes: the in-memory stores and the port contracts are modelled.
- Approach notices derived from a tracking answer, and the fallback courier name.
- Other fields of a user document than its addresses, sessions, favourites and verification.
