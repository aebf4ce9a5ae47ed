/** The rules a tracking answer must satisfy, owned by another package (packages/contracts tracking.ts). */
module TrackingContract {
  import opened Common
  import opened Geometry
  import opened RouteProgress

  const COURIER_ROUTE_MAX_POINTS := 40
  const ETA_STEP_BEFORE_PICKUP_SECONDS := 60

  datatype TrackingShape = TrackingShape(
    phase: Phase,
    location: Option<GeoPoint>,
    remainingMeters: int,
    etaSeconds: int,
    pickedUpAt: Option<Instant>,
    deliveredAt: Option<Instant>)

  datatype Issue = LocationMismatch | PickedUpAtMismatch | DeliveredAtMismatch | RemainingAfterDelivery | EtaNotRounded

  function IssueIf(found: bool, issue: Issue): seq<Issue> {
    if found then [issue] else []
  }

  /** The issues the refinement reports, in order. */
  function PhaseIssues(value: TrackingShape): seq<Issue> {
    var pickedUp := value.phase != ToMarket;
    IssueIf(pickedUp != value.location.Some?, LocationMismatch)
    + IssueIf(pickedUp != value.pickedUpAt.Some?, PickedUpAtMismatch)
    + IssueIf((value.phase == Delivered) != value.deliveredAt.Some?, DeliveredAtMismatch)
    + IssueIf(value.phase == Delivered && (value.remainingMeters != 0 || value.etaSeconds != 0), RemainingAfterDelivery)
    + IssueIf(value.phase == ToMarket && value.etaSeconds % ETA_STEP_BEFORE_PICKUP_SECONDS != 0, EtaNotRounded)
  }

  /** The documented reading of the rules, phase by phase. */
  predicate Consistent(value: TrackingShape) {
    match value.phase
    case ToMarket =>
      && value.location.None? && value.pickedUpAt.None? && value.deliveredAt.None?
      && value.etaSeconds % ETA_STEP_BEFORE_PICKUP_SECONDS == 0
    case ToCustomer => value.location.Some? && value.pickedUpAt.Some? && value.deliveredAt.None?
    case Delivered =>
      && value.location.Some? && value.pickedUpAt.Some? && value.deliveredAt.Some?
      && value.remainingMeters == 0 && value.etaSeconds == 0
  }

  lemma NoIssuesExactlyWhenConsistent(value: TrackingShape)
    ensures PhaseIssues(value) == [] <==> Consistent(value)
  {
    assert forall a: seq<Issue>, b: seq<Issue> {:trigger a + b} :: a + b == [] <==> |a| == 0 && |b| == 0;
  }

  /** Each issue is reported exactly when its own rule is broken. */
  lemma IssuesNameTheirRule(value: TrackingShape)
    ensures LocationMismatch in PhaseIssues(value) <==> (value.phase == ToMarket <==> value.location.Some?)
    ensures PickedUpAtMismatch in PhaseIssues(value) <==> (value.phase == ToMarket <==> value.pickedUpAt.Some?)
    ensures DeliveredAtMismatch in PhaseIssues(value) <==> (value.phase == Delivered <==> value.deliveredAt.None?)
    ensures RemainingAfterDelivery in PhaseIssues(value)
       <==> value.phase == Delivered && !(value.remainingMeters == 0 == value.etaSeconds)
    ensures EtaNotRounded in PhaseIssues(value) <==> value.phase == ToMarket && value.etaSeconds % 60 != 0
  {
  }

  class RefinementContext {
    var issues: seq<Issue>

    constructor ()
      ensures issues == []
    {
      issues := [];
    }

    method AddIssue(issue: Issue)
      modifies this
      ensures issues == old(issues) + [issue]
    {
      issues := issues + [issue];
    }
  }

  method EnforceTrackingPhase(value: TrackingShape, context: RefinementContext)
    modifies context
    ensures context.issues == old(context.issues) + PhaseIssues(value)
  {
    var pickedUp := value.phase != ToMarket;
    if pickedUp != value.location.Some? {
      context.AddIssue(LocationMismatch);
    }
    if pickedUp != value.pickedUpAt.Some? {
      context.AddIssue(PickedUpAtMismatch);
    }
    if (value.phase == Delivered) != value.deliveredAt.Some? {
      context.AddIssue(DeliveredAtMismatch);
    }
    if value.phase == Delivered && (value.remainingMeters != 0 || value.etaSeconds != 0) {
      context.AddIssue(RemainingAfterDelivery);
    }
    if value.phase == ToMarket && value.etaSeconds % ETA_STEP_BEFORE_PICKUP_SECONDS != 0 {
      context.AddIssue(EtaNotRounded);
    }
  }
}
