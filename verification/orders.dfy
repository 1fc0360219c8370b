/**
  The order lifecycle: the transition table, the order record with its validator,
  the reconciliation decision and every locked mutator of the lifecycle engine.

  A mutator runs with its row locked for the whole read-decide-write sequence, so
  it is a function from the stored record to the record it writes, or to the
  exception it raises.
 */
module Orders {
  import opened Common

  // ------------------------------------------------------------------
  // The state machine
  // ------------------------------------------------------------------

  datatype OrderState =
    | Created | Validating | Submitted | Accepted | PartiallyFilled | Filled
    | CancelRequested | Cancelled | Rejected | Expired | Unknown | Reconciling

  predicate IsTerminal(s: OrderState) {
    s in {Filled, Cancelled, Rejected, Expired}
  }

  function LegalTargets(s: OrderState): set<OrderState> {
    match s
    case Created => {Validating, Cancelled, Rejected}
    case Validating => {Submitted, Rejected, Cancelled}
    case Submitted => {Accepted, PartiallyFilled, Filled, Rejected, Cancelled, Expired, Unknown}
    case Accepted => {PartiallyFilled, Filled, CancelRequested, Cancelled, Expired, Unknown}
    case PartiallyFilled => {PartiallyFilled, Filled, CancelRequested, Cancelled, Expired, Unknown}
    case CancelRequested => {Cancelled, Filled, PartiallyFilled, Expired, Unknown}
    case Unknown => {Reconciling}
    case Reconciling => {Accepted, PartiallyFilled, Filled, Cancelled, Rejected, Expired, Unknown}
    case Filled => {}
    case Cancelled => {}
    case Rejected => {}
    case Expired => {}
  }

  predicate CanTransition(current: OrderState, target: OrderState) {
    target in LegalTargets(current)
  }

  // ------------------------------------------------------------------
  // The record
  // ------------------------------------------------------------------

  datatype MarginMode = Isolated | Crossed

  datatype OrderFill = OrderFill(
    fillId: FillId,
    price: Money,
    quantity: Money,
    fee: Money,
    filledAt: Time)

  /** What a discrepancy says; the source renders each as a sentence. */
  datatype Evidence =
    | TerminalDisagreement(local: OrderState, venue: OrderState, seenAt: Time)
    | FilledWentBackwards(localFilled: Money, venueFilled: Money)
    | Overfilled(ordered: Money, reported: Money)
    | UnresolvableVenueState(reportedState: OrderState)
    | FillPastOrder(fill: Money, total: Money, limit: Money)
    | VanishedTogether(count: nat)
    | CouldNotBeLoaded

  datatype OrderDiscrepancy = OrderDiscrepancy(
    observedAt: Time,
    detail: Evidence,
    localState: OrderState)

  datatype OrderRecord = OrderRecord(
    orderId: OrderId,
    clientOrderId: ClientId,
    venueOrderId: Option<VenueId>,
    symbol: Symbol,
    quantity: Money,
    state: OrderState,
    filledQuantity: Money,
    averageFillPrice: Option<Money>,
    fills: seq<OrderFill>,
    createdAt: Time,
    updatedAt: Time,
    submittedAt: Option<Time>,
    terminalAt: Option<Time>,
    rejectionCode: Option<Label>,
    venueLeverage: Option<Money>,
    venueMarginMode: Option<MarginMode>,
    reconciliationAttempts: nat,
    lastReconciledAt: Option<Time>,
    discrepancies: seq<OrderDiscrepancy>,
    resolvedByOperator: Option<Label>)
  {
    /** The record carries a submission stamp. */
    predicate ReachedVenue() {
      submittedAt.Some?
    }

    /** Its fate at the venue is open. */
    predicate IsUnreconciled() {
      state in {Unknown, Reconciling}
    }
  }

  /** Total quantity of a list of fills. */
  function FillTotal(fills: seq<OrderFill>): Money {
    if fills == [] then 0 else fills[0].quantity + FillTotal(fills[1..])
  }

  /** Total price times quantity of a list of fills. */
  function FillNotional(fills: seq<OrderFill>): int {
    if fills == [] then 0 else fills[0].price * fills[0].quantity + FillNotional(fills[1..])
  }

  predicate ValidFill(f: OrderFill) {
    f.price > 0 && f.quantity > 0 && f.fee >= 0
  }

  /** The validator that runs whenever a record is built from stored columns. */
  predicate Valid(r: OrderRecord) {
    && r.quantity > 0
    && r.filledQuantity >= 0
    && (r.venueLeverage.Some? ==> r.venueLeverage.value > 0)
    && (forall i :: 0 <= i < |r.fills| ==> ValidFill(r.fills[i]))
    && (r.fills != [] ==> FillTotal(r.fills) == r.filledQuantity)
  }

  lemma {:induction false} FillTotalAppend(a: seq<OrderFill>, b: seq<OrderFill>)
    ensures FillTotal(a + b) == FillTotal(a) + FillTotal(b)
  {
    if a == [] {
      assert a + b == b;
    } else {
      assert (a + b)[1..] == a[1..] + b;
      FillTotalAppend(a[1..], b);
    }
  }

  // ------------------------------------------------------------------
  // Asking the venue: the pure decision
  // ------------------------------------------------------------------

  datatype VenueView = VenueView(
    venueOrderId: Option<VenueId>,
    state: OrderState,
    filledQuantity: Money,
    averageFillPrice: Option<Money>,
    observedAt: Time)

  /** The states a venue status is ever mapped to; anything else is refused as unreadable. */
  predicate VenueReports(s: OrderState) {
    s in {Accepted, PartiallyFilled, Filled, Cancelled, Rejected, Expired}
  }

  /** No answer, "no such order", or a view of the order. */
  datatype Answer = Unreachable | Absent | Found(view: VenueView)

  datatype Decision =
    | AdoptVenueState(view: VenueView)
    | ResolveNeverSubmitted
    | RemainUnknown
    | RecordDiscrepancy(evidence: Evidence)
    | VenueUnreachable

  function Decide(r: OrderRecord, answer: Answer): Decision {
    match answer
    case Unreachable => VenueUnreachable
    case Absent => if !r.ReachedVenue() then ResolveNeverSubmitted else RemainUnknown
    case Found(view) =>
      if IsTerminal(r.state) && view.state != r.state then
        RecordDiscrepancy(TerminalDisagreement(r.state, view.state, view.observedAt))
      else if view.filledQuantity < r.filledQuantity then
        RecordDiscrepancy(FilledWentBackwards(r.filledQuantity, view.filledQuantity))
      else if view.filledQuantity > r.quantity then
        RecordDiscrepancy(Overfilled(r.quantity, view.filledQuantity))
      else if !CanTransition(Reconciling, view.state) then
        RecordDiscrepancy(UnresolvableVenueState(view.state))
      else
        AdoptVenueState(view)
  }

  /** The state a decision moves to, when it implies one. */
  function TargetState(d: Decision): Option<OrderState> {
    match d
    case AdoptVenueState(view) => Some(view.state)
    case ResolveNeverSubmitted => Some(Cancelled)
    case RemainUnknown => Some(Unknown)
    case _ => None
  }

  // ------------------------------------------------------------------
  // The locked mutators
  // ------------------------------------------------------------------

  datatype OpError = IllegalTransition | AlreadySubmitted | NotUnreconciled

  datatype Op =
    | MarkValidating(now: Time)
    | MarkRiskRejected(code: Label, now: Time)
    | CancelBeforeSubmission(now: Time)
    | MarkSubmitting(now: Time)
    | ApplyVenueAck(venueOrderId: VenueId, state: OrderState, now: Time)
    | MarkUnknown(now: Time)
    | ApplyFill(fill: OrderFill, now: Time)
    | BeginReconciliation(now: Time)
    | Reconcile(answer: Answer, now: Time)
    | ResolveManually(target: OrderState, operator: Label, now: Time)

  type Outcome = Result<OrderRecord, OpError>

  /** Move to `target`, stamping the terminal time when the target is terminal. */
  function Move(r: OrderRecord, target: OrderState, now: Time): Outcome {
    if !CanTransition(r.state, target) then Err(IllegalTransition)
    else Ok(r.(state := target, updatedAt := now,
               terminalAt := if IsTerminal(target) then Some(now) else r.terminalAt))
  }

  function AppendDiscrepancy(r: OrderRecord, evidence: Evidence, now: Time): OrderRecord {
    r.(discrepancies := r.discrepancies + [OrderDiscrepancy(now, evidence, r.state)],
       lastReconciledAt := Some(now), updatedAt := now)
  }

  /** Round half up to a whole unit, as money is quantized. */
  function RoundHalfUp(numerator: int, denominator: int): int
    requires denominator > 0
  {
    (2 * numerator + denominator) / (2 * denominator)
  }

  function FillRecord(r: OrderRecord, fill: OrderFill, now: Time): Outcome {
    var total := r.filledQuantity + fill.quantity;
    if total > r.quantity then
      Ok(AppendDiscrepancy(r, FillPastOrder(fill.quantity, total, r.quantity), now))
    else
      var target := if total == r.quantity then Filled else PartiallyFilled;
      match Move(r, target, now)
      case Err(e) => Err(e)
      case Ok(moved) =>
        var fills := r.fills + [fill];
        Ok(moved.(fills := fills, filledQuantity := total,
                  averageFillPrice :=
                    if total > 0 then Some(RoundHalfUp(FillNotional(fills), total)) else None))
  }

  function ApplyDecision(r: OrderRecord, d: Decision, now: Time): Outcome {
    match d
    case RecordDiscrepancy(evidence) => Ok(AppendDiscrepancy(r, evidence, now))
    case VenueUnreachable => Ok(r.(lastReconciledAt := Some(now), updatedAt := now))
    case _ =>
      var target := TargetState(d).value;
      if target == r.state then Ok(r.(lastReconciledAt := Some(now), updatedAt := now))
      else
        match Move(r, target, now)
        case Err(e) => Err(e)
        case Ok(moved) =>
          var asked := moved.(lastReconciledAt := Some(now));
          if d.AdoptVenueState? then
            Ok(asked.(venueOrderId := if d.view.venueOrderId.Some? then d.view.venueOrderId else r.venueOrderId,
                      filledQuantity := d.view.filledQuantity,
                      fills := [],
                      averageFillPrice := d.view.averageFillPrice))
          else Ok(asked)
  }

  function Begin(r: OrderRecord, now: Time): Outcome {
    match Move(r, Reconciling, now)
    case Err(e) => Err(e)
    case Ok(moved) => Ok(moved.(reconciliationAttempts := r.reconciliationAttempts + 1))
  }

  function ResolveByHand(r: OrderRecord, target: OrderState, operator: Label, now: Time): Outcome {
    if !r.IsUnreconciled() then Err(NotUnreconciled)
    else
      match (if r.state == Unknown then Begin(r, now) else Ok(r))
      case Err(e) => Err(e)
      case Ok(asked) =>
        match Move(asked, target, now)
        case Err(e) => Err(e)
        case Ok(moved) => Ok(moved.(resolvedByOperator := Some(operator), lastReconciledAt := Some(now)))
  }

  /** One locked mutator applied to the stored record. */
  function Step(r: OrderRecord, op: Op): Outcome {
    match op
    case MarkValidating(now) => Move(r, Validating, now)
    case MarkRiskRejected(code, now) =>
      (match Move(r, Rejected, now)
       case Err(e) => Err(e)
       case Ok(moved) => Ok(moved.(rejectionCode := Some(code))))
    case CancelBeforeSubmission(now) =>
      if r.ReachedVenue() then Err(AlreadySubmitted) else Move(r, Cancelled, now)
    case MarkSubmitting(now) =>
      (match Move(r, Submitted, now)
       case Err(e) => Err(e)
       case Ok(moved) => Ok(moved.(submittedAt := Some(now))))
    case ApplyVenueAck(venueOrderId, state, now) =>
      (match Move(r, state, now)
       case Err(e) => Err(e)
       case Ok(moved) => Ok(moved.(venueOrderId := Some(venueOrderId))))
    case MarkUnknown(now) => Move(r, Unknown, now)
    case ApplyFill(fill, now) => FillRecord(r, fill, now)
    case BeginReconciliation(now) => Begin(r, now)
    case Reconcile(answer, now) => ApplyDecision(r, Decide(r, answer), now)
    case ResolveManually(target, operator, now) => ResolveByHand(r, target, operator, now)
  }

  /** A raising mutator rolls its transaction back, leaving the stored record alone. */
  function Commit(r: OrderRecord, op: Op): OrderRecord {
    match Step(r, op)
    case Ok(written) => written
    case Err(_) => r
  }

  function CommitAll(r: OrderRecord, ops: seq<Op>): OrderRecord
    decreases |ops|
  {
    if ops == [] then r else CommitAll(Commit(r, ops[0]), ops[1..])
  }
}
