/**
  What each locked mutator asks of the order it is called on, and what it leaves: the moves seen
  from where they lead, the fills and their average price, and the answers of the venue.
 */
module Mutators {
  import opened Common
  import opened Orders
  import opened Lifecycle

  // ------------------------------------------------------------------
  // The moves
  // ------------------------------------------------------------------

  /** The states in which an order may be working at the venue. */
  predicate IsWorking(s: OrderState) {
    s in {Submitted, Accepted, PartiallyFilled, CancelRequested}
  }

  /** The table, read from the state a move leads to. */
  lemma ReachedFrom(s: OrderState, target: OrderState)
    ensures CanTransition(s, target)
            <==> match target
                 case Created => false
                 case Validating => s == Created
                 case Submitted => s == Validating
                 case Accepted => s in {Submitted, Reconciling}
                 case CancelRequested => s in {Accepted, PartiallyFilled}
                 case Reconciling => s == Unknown
                 case Rejected => s in {Created, Validating, Submitted, Reconciling}
                 case Cancelled => !IsTerminal(s) && s != Unknown
                 case _ => IsWorking(s) || s == Reconciling
  {
  }

  /** When a mutator that is not about fills or answers goes through. */
  predicate GoesThrough(r: OrderRecord, op: Op) {
    match op
    case MarkValidating(_) => r.state == Created
    case MarkRiskRejected(_, _) => r.state in {Created, Validating, Submitted, Reconciling}
    case CancelBeforeSubmission(_) => r.submittedAt.None? && !IsTerminal(r.state) && r.state != Unknown
    case MarkSubmitting(_) => r.state == Validating
    case ApplyVenueAck(_, state, _) => CanTransition(r.state, state)
    case MarkUnknown(_) => IsWorking(r.state) || r.state == Reconciling
    case BeginReconciliation(_) => r.state == Unknown
    case ResolveManually(target, _, _) => r.state in {Unknown, Reconciling} && CanTransition(Reconciling, target)
    case _ => false
  }

  function MovesTo(op: Op): OrderState {
    match op
    case MarkValidating(_) => Validating
    case MarkRiskRejected(_, _) => Rejected
    case CancelBeforeSubmission(_) => Cancelled
    case MarkSubmitting(_) => Submitted
    case ApplyVenueAck(_, state, _) => state
    case MarkUnknown(_) => Unknown
    case ResolveManually(target, _, _) => target
    case _ => Reconciling
  }

  /** The record such a mutator leaves: its state, the stamps of the move, and the one thing it notes. */
  function MovedBy(r: OrderRecord, op: Op): OrderRecord {
    r.(state := MovesTo(op), updatedAt := op.now,
       terminalAt := if IsTerminal(MovesTo(op)) then Some(op.now) else r.terminalAt,
       submittedAt := if op.MarkSubmitting? then Some(op.now) else r.submittedAt,
       rejectionCode := if op.MarkRiskRejected? then Some(op.code) else r.rejectionCode,
       venueOrderId := if op.ApplyVenueAck? then Some(op.venueOrderId) else r.venueOrderId,
       reconciliationAttempts := r.reconciliationAttempts
         + if op.BeginReconciliation? || (op.ResolveManually? && r.state == Unknown) then 1 else 0,
       resolvedByOperator := if op.ResolveManually? then Some(op.operator) else r.resolvedByOperator,
       lastReconciledAt := if op.ResolveManually? then Some(op.now) else r.lastReconciledAt)
  }

  lemma AMutatorMovesIff(r: OrderRecord, op: Op)
    requires !op.ApplyFill? && !op.Reconcile?
    ensures Step(r, op).Ok? <==> GoesThrough(r, op)
    ensures Commit(r, op) == if GoesThrough(r, op) then MovedBy(r, op) else r
  {
  }

  // ------------------------------------------------------------------
  // Fills
  // ------------------------------------------------------------------

  /** One piece of evidence more, and nothing else but the times of the call. */
  predicate OnlyNoted(r: OrderRecord, w: OrderRecord, now: Time) {
    && |w.discrepancies| == |r.discrepancies| + 1 && r.discrepancies <= w.discrepancies
    && w.discrepancies[|r.discrepancies|].observedAt == now && w.discrepancies[|r.discrepancies|].localState == r.state
    && w == r.(discrepancies := w.discrepancies, lastReconciledAt := Some(now), updatedAt := now)
  }

  /**
    A fill past the ordered quantity is noted and not taken. Any other raises unless the order is
    working or being reconciled; it joins the fills and the total, and the order is filled exactly
    when nothing is left of it.
   */
  lemma AFillIsTakenIff(r: OrderRecord, fill: OrderFill, now: Time)
    ensures var out, total := Step(r, ApplyFill(fill, now)), r.filledQuantity + fill.quantity;
            && (out.Err? <==> total <= r.quantity && !IsWorking(r.state) && r.state != Reconciling)
            && (total > r.quantity ==> OnlyNoted(r, out.value, now))
            && (total <= r.quantity && out.Ok? ==>
                  && out.value.fills == r.fills + [fill] && out.value.filledQuantity == total
                  && out.value.state == (if total == r.quantity then Filled else PartiallyFilled)
                  && out.value.discrepancies == r.discrepancies)
  {
  }

  /** The average price is the fills' total price over their total quantity, to the nearest unit. */
  predicate AverageAgrees(r: OrderRecord) {
    r.fills != [] ==>
      && r.averageFillPrice.Some?
      && var total := FillTotal(r.fills);
         -total < 2 * (r.averageFillPrice.value * total - FillNotional(r.fills)) <= total
  }

  lemma HalfUpIsNearest(numerator: int, denominator: int)
    requires denominator > 0
    ensures var a := RoundHalfUp(numerator, denominator);
            -denominator < 2 * (a * denominator - numerator) <= denominator
  {
    var x := 2 * numerator + denominator;
    var a := x / (2 * denominator);
    assert x == a * (2 * denominator) + x % (2 * denominator);
    assert a * (2 * denominator) == 2 * (a * denominator);
  }

  lemma AFillKeepsTheAverage(r: OrderRecord, fill: OrderFill, now: Time)
    requires Valid(r) && ValidFill(fill) && AverageAgrees(r) && !FillsAnAdoptedTotal(r, ApplyFill(fill, now))
    ensures AverageAgrees(Commit(r, ApplyFill(fill, now)))
  {
    var fills := r.fills + [fill];
    FillTotalAppend(r.fills, [fill]);
    assert FillTotal([fill]) == fill.quantity + FillTotal([]);
    if Step(r, ApplyFill(fill, now)).Ok? && r.filledQuantity + fill.quantity <= r.quantity {
      assert r.fills == [] ==> r.filledQuantity == 0;
      HalfUpIsNearest(FillNotional(fills), FillTotal(fills));
    }
  }

  /** Over whole runs the average price is that of the fills, as long as no fill lands on an adopted total. */
  lemma {:induction false} TheAverageIsVolumeWeighted(r: OrderRecord, ops: seq<Op>)
    requires Valid(r) && WellFormedOps(ops) && AverageAgrees(r) && NeverFillsAnAdoptedTotal(r, ops)
    ensures AverageAgrees(CommitAll(r, ops))
    decreases |ops|
  {
    if ops != [] {
      assert WellFormedOp(ops[0]);
      var w := Commit(r, ops[0]);
      if Step(r, ops[0]).Ok? {
        WrittenRecordIsValidIff(r, ops[0]);
      }
      if ops[0].ApplyFill? && Step(r, ops[0]).Ok? {
        AFillKeepsTheAverage(r, ops[0].fill, ops[0].now);
      }
      TheAverageIsVolumeWeighted(w, ops[1..]);
    }
  }

  // ------------------------------------------------------------------
  // Answers
  // ------------------------------------------------------------------

  /** The venue and the record cannot both be right: another end, or a quantity lost, or one past the order. */
  predicate Disagrees(r: OrderRecord, view: VenueView) {
    || (IsTerminal(r.state) && view.state != r.state)
    || view.filledQuantity < r.filledQuantity || view.filledQuantity > r.quantity
  }

  /**
    What the venue reports is taken over, or the call raises, unless the two disagree; then that
    is noted, and the record keeps its own. No answer leaves the order as it is.
   */
  lemma ADisagreementIsNotedIff(r: OrderRecord, view: VenueView, now: Time)
    requires VenueReports(view.state)
    ensures Decide(r, Found(view)).AdoptVenueState? <==> !Disagrees(r, view)
    ensures Disagrees(r, view) ==> OnlyNoted(r, Commit(r, Reconcile(Found(view), now)), now)
    ensures !Disagrees(r, view) ==> Commit(r, Reconcile(Found(view), now)).discrepancies == r.discrepancies
    ensures Step(r, Reconcile(Found(view), now)).Err?
            <==> !Disagrees(r, view) && view.state != r.state && !CanTransition(r.state, view.state)
    ensures Step(r, Reconcile(Unreachable, now)) == Ok(r.(lastReconciledAt := Some(now), updatedAt := now))
  {
  }

  /** "No such order" ends an order that never left as cancelled, and leaves one that did in doubt. */
  lemma AbsenceMeans(r: OrderRecord, now: Time)
    ensures var out := Step(r, Reconcile(Absent, now));
            var to := if r.submittedAt.None? then Cancelled else Unknown;
            && (out.Err? <==> r.state != to && !CanTransition(r.state, to))
            && (out.Ok? ==> out.value == r.(
                  state := to, updatedAt := now, lastReconciledAt := Some(now),
                  terminalAt := if IsTerminal(to) && r.state != to then Some(now) else r.terminalAt))
  {
  }
}
