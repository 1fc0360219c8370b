/**
  What every run of the locked mutators keeps. A run is any sequence of mutators
  applied to one stored record; a mutator that raises leaves the record alone.
 */
module Lifecycle {
  import opened Common
  import opened Orders

  /** Fills satisfy the domain model's bounds; venue messages name states a venue reports. */
  predicate WellFormedOp(op: Op) {
    && (op.ApplyFill? ==> ValidFill(op.fill))
    && (op.ApplyVenueAck? ==> VenueReports(op.state))
    && (op.Reconcile? && op.answer.Found? ==> VenueReports(op.answer.view.state))
  }

  predicate WellFormedOps(ops: seq<Op>) {
    forall i :: 0 <= i < |ops| ==> WellFormedOp(ops[i])
  }

  // ------------------------------------------------------------------
  // Terminal is terminal
  // ------------------------------------------------------------------

  /** Everything a settled order means; bookkeeping times and evidence may still grow. */
  predicate SameSettlement(r: OrderRecord, w: OrderRecord) {
    && w.state == r.state && w.fills == r.fills && w.filledQuantity == r.filledQuantity
    && w.averageFillPrice == r.averageFillPrice && w.venueOrderId == r.venueOrderId
    && w.terminalAt == r.terminalAt && w.submittedAt == r.submittedAt && w.quantity == r.quantity
    && r.discrepancies <= w.discrepancies
  }

  lemma FrozenAfterOne(r: OrderRecord, op: Op)
    requires IsTerminal(r.state)
    ensures SameSettlement(r, Commit(r, op))
  {
  }

  lemma {:induction false} TerminalIsFrozen(r: OrderRecord, ops: seq<Op>)
    requires IsTerminal(r.state)
    ensures SameSettlement(r, CommitAll(r, ops))
    decreases |ops|
  {
    if ops != [] {
      FrozenAfterOne(r, ops[0]);
      TerminalIsFrozen(Commit(r, ops[0]), ops[1..]);
    }
  }

  /** No mutator a caller may come with ever records more of this order than it now has filled. */
  ghost predicate NeverLearnsMore(r: OrderRecord) {
    forall ops :: WellFormedOps(ops) ==> CommitAll(r, ops).filledQuantity == r.filledQuantity
  }

  /**
    The venue's acknowledgement carries a state and no quantity. What the order filled by then
    is lost for good exactly when the state acknowledged is terminal: the order is settled at
    once, and nothing is recorded of it afterwards.
   */
  lemma AckLosesTheQuantityIff(r: OrderRecord, venueOrderId: VenueId, state: OrderState, now: Time)
    requires r.state == Submitted && VenueReports(state) && 0 <= r.filledQuantity < r.quantity
    ensures var acked := Commit(r, ApplyVenueAck(venueOrderId, state, now));
            && acked.state == state && acked.filledQuantity == r.filledQuantity && acked.fills == r.fills
            && (NeverLearnsMore(acked) <==> IsTerminal(state))
  {
    var acked := Commit(r, ApplyVenueAck(venueOrderId, state, now));
    if IsTerminal(state) {
      forall ops | WellFormedOps(ops)
        ensures CommitAll(acked, ops).filledQuantity == acked.filledQuantity
      {
        TerminalIsFrozen(acked, ops);
      }
    } else {
      var ask := Reconcile(Found(VenueView(None, Filled, r.quantity, None, now)), now);
      assert Commit(acked, ask).filledQuantity == r.quantity;
      assert [ask][1..] == [];
      assert CommitAll(acked, [ask]) == CommitAll(Commit(acked, ask), []);
      assert WellFormedOps([ask]);
    }
  }

  // ------------------------------------------------------------------
  // Fills do not go backwards; being sent is permanent
  // ------------------------------------------------------------------

  lemma {:induction false} FillsNeverGoBackwards(r: OrderRecord, ops: seq<Op>)
    requires WellFormedOps(ops)
    requires 0 <= r.filledQuantity <= r.quantity
    ensures var w := CommitAll(r, ops);
            r.filledQuantity <= w.filledQuantity <= w.quantity && w.quantity == r.quantity
    decreases |ops|
  {
    if ops != [] {
      assert WellFormedOp(ops[0]);
      FillsNeverGoBackwards(Commit(r, ops[0]), ops[1..]);
    }
  }

  predicate SameIdentity(r: OrderRecord, w: OrderRecord) {
    && w.orderId == r.orderId && w.clientOrderId == r.clientOrderId && w.symbol == r.symbol
    && w.venueLeverage == r.venueLeverage && w.venueMarginMode == r.venueMarginMode
  }

  lemma IdentityAfterOne(r: OrderRecord, op: Op)
    ensures SameIdentity(r, Commit(r, op)) && (r.ReachedVenue() ==> Commit(r, op).ReachedVenue())
  {
  }

  lemma {:induction false} SentIsPermanent(r: OrderRecord, ops: seq<Op>)
    ensures var w := CommitAll(r, ops);
            SameIdentity(r, w) && (r.ReachedVenue() ==> w.ReachedVenue())
    decreases |ops|
  {
    if ops != [] {
      IdentityAfterOne(r, ops[0]);
      SentIsPermanent(Commit(r, ops[0]), ops[1..]);
    }
  }

  // ------------------------------------------------------------------
  // Submission requires validation
  // ------------------------------------------------------------------

  /** What the two stamps say about the state. */
  predicate Stamped(r: OrderRecord) {
    && (r.submittedAt.None? ==> r.state in {Created, Validating, Cancelled, Rejected})
    && (r.state in {Created, Validating} ==> r.submittedAt.None?)
    && (r.terminalAt.Some? <==> IsTerminal(r.state))
  }

  /** A legal move that is not the submission itself. */
  lemma MoveKeepsStamps(r: OrderRecord, target: OrderState, now: Time)
    requires Stamped(r) && target != Submitted && Move(r, target, now).Ok?
    ensures Stamped(Move(r, target, now).value)
  {
  }

  lemma ReconcileKeepsStamps(r: OrderRecord, d: Decision, now: Time)
    requires Stamped(r) && ApplyDecision(r, d, now).Ok?
    requires d.AdoptVenueState? ==> CanTransition(Reconciling, d.view.state)
    ensures Stamped(ApplyDecision(r, d, now).value)
  {
    if TargetState(d).Some? && TargetState(d).value != r.state {
      MoveKeepsStamps(r, TargetState(d).value, now);
    }
  }

  lemma ManualKeepsStamps(r: OrderRecord, target: OrderState, operator: Label, now: Time)
    requires Stamped(r) && ResolveByHand(r, target, operator, now).Ok?
    ensures Stamped(ResolveByHand(r, target, operator, now).value)
  {
    if r.state == Unknown {
      MoveKeepsStamps(r, Reconciling, now);
      MoveKeepsStamps(Begin(r, now).value, target, now);
    } else {
      MoveKeepsStamps(r, target, now);
    }
  }

  lemma StampsAfterOne(r: OrderRecord, op: Op)
    requires Stamped(r) && WellFormedOp(op)
    ensures Stamped(Commit(r, op))
  {
    if Step(r, op).Ok? {
      if op.Reconcile? {
        ReconcileKeepsStamps(r, Decide(r, op.answer), op.now);
      } else if op.ResolveManually? {
        ManualKeepsStamps(r, op.target, op.operator, op.now);
      }
    }
  }

  lemma {:induction false} StampsTellTheState(r: OrderRecord, ops: seq<Op>)
    requires Stamped(r) && WellFormedOps(ops)
    ensures Stamped(CommitAll(r, ops))
    decreases |ops|
  {
    if ops != [] {
      assert WellFormedOp(ops[0]);
      StampsAfterOne(r, ops[0]);
      StampsTellTheState(Commit(r, ops[0]), ops[1..]);
    }
  }

  lemma {:induction false} SubmissionRequiresValidation(r: OrderRecord, ops: seq<Op>)
    requires r.state == Created && Stamped(r) && WellFormedOps(ops)
    requires CommitAll(r, ops).ReachedVenue()
    ensures exists k :: 0 <= k <= |ops| && CommitAll(r, ops[..k]).state == Validating
    decreases |ops|
  {
    if ops != [] {
      assert WellFormedOp(ops[0]);
      var w := Commit(r, ops[0]);
      if w.state == Created {
        StampsAfterOne(r, ops[0]);
        SubmissionRequiresValidation(w, ops[1..]);
        var k :| 0 <= k <= |ops| - 1 && CommitAll(w, ops[1..][..k]).state == Validating;
        assert ops[..k + 1][1..] == ops[1..][..k];
        assert CommitAll(r, ops[..k + 1]).state == Validating;
      } else if w.state == Validating {
        assert CommitAll(r, ops[..1]) == CommitAll(w, ops[..1][1..]);
      } else {
        TerminalIsFrozen(w, ops[1..]);
      }
    }
  }

  // ------------------------------------------------------------------
  // No answer, no resolution
  // ------------------------------------------------------------------

  /** A mutator that carries neither a venue message, nor an operator, nor a risk ruling. */
  predicate CarriesNoEvidence(op: Op) {
    match op
    case ApplyVenueAck(_, _, _) => false
    case ApplyFill(_, _) => false
    case ResolveManually(_, _, _) => false
    case MarkRiskRejected(_, _) => false
    case Reconcile(answer, _) => !answer.Found?
    case _ => true
  }

  /** Neither time, nor repetition, nor "no such order" resolves an unreconciled sent order. */
  lemma {:induction false} UnreconciledStaysBlockingWithoutEvidence(r: OrderRecord, ops: seq<Op>)
    requires r.IsUnreconciled() && r.ReachedVenue()
    requires forall i :: 0 <= i < |ops| ==> CarriesNoEvidence(ops[i])
    ensures var w := CommitAll(r, ops); w.IsUnreconciled() && w.ReachedVenue()
    decreases |ops|
  {
    if ops != [] {
      assert CarriesNoEvidence(ops[0]);
      UnreconciledStaysBlockingWithoutEvidence(Commit(r, ops[0]), ops[1..]);
    }
  }

  /** The asymmetry of "no such order": it settles an order exactly when the order never left. */
  lemma AbsenceSettlesOnlyWhatNeverLeft(r: OrderRecord, now: Time)
    requires !IsTerminal(r.state) && Stamped(r)
    ensures IsTerminal(Commit(r, Reconcile(Absent, now)).state) <==> !r.ReachedVenue()
  {
  }

  // ------------------------------------------------------------------
  // When reconcile raises instead of adopting
  // ------------------------------------------------------------------

  /**
    `reconcile` does not pass through RECONCILING itself, so on an order still UNKNOWN every
    adoptable venue answer raises: the order is never settled from there.
   */
  lemma UnknownIsNotResolvedByReconcile(r: OrderRecord, answer: Answer, now: Time)
    requires r.state == Unknown && r.ReachedVenue()
    ensures Step(r, Reconcile(answer, now)).Err?
            <==> Decide(r, answer).AdoptVenueState? && answer.view.state != Unknown
    ensures Commit(r, Reconcile(answer, now)).state == Unknown
  {
  }

  /**
    The venue is called the authority on an order it holds, but a view naming the state the
    record already has is noted and not applied: its quantity and average price are taken over,
    and the fills on record dropped, exactly when the state differs (or there is nothing to take).
   */
  lemma AdoptionTakesTheQuantityIff(r: OrderRecord, view: VenueView, now: Time)
    requires Decide(r, Found(view)).AdoptVenueState?
    requires Step(r, Reconcile(Found(view), now)).Ok?
    ensures var w := Step(r, Reconcile(Found(view), now)).value;
            && w.state == view.state
            && (w.filledQuantity == view.filledQuantity
                <==> view.state != r.state || view.filledQuantity == r.filledQuantity)
            && (view.state == r.state ==> w == r.(lastReconciledAt := Some(now), updatedAt := now))
            && (view.state != r.state ==>
                  && w.averageFillPrice == view.averageFillPrice && w.fills == []
                  && w.venueOrderId == (if view.venueOrderId.Some? then view.venueOrderId else r.venueOrderId)
                  && w.submittedAt == r.submittedAt && w.discrepancies == r.discrepancies)
  {
  }

  // ------------------------------------------------------------------
  // Which mutators keep a record loadable
  // ------------------------------------------------------------------

  /** A local fill landing on a total adopted from the venue, whose fills were dropped. */
  predicate FillsAnAdoptedTotal(r: OrderRecord, op: Op) {
    && op.ApplyFill?
    && r.fills == [] && r.filledQuantity > 0
    && r.filledQuantity + op.fill.quantity <= r.quantity
  }

  lemma FilledRecordIsValidIff(r: OrderRecord, fill: OrderFill, now: Time)
    requires Valid(r) && ValidFill(fill) && FillRecord(r, fill, now).Ok?
    ensures Valid(FillRecord(r, fill, now).value) <==> !FillsAnAdoptedTotal(r, ApplyFill(fill, now))
  {
    FillTotalAppend(r.fills, [fill]);
    assert FillTotal([fill]) == fill.quantity + FillTotal([]);
  }

  /** A completed mutator writes a record its own validator accepts, with exactly one exception. */
  lemma WrittenRecordIsValidIff(r: OrderRecord, op: Op)
    requires Valid(r) && WellFormedOp(op) && Step(r, op).Ok?
    ensures Valid(Step(r, op).value) <==> !FillsAnAdoptedTotal(r, op)
  {
    if op.ApplyFill? {
      FilledRecordIsValidIff(r, op.fill, op.now);
    }
  }

  /** No completed step of the run lands a fill on an adopted total. */
  predicate NeverFillsAnAdoptedTotal(r: OrderRecord, ops: seq<Op>)
    decreases |ops|
  {
    ops == [] ||
    (!(Step(r, ops[0]).Ok? && FillsAnAdoptedTotal(r, ops[0]))
     && NeverFillsAnAdoptedTotal(Commit(r, ops[0]), ops[1..]))
  }

  predicate ValidThroughout(r: OrderRecord, ops: seq<Op>)
    decreases |ops|
  {
    Valid(r) && (ops == [] || ValidThroughout(Commit(r, ops[0]), ops[1..]))
  }

  /** Over whole runs: every record written is loadable iff no fill lands on an adopted total. */
  lemma {:induction false} EveryRecordLoadsIff(r: OrderRecord, ops: seq<Op>)
    requires Valid(r) && WellFormedOps(ops)
    ensures ValidThroughout(r, ops) <==> NeverFillsAnAdoptedTotal(r, ops)
    decreases |ops|
  {
    if ops != [] {
      assert WellFormedOp(ops[0]);
      var w := Commit(r, ops[0]);
      if Step(r, ops[0]).Ok? {
        WrittenRecordIsValidIff(r, ops[0]);
      }
      if Valid(w) {
        EveryRecordLoadsIff(w, ops[1..]);
      }
    }
  }

  /** Such a run exists: an order adopts a partial total, then takes its next fill. */
  lemma AFillAfterAdoptionIsUnreadable(r: OrderRecord, view: VenueView, fill: OrderFill, now: Time)
    requires Valid(r) && r.state == Submitted && r.filledQuantity == 0
    requires 0 < view.filledQuantity && view.state == PartiallyFilled
    requires ValidFill(fill) && view.filledQuantity + fill.quantity < r.quantity
    ensures var adopted := Commit(r, Reconcile(Found(view), now));
            Valid(adopted) && !Valid(Commit(adopted, ApplyFill(fill, now)))
  {
    var op := Reconcile(Found(view), now);
    var adopted := Commit(r, op);
    WrittenRecordIsValidIff(r, op);
    assert adopted.state == PartiallyFilled && adopted.fills == [];
    WrittenRecordIsValidIff(adopted, ApplyFill(fill, now));
  }
}
