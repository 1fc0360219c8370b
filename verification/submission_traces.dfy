/** What was sent, traced back to what was asked for, approved and sized. */
module SubmissionTraces {
  import opened Common
  import opened Orders
  import opened Submission
  import opened SettledOrders

  /** The worker, about to size its order, sized it to `quantity`. */
  predicate SizedAt(events: seq<Event>, k: nat, w: nat, quantity: Money)
    requires k < |events|
  {
    var s := Reached(events[..k]);
    events[k] == Size(w, quantity) && w in s.workers && s.workers[w].pc.Sizing? && quantity > 0
  }

  /** The risk engine, ruling on the worker's order, approved this leverage. */
  predicate ApprovedAt(events: seq<Event>, k: nat, w: nat, approved: Money)
    requires k < |events|
  {
    var s := Reached(events[..k]);
    events[k] == Approve(w, approved) && w in s.workers && s.workers[w].pc.Ruling?
  }

  predicate WasSized(events: seq<Event>, w: nat, quantity: Money) {
    exists k :: 0 <= k < |events| && SizedAt(events, k, w, quantity)
  }

  predicate WasApproved(events: seq<Event>, w: nat, approved: Money) {
    exists k :: 0 <= k < |events| && ApprovedAt(events, k, w, approved)
  }

  predicate HasApproval(pc: Pc) {
    pc.Leveraging? || pc.Isolating? || pc.Sizing? || HasQuantity(pc)
  }

  predicate HasQuantity(pc: Pc) {
    pc.Reading? || pc.Writing? || pc.Stamping? || pc.Fetching? || pc.Sending?
  }

  predicate PcTraced(events: seq<Event>, w: nat, pc: Pc) {
    (HasApproval(pc) ==> WasApproved(events, w, pc.approved)) && (HasQuantity(pc) ==> WasSized(events, w, pc.quantity))
  }

  /** The order given to the venue is the one its worker was asked for, at the leverage approved and the size computed. */
  predicate SentTraced(events: seq<Event>, workers: map<nat, Task>, sent: Entry)
    requires sent.Sent?
  {
    && sent.worker in workers
    && sent.record.orderId == workers[sent.worker].request.orderId
    && sent.record.clientOrderId == workers[sent.worker].request.clientOrderId
    && sent.record.symbol == workers[sent.worker].request.symbol
    && sent.record.quantity == sent.quantity && WasSized(events, sent.worker, sent.record.quantity)
    && sent.record.venueLeverage == Some(sent.approved) && WasApproved(events, sent.worker, sent.approved)
  }

  predicate Traced(events: seq<Event>, s: State) {
    && (forall w <- s.workers :: PcTraced(events, w, s.workers[w].pc))
    && (forall i :: 0 <= i < |s.history| && s.history[i].Sent? ==> SentTraced(events, s.workers, s.history[i]))
  }

  // ------------------------------------------------------------------
  // One event more
  // ------------------------------------------------------------------

  lemma TracesStay(events: seq<Event>, e: Event, w: nat, x: Money)
    ensures WasSized(events, w, x) ==> WasSized(events + [e], w, x)
    ensures WasApproved(events, w, x) ==> WasApproved(events + [e], w, x)
  {
    var longer := events + [e];
    if WasSized(events, w, x) {
      var k :| 0 <= k < |events| && SizedAt(events, k, w, x);
      assert longer[..k] == events[..k] && SizedAt(longer, k, w, x);
    }
    if WasApproved(events, w, x) {
      var k :| 0 <= k < |events| && ApprovedAt(events, k, w, x);
      assert longer[..k] == events[..k] && ApprovedAt(longer, k, w, x);
    }
  }

  lemma PcStaysTraced(events: seq<Event>, e: Event, w: nat, pc: Pc)
    requires PcTraced(events, w, pc)
    ensures PcTraced(events + [e], w, pc)
  {
    if HasApproval(pc) {
      TracesStay(events, e, w, pc.approved);
    }
    if HasQuantity(pc) {
      TracesStay(events, e, w, pc.quantity);
    }
  }

  /** Where the approval and the size of a worker come from, step by step. */
  lemma ActTraces(w: nat, task: Task, row: Option<OrderRecord>, inForce: Settings, e: Event)
    requires !e.Start? && !e.Others? && e.worker == w
    ensures var pc := Act(w, task, row, inForce, e).pc;
            && (HasApproval(pc) ==> (HasApproval(task.pc) && pc.approved == task.pc.approved)
                                    || (task.pc.Ruling? && e == Approve(w, pc.approved)))
            && (HasQuantity(pc) ==> (HasQuantity(task.pc) && pc.quantity == task.pc.quantity)
                                    || (task.pc.Sizing? && e == Size(w, pc.quantity) && pc.quantity > 0))
  {
  }

  /** A venue call gives the venue the record at hand, once. */
  lemma ActSends(w: nat, task: Task, row: Option<OrderRecord>, inForce: Settings, e: Event)
    ensures forall x <- Act(w, task, row, inForce, e).entries :: x.Sent? ==>
              && task.pc.Sending? && x.worker == w && x.record == task.pc.record
              && x.approved == task.pc.approved && x.quantity == task.pc.quantity
  {
  }

  lemma StepTraced(events: seq<Event>, e: Event, w: nat, task: Task, row: Option<OrderRecord>, inForce: Settings)
    requires !e.Start? && !e.Others? && e.worker == w && PcTraced(events, w, task.pc)
    requires w in Reached(events).workers && Reached(events).workers[w] == task
    ensures PcTraced(events + [e], w, Act(w, task, row, inForce, e).pc)
  {
    var longer, pc := events + [e], Act(w, task, row, inForce, e).pc;
    ActTraces(w, task, row, inForce, e);
    PcStaysTraced(events, e, w, task.pc);
    assert longer[..|events|] == events && longer[|events|] == e;
    if HasApproval(pc) && task.pc.Ruling? {
      assert ApprovedAt(longer, |events|, w, pc.approved);
    }
    if HasQuantity(pc) && task.pc.Sizing? {
      assert SizedAt(longer, |events|, w, pc.quantity);
    }
  }

  lemma SentStaysTraced(events: seq<Event>, e: Event, s: State, t: State, sent: Entry)
    requires sent.Sent? && SentTraced(events, s.workers, sent)
    requires forall w <- s.workers :: w in t.workers && t.workers[w].request == s.workers[w].request
    ensures SentTraced(events + [e], t.workers, sent)
  {
    TracesStay(events, e, sent.worker, sent.record.quantity);
    TracesStay(events, e, sent.worker, sent.approved);
  }

  /** What the owner holds at the venue call is its own order. */
  lemma SendingIsItsOwn(s: State, w: nat)
    requires w in s.workers && s.workers[w].pc.Sending? && Inv(s, s.workers[w].request.clientOrderId)
    ensures var q, pc := s.workers[w].request, s.workers[w].pc;
            && pc.record.orderId == q.orderId && pc.record.clientOrderId == q.clientOrderId && pc.record.symbol == q.symbol
            && pc.record.quantity == pc.quantity && pc.record.venueLeverage == Some(pc.approved)
  {
    assert Owns(s, w, s.workers[w].request.clientOrderId);
  }

  lemma WorkerTraced(events: seq<Event>, e: Event, w: nat)
    requires Traced(events, Reached(events)) && w in Next(Reached(events), e).workers
    ensures PcTraced(events + [e], w, Next(Reached(events), e).workers[w].pc)
  {
    var s := Reached(events);
    if w in s.workers {
      if !e.Start? && !e.Others? && e.worker == w {
        NextPerforms(s, e);
        var q := s.workers[w].request;
        StepTraced(events, e, w, s.workers[w], RowOf(s, q.clientOrderId), InForce(s, q.symbol));
      } else {
        PcStaysTraced(events, e, w, s.workers[w].pc);
      }
    }
  }

  lemma WorkersTraced(events: seq<Event>, e: Event)
    requires Traced(events, Reached(events))
    ensures var t := Next(Reached(events), e); forall w <- t.workers :: PcTraced(events + [e], w, t.workers[w].pc)
  {
    forall w <- Next(Reached(events), e).workers
      ensures PcTraced(events + [e], w, Next(Reached(events), e).workers[w].pc)
    {
      WorkerTraced(events, e, w);
    }
  }

  lemma HistoryGrowsByItsOwn(s: State, e: Event)
    ensures s.history <= Next(s, e).history
    ensures forall w <- s.workers :: w in Next(s, e).workers && Next(s, e).workers[w].request == s.workers[w].request
    ensures forall i :: |s.history| <= i < |Next(s, e).history| && Next(s, e).history[i].Sent? ==>
              var x := Next(s, e).history[i];
              && x.worker in s.workers && s.workers[x.worker].pc.Sending? && x.record == s.workers[x.worker].pc.record
              && x.approved == s.workers[x.worker].pc.approved && x.quantity == s.workers[x.worker].pc.quantity
  {
    if !e.Start? && !e.Others? && e.worker in s.workers {
      NextPerforms(s, e);
      var q := s.workers[e.worker].request;
      ActSends(e.worker, s.workers[e.worker], RowOf(s, q.clientOrderId), InForce(s, q.symbol), e);
    }
  }

  lemma HistoryTraced(events: seq<Event>, e: Event)
    requires Traced(events, Reached(events)) && forall c :: Inv(Reached(events), c)
    ensures var t := Next(Reached(events), e);
            forall i :: 0 <= i < |t.history| && t.history[i].Sent? ==> SentTraced(events + [e], t.workers, t.history[i])
  {
    var s := Reached(events);
    var t := Next(s, e);
    HistoryGrowsByItsOwn(s, e);
    forall i | 0 <= i < |t.history| && t.history[i].Sent?
      ensures SentTraced(events + [e], t.workers, t.history[i])
    {
      var x := t.history[i];
      if i >= |s.history| {
        var w := x.worker;
        assert PcTraced(events, w, s.workers[w].pc);
        SendingIsItsOwn(s, w);
        assert SentTraced(events, s.workers, x);
      }
      SentStaysTraced(events, e, s, t, x);
    }
  }

  lemma {:induction false} ReachedTraced(events: seq<Event>)
    ensures Traced(events, Reached(events))
  {
    if events != [] {
      var n := |events| - 1;
      var first, last := events[..n], events[n];
      assert events == first + [last];
      ReachedTraced(first);
      ReachedInv(first);
      RunLast(START, first, last);
      WorkersTraced(first, last);
      HistoryTraced(first, last);
    }
  }

  // ------------------------------------------------------------------
  // What was sent
  // ------------------------------------------------------------------

  /**
    In every reached history, the venue was given exactly what was asked for: the request's
    order, id and symbol, the quantity the worker computed when it sized the order, and the
    leverage the risk engine approved for it.
   */
  lemma SentAsSized(events: seq<Event>, i: nat)
    requires i < |Reached(events).history| && Reached(events).history[i].Sent?
    ensures var sent := Reached(events).history[i];
            && sent.worker in Reached(events).workers
            && var q := Reached(events).workers[sent.worker].request;
               && sent.record.orderId == q.orderId && sent.record.clientOrderId == q.clientOrderId
               && sent.record.symbol == q.symbol
               && (exists k :: 0 <= k < |events| && SizedAt(events, k, sent.worker, sent.record.quantity))
               && (exists k :: 0 <= k < |events| && sent.record.venueLeverage.Some?
                               && ApprovedAt(events, k, sent.worker, sent.record.venueLeverage.value))
  {
    ReachedTraced(events);
    assert SentTraced(events, Reached(events).workers, Reached(events).history[i]);
  }

  /**
    How a venue call ended is what the row says: without an answer the order is UNKNOWN, with
    one it is in the state and under the id the venue gave, and nothing else of it changes.
   */
  lemma AnswerIsRecorded(s: State, w: nat, answer: Option<VenueView>, now: Time)
    requires w in s.workers && s.workers[w].pc.Sending? && Readable(answer)
    requires var c := s.workers[w].request.clientOrderId; c in s.rows && s.rows[c].state == Submitted
    ensures var c := s.workers[w].request.clientOrderId;
            var t := Next(Next(s, Send(w, answer)), Acknowledge(w, now));
            && c in t.rows && t.workers[w].pc.Finished?
            && t.rows[c].state == (if answer.None? then Unknown else answer.value.state)
            && (answer.None? ==> t.rows[c].venueOrderId == s.rows[c].venueOrderId && t.rows[c].IsUnreconciled())
            && (answer.Some? && answer.value.venueOrderId.Some? ==> t.rows[c].venueOrderId == answer.value.venueOrderId)
            && t.rows[c].quantity == s.rows[c].quantity && t.rows[c].filledQuantity == s.rows[c].filledQuantity
            && t.rows[c].fills == s.rows[c].fills && t.rows[c].submittedAt == s.rows[c].submittedAt
  {
  }

  // ------------------------------------------------------------------
  // What was not sent
  // ------------------------------------------------------------------

  /** The venue did not do what it was asked to, or the risk engine or the sizing refused. */
  predicate IsRefused(pc: Pc, e: Event) {
    match e
    case SetLeverage(_, applied, _) => pc.Leveraging? && applied != pc.approved
    case SetMargin(_, reported, _) => pc.Isolating? && reported != Isolated
    case Refuse(_, _) => pc.Ruling? || pc.Leveraging? || pc.Isolating? || pc.Sizing?
    case _ => false
  }

  /** A refusal ends the submission without a call of the venue, and the order as REJECTED with a code. */
  lemma ARefusalIsRecorded(s: State, e: Event)
    requires e.SetLeverage? || e.SetMargin? || e.Refuse?
    requires e.worker in s.workers && IsRefused(s.workers[e.worker].pc, e)
    requires var c := s.workers[e.worker].request.clientOrderId; c in s.rows && s.rows[c].state == Validating
    ensures var c, t := s.workers[e.worker].request.clientOrderId, Next(s, e);
            && t.workers[e.worker].pc.Finished? && t.history == s.history
            && c in t.rows && t.rows[c].state == Rejected && t.rows[c].rejectionCode.Some?
            && t.rows[c] == s.rows[c].(state := Rejected, rejectionCode := t.rows[c].rejectionCode,
                                       terminalAt := Some(e.now), updatedAt := e.now)
  {
  }

  /** A submission that finds an order under its id returns that order, and changes nothing. */
  lemma AReplayReturnsTheRow(s: State, e: Event)
    requires e.Look? || e.Reread?
    requires e.worker in s.workers && s.workers[e.worker].request.clientOrderId in s.rows
    requires if e.Look? then s.workers[e.worker].pc.Looking? else s.workers[e.worker].pc.Rereading?
    ensures var q := s.workers[e.worker].request;
            Next(s, e) == s.(workers := s.workers[e.worker := Task(q, Replayed(s.rows[q.clientOrderId]))])
  {
  }

  /** One that finds none writes the order down as asked for, with nothing sent and nothing filled. */
  lemma AnInsertIsAsAsked(s: State, w: nat, now: Time)
    requires w in s.workers && s.workers[w].pc.Inserting? && s.workers[w].request.clientOrderId !in s.rows
    ensures var q, t := s.workers[w].request, Next(s, TryInsert(w, now));
            && q.clientOrderId in t.rows && t.workers[w].pc.Won?
            && var r := t.rows[q.clientOrderId];
               && r.orderId == q.orderId && r.clientOrderId == q.clientOrderId && r.symbol == q.symbol
               && r.state == Created && r.submittedAt.None? && r.venueOrderId.None?
               && r.filledQuantity == 0 && r.fills == [] && r.discrepancies == [] && r.createdAt == now
  {
  }
}
