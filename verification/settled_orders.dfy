/**
  An order settled locally on the strength of never having been sent, while the worker
  that created it is still inside `submit`. The transition table says such an order cannot
  be sent any more; `submit` re-reads the record and writes it back in two transactions
  under no row lock, and that is the one way it still can be.
 */
module SettledOrders {
  import opened Common
  import opened Orders
  import opened Submission

  predicate SettledUnsent(s: State, c: ClientId) {
    c in s.rows && IsTerminal(s.rows[c].state) && !s.rows[c].ReachedVenue()
  }

  /** The worker has read its record as VALIDATING and not yet written it back. */
  predicate HoldsStaleRead(s: State, w: nat, c: ClientId) {
    Works(s, w, c) && s.workers[w].pc.Writing? && s.workers[w].pc.snapshot.state == Validating
  }

  // ------------------------------------------------------------------
  // What a row looks like before its owner stamps it
  // ------------------------------------------------------------------

  predicate Prepared(r: OrderRecord) {
    !r.ReachedVenue() && r.state in {Validating, Cancelled, Rejected}
  }

  /** Past `mark_validating`, short of `mark_submitting`. */
  predicate IsPreparing(pc: Pc) {
    pc.Ruling? || pc.Leveraging? || pc.Isolating? || pc.Sizing? || pc.Reading? || pc.Writing? || pc.Stamping?
  }

  predicate PcPrepared(row: OrderRecord, pc: Pc) {
    && (pc.Won? ==> !row.ReachedVenue())
    && (IsPreparing(pc) ==> Prepared(row))
    && (pc.Writing? ==> Prepared(pc.snapshot))
  }

  ghost predicate OwnersPrepared(s: State, c: ClientId) {
    && (forall w :: Owns(s, w, c) ==> c in s.rows && PcPrepared(s.rows[c], s.workers[w].pc))
    && (forall w :: Works(s, w, c) && s.workers[w].pc.Answered? ==> Readable(s.workers[w].pc.answer))
  }

  ghost predicate Sound(s: State) {
    forall c :: Inv(s, c) && OwnersPrepared(s, c)
  }

  lemma PreparedStays(r: OrderRecord, op: Op, pc: Pc)
    requires PcPrepared(r, pc) && OthersMay(op)
    ensures PcPrepared(Commit(r, op), pc)
  {
    CommitKeeps(r, op);
  }

  /** The mutators `submit` itself goes through. */
  predicate SubmitUses(op: Op) {
    op.MarkValidating? || op.MarkRiskRejected? || op.MarkSubmitting? || op.MarkUnknown? || op.ApplyVenueAck?
  }

  /** The only thing that ever makes an unstamped, settled row anything else is a write-back. */
  lemma SettledRowRefuses(r: OrderRecord, op: Op)
    requires IsTerminal(r.state)
    ensures Commit(r, op).state == r.state && Commit(r, op).submittedAt == r.submittedAt
    ensures SubmitUses(op) ==> Step(r, op).Err?
  {
  }

  // ------------------------------------------------------------------
  // One step, seen from its own row
  // ------------------------------------------------------------------

  /** The worker's own part of the invariant. */
  predicate Ready(task: Task, row: Option<OrderRecord>) {
    && (MaySend(task.pc) ==> row.Some? && PcPrepared(row.value, task.pc))
    && (task.pc.Answered? ==> Readable(task.pc.answer))
  }

  lemma PlainActPrepares(w: nat, task: Task, row: Option<OrderRecord>, inForce: Settings, e: Event)
    requires Ready(task, row) && !IsMutation(e)
    ensures var f := Act(w, task, row, inForce, e);
            Ready(task.(pc := f.pc), After(row, f)) && (f.row.Some? && row.Some? ==> MaySend(task.pc))
  {
  }

  lemma MutatePrepares(task: Task, row: Option<OrderRecord>, op: Op, next: Pc)
    requires Ready(task, row) && !next.Answered?
    requires MaySend(next) ==> MaySend(task.pc)
    requires next.Ruling? || next.Fetching? || next.Finished?
    requires next.Ruling? ==> op.MarkValidating? && task.pc.Won?
    ensures var f := Mutate(row, op, next); Ready(task.(pc := f.pc), After(row, f))
  {
  }

  lemma ActPrepares(w: nat, task: Task, row: Option<OrderRecord>, inForce: Settings, e: Event)
    requires Ready(task, row)
    ensures var f := Act(w, task, row, inForce, e); Ready(task.(pc := f.pc), After(row, f))
  {
    if !IsMutation(e) {
      PlainActPrepares(w, task, row, inForce, e);
    } else if e.Acknowledge? {
      if task.pc.Answered? {
        MutatePrepares(task, row, Verdict(task.pc.answer, e.now), Finished);
      }
    } else if e.Validate? {
      if task.pc.Won? {
        MutatePrepares(task, row, MarkValidating(e.now), Ruling);
      }
    } else if e.Stamp? {
      if task.pc.Stamping? {
        MutatePrepares(task, row, MarkSubmitting(e.now), Fetching(task.pc.approved, task.pc.quantity));
      }
    }
  }

  /** A step of a worker that may not send leaves any preparation of the row standing. */
  lemma BystanderPrepares(w: nat, task: Task, row: Option<OrderRecord>, inForce: Settings, e: Event, pc: Pc)
    requires Ready(task, row) && !MaySend(task.pc) && row.Some? && PcPrepared(row.value, pc)
    ensures var f := Act(w, task, row, inForce, e); f.row.Some? ==> PcPrepared(f.row.value, pc)
  {
    if e.Acknowledge? && task.pc.Answered? {
      PreparedStays(row.value, Verdict(task.pc.answer, e.now), pc);
    }
  }

  predicate Settled(row: Option<OrderRecord>) {
    row.Some? && IsTerminal(row.value.state) && !row.value.ReachedVenue()
  }

  predicate IsStale(pc: Pc) {
    pc.Writing? && pc.snapshot.state == Validating
  }

  /** A settled row stays settled under its worker's step, unless a stale read is put back. */
  lemma ActLeavesSettled(w: nat, task: Task, row: Option<OrderRecord>, inForce: Settings, e: Event)
    requires Ready(task, row) && Settled(row) && !IsStale(task.pc)
    ensures var f := Act(w, task, row, inForce, e); Settled(After(row, f)) && !IsStale(f.pc)
  {
    if IsMutation(e) {
      forall op: Op | SubmitUses(op)
        ensures Step(row.value, op).Err?
      {
        SettledRowRefuses(row.value, op);
      }
    }
  }

  // ------------------------------------------------------------------
  // Over runs
  // ------------------------------------------------------------------

  lemma OthersPrepare(s: State, e: Event, c: ClientId)
    requires OwnersPrepared(s, c) && (e.Others? || e.Start? || e.worker !in s.workers)
    ensures OwnersPrepared(Next(s, e), c)
  {
    var t := Next(s, e);
    if t != s && e.Others? && e.clientOrderId == c {
      forall w | Owns(s, w, c)
        ensures PcPrepared(t.rows[c], s.workers[w].pc)
      {
        PreparedStays(s.rows[c], e.op, s.workers[w].pc);
      }
    }
    assert forall w :: Owns(t, w, c) ==> Owns(s, w, c);
  }

  /** A step of one worker, on this id's row or on another's. */
  lemma PerformPrepares(s: State, w: nat, e: Event, c: ClientId)
    requires Inv(s, c) && OwnersPrepared(s, c) && w in s.workers
    ensures OwnersPrepared(Perform(s, w, EffectOf(s, w, e)), c)
  {
    var f := EffectOf(s, w, e);
    var t := Perform(s, w, f);
    if Works(s, w, c) {
      PerformPreparesOwn(s, w, e, c);
    } else {
      assert RowOf(t, c) == RowOf(s, c);
      assert forall v :: Works(t, v, c) ==> Works(s, v, c) && t.workers[v] == s.workers[v];
      assert forall v :: Owns(t, v, c) ==> Owns(s, v, c);
    }
  }

  lemma PerformPreparesOwn(s: State, w: nat, e: Event, c: ClientId)
    requires Inv(s, c) && OwnersPrepared(s, c) && Works(s, w, c)
    ensures OwnersPrepared(Perform(s, w, EffectOf(s, w, e)), c)
  {
    var task, row := s.workers[w], RowOf(s, c);
    var f := EffectOf(s, w, e);
    assert Owns(s, w, c) <==> MaySend(task.pc);
    ActPrepares(w, task, row, InForce(s, task.request.symbol), e);
    forall v | Owns(s, v, c) && v != w && f.row.Some?
      ensures PcPrepared(f.row.value, s.workers[v].pc)
    {
      BystanderPrepares(w, task, row, InForce(s, task.request.symbol), e, s.workers[v].pc);
    }
    OwnersPreparedFrom(s, w, f, c);
  }

  lemma OwnersPreparedFrom(s: State, w: nat, f: Effect, c: ClientId)
    requires OwnersPrepared(s, c) && Works(s, w, c)
    requires Ready(s.workers[w].(pc := f.pc), After(RowOf(s, c), f))
    requires f.row.Some? ==> forall v :: Owns(s, v, c) && v != w ==> PcPrepared(f.row.value, s.workers[v].pc)
    ensures OwnersPrepared(Perform(s, w, f), c)
  {
    var t := Perform(s, w, f);
    assert RowOf(t, c) == After(RowOf(s, c), f);
    assert forall v :: v != w && Works(t, v, c) ==> Works(s, v, c) && t.workers[v] == s.workers[v];
    forall v | Owns(t, v, c)
      ensures c in t.rows && PcPrepared(t.rows[c], t.workers[v].pc)
    {
      assert v != w ==> Owns(s, v, c);
    }
  }

  lemma PreparedAfter(s: State, e: Event, c: ClientId)
    requires Inv(s, c) && OwnersPrepared(s, c)
    ensures OwnersPrepared(Next(s, e), c)
  {
    if e.Others? || e.Start? || e.worker !in s.workers {
      OthersPrepare(s, e, c);
    } else {
      PerformPrepares(s, e.worker, e, c);
    }
  }

  lemma PerformLeavesSettled(s: State, w: nat, e: Event, c: ClientId)
    requires OwnersPrepared(s, c) && w in s.workers
    requires SettledUnsent(s, c) && forall v :: !HoldsStaleRead(s, v, c)
    ensures var t := Perform(s, w, EffectOf(s, w, e));
            SettledUnsent(t, c) && forall v :: !HoldsStaleRead(t, v, c)
  {
    var task := s.workers[w];
    var f := EffectOf(s, w, e);
    var t := Perform(s, w, f);
    if Works(s, w, c) {
      assert Owns(s, w, c) <==> MaySend(task.pc);
      assert !HoldsStaleRead(s, w, c);
      ActLeavesSettled(w, task, RowOf(s, c), InForce(s, task.request.symbol), e);
      assert RowOf(t, c) == After(RowOf(s, c), f);
    } else {
      assert RowOf(t, c) == RowOf(s, c);
    }
    assert forall v :: v != w && HoldsStaleRead(t, v, c) ==> HoldsStaleRead(s, v, c);
  }

  lemma SettledStays(s: State, e: Event, c: ClientId)
    requires Inv(s, c) && OwnersPrepared(s, c)
    requires SettledUnsent(s, c) && forall w :: !HoldsStaleRead(s, w, c)
    ensures SettledUnsent(Next(s, e), c) && forall w :: !HoldsStaleRead(Next(s, e), w, c)
  {
    if e.Others? || e.Start? || e.worker !in s.workers {
      if e.Others? {
        SettledRowRefuses(s.rows[c], e.op);
      }
      assert forall w :: HoldsStaleRead(Next(s, e), w, c) ==> HoldsStaleRead(s, w, c);
    } else {
      PerformLeavesSettled(s, e.worker, e, c);
    }
  }

  lemma {:induction false} SettledStaysThroughout(s: State, events: seq<Event>, c: ClientId)
    requires Sound(s) && SettledUnsent(s, c) && forall w :: !HoldsStaleRead(s, w, c)
    ensures SettledUnsent(Run(s, events), c)
    decreases |events|
  {
    if events != [] {
      SoundAfter(s, events[0]);
      assert Inv(s, c) && OwnersPrepared(s, c);
      SettledStays(s, events[0], c);
      SettledStaysThroughout(Next(s, events[0]), events[1..], c);
    }
  }

  lemma SoundAfter(s: State, e: Event)
    requires Sound(s)
    ensures Sound(Next(s, e))
  {
    forall c
      ensures Inv(Next(s, e), c) && OwnersPrepared(Next(s, e), c)
    {
      assert forall d :: Inv(s, d);
      EventKeeps(s, e, c);
      assert Inv(s, c) && OwnersPrepared(s, c);
      PreparedAfter(s, e, c);
    }
  }

  lemma {:induction false} SoundThroughout(s: State, events: seq<Event>)
    requires Sound(s)
    ensures Sound(Run(s, events))
    decreases |events|
  {
    if events != [] {
      SoundAfter(s, events[0]);
      SoundThroughout(Next(s, events[0]), events[1..]);
    }
  }

  // ------------------------------------------------------------------
  // The exact condition
  // ------------------------------------------------------------------

  /** What a worker holding a stale read goes on to do. */
  function PutBackAndSend(w: nat, now: Time): seq<Event> {
    [Write(w, now), Stamp(w, now), Fetch(w), Send(w, None)]
  }

  lemma WritePutsBack(s: State, w: nat, c: ClientId, now: Time)
    requires Inv(s, c) && SettledUnsent(s, c) && HoldsStaleRead(s, w, c)
    ensures var t := Next(s, Write(w, now));
            && Works(t, w, c) && t.workers[w].pc.Stamping?
            && c in t.rows && t.rows[c].state == Validating && t.rows[c].clientOrderId == c
  {
    assert Owns(s, w, c);
  }

  lemma StampThenFetch(s: State, w: nat, c: ClientId, now: Time)
    requires Works(s, w, c) && s.workers[w].pc.Stamping?
    requires c in s.rows && s.rows[c].state == Validating && s.rows[c].clientOrderId == c
    ensures var t := Next(Next(s, Stamp(w, now)), Fetch(w));
            Works(t, w, c) && t.workers[w].pc.Sending? && t.workers[w].pc.record.clientOrderId == c
  {
  }

  lemma SendReaches(s: State, w: nat, c: ClientId)
    requires Works(s, w, c) && s.workers[w].pc.Sending? && s.workers[w].pc.record.clientOrderId == c
    ensures Sends(Next(s, Send(w, None)).history, c) > 0
  {
    var t := Next(s, Send(w, None));
    NewEntry(s.history, t.history[|s.history|], c);
  }

  lemma RunFirst(s: State, e: Event, rest: seq<Event>)
    ensures Run(s, [e] + rest) == Run(Next(s, e), rest)
  {
    assert ([e] + rest)[1..] == rest;
  }

  lemma StaleReadIsSent(s: State, w: nat, c: ClientId, now: Time)
    requires Inv(s, c) && SettledUnsent(s, c) && HoldsStaleRead(s, w, c)
    ensures Sends(Run(s, PutBackAndSend(w, now)).history, c) > 0
  {
    var s1 := Next(s, Write(w, now));
    var s2 := Next(s1, Stamp(w, now));
    var s3 := Next(s2, Fetch(w));
    WritePutsBack(s, w, c, now);
    StampThenFetch(s1, w, c, now);
    SendReaches(s3, w, c);
    RunFirst(s, Write(w, now), [Stamp(w, now), Fetch(w), Send(w, None)]);
    RunFirst(s1, Stamp(w, now), [Fetch(w), Send(w, None)]);
    RunFirst(s2, Fetch(w), [Send(w, None)]);
    RunFirst(s3, Send(w, None), []);
    assert PutBackAndSend(w, now) == [Write(w, now)] + ([Stamp(w, now)] + ([Fetch(w)] + ([Send(w, None)] + [])));
  }

  /**
    A settled, never-sent order stays unsent in every continuation exactly when no worker is
    between re-reading its record and writing it back.
   */
  lemma SettledOrderSentIff(past: seq<Event>, c: ClientId)
    requires SettledUnsent(Reached(past), c)
    ensures (exists future :: Sends(Run(Reached(past), future).history, c) > 0)
            <==> (exists w :: HoldsStaleRead(Reached(past), w, c))
  {
    var s := Reached(past);
    assert Sound(START);
    SoundThroughout(START, past);
    assert Inv(s, c);
    if w :| HoldsStaleRead(s, w, c) {
      StaleReadIsSent(s, w, c, 0);
    } else {
      forall future
        ensures Sends(Run(s, future).history, c) == 0
      {
        SettledStaysThroughout(s, future, c);
        SoundThroughout(s, future);
        assert Inv(Run(s, future), c);
        if Sends(Run(s, future).history, c) != 0 {
          SomeSend(Run(s, future).history, c);
        }
      }
    }
  }

  // ------------------------------------------------------------------
  // It happens
  // ------------------------------------------------------------------

  lemma {:induction false} RunLast(s: State, events: seq<Event>, e: Event)
    ensures Run(s, events + [e]) == Next(Run(s, events), e)
    decreases |events|
  {
    if events == [] {
      assert [e][1..] == [];
    } else {
      assert (events + [e])[1..] == events[1..] + [e];
      RunLast(Next(s, events[0]), events[1..], e);
    }
  }

  /** One worker, no races, as far as a committed VALIDATING row and an approval. */
  function ToApproval(q: Request, approved: Money): seq<Event> {
    [Start(0, q)] + [Look(0)] + [TryInsert(0, 0)] + [Validate(0, 0)] + [Approve(0, approved)]
  }

  /** The venue agrees, the order is sized, and the record is re-read. */
  function ToRead(q: Request, approved: Money): seq<Event> {
    ToApproval(q, approved) + [SetLeverage(0, approved, 0)] + [SetMargin(0, Isolated, 0)] + [Size(0, 1)] + [Read(0)]
  }

  predicate OneWorker(s: State, q: Request, pc: Pc) {
    && s.workers == map[0 := Task(q, pc)]
    && s.rows == map[q.clientOrderId := NewRecord(q, 0).(state := Validating)]
  }

  lemma ReachesApproval(q: Request, approved: Money)
    ensures OneWorker(Reached(ToApproval(q, approved)), q, Leveraging(approved))
  {
    var e1 := [Start(0, q)];
    var e2 := e1 + [Look(0)];
    var e3 := e2 + [TryInsert(0, 0)];
    var e4 := e3 + [Validate(0, 0)];
    RunLast(START, [], Start(0, q));
    RunLast(START, e1, Look(0));
    RunLast(START, e2, TryInsert(0, 0));
    assert Reached(e3).rows == map[q.clientOrderId := NewRecord(q, 0)];
    RunLast(START, e3, Validate(0, 0));
    RunLast(START, e4, Approve(0, approved));
  }

  lemma LonePerform(s: State, q: Request, pc: Pc, f: Effect)
    requires OneWorker(s, q, pc) && f.row.None?
    ensures OneWorker(Perform(s, 0, f), q, f.pc)
  {
  }

  /** What a step of the only worker comes to, whatever the venue has set. */
  predicate LeadsTo(q: Request, pc: Pc, e: Event, next: Pc, inForce: Settings) {
    var f := Act(0, Task(q, pc), Some(NewRecord(q, 0).(state := Validating)), inForce, e);
    f.row.None? && f.pc == next
  }

  /** A step of the only worker that writes no row. */
  lemma LoneNext(s: State, q: Request, pc: Pc, e: Event, next: Pc)
    requires OneWorker(s, q, pc) && !e.Others? && !e.Start? && e.worker == 0
    requires LeadsTo(q, pc, e, next, InForce(s, q.symbol))
    ensures OneWorker(Next(s, e), q, next)
  {
    NextPerforms(s, e);
    assert RowOf(s, q.clientOrderId) == Some(NewRecord(q, 0).(state := Validating));
    LonePerform(s, q, pc, EffectOf(s, 0, e));
  }

  lemma LoneStep(events: seq<Event>, q: Request, pc: Pc, e: Event, next: Pc)
    requires OneWorker(Reached(events), q, pc) && !e.Others? && !e.Start? && e.worker == 0
    requires forall inForce :: LeadsTo(q, pc, e, next, inForce)
    ensures OneWorker(Reached(events + [e]), q, next)
  {
    RunLast(START, events, e);
    LoneNext(Reached(events), q, pc, e, next);
  }

  lemma ReachesRead(q: Request, approved: Money)
    ensures OneWorker(Reached(ToRead(q, approved)), q,
                      Writing(approved, 1, NewRecord(q, 0).(state := Validating)))
  {
    ReachesApproval(q, approved);
    var e5 := ToApproval(q, approved);
    var e6 := e5 + [SetLeverage(0, approved, 0)];
    var e7 := e6 + [SetMargin(0, Isolated, 0)];
    LoneStep(e5, q, Leveraging(approved), SetLeverage(0, approved, 0), Isolating(approved));
    LoneStep(e6, q, Isolating(approved), SetMargin(0, Isolated, 0), Sizing(approved));
    LoneStep(e7, q, Sizing(approved), Size(0, 1), Reading(approved, 1));
    LoneStep(e7 + [Size(0, 1)], q, Reading(approved, 1), Read(0),
             Writing(approved, 1, NewRecord(q, 0).(state := Validating)));
  }

  /** Whatever settles the order as never sent just then, it is sent all the same. */
  lemma SettledWhileReadIsSent(q: Request, approved: Money, op: Op)
    requires OthersMay(op)
    requires var r := Commit(NewRecord(q, 0).(state := Validating), op); IsTerminal(r.state) && !r.ReachedVenue()
    ensures var past := ToRead(q, approved) + [Others(q.clientOrderId, op)];
            && SettledUnsent(Reached(past), q.clientOrderId)
            && exists future :: Sends(Run(Reached(past), future).history, q.clientOrderId) > 0
  {
    ReachesRead(q, approved);
    RunLast(START, ToRead(q, approved), Others(q.clientOrderId, op));
    var past := ToRead(q, approved) + [Others(q.clientOrderId, op)];
    assert HoldsStaleRead(Reached(past), 0, q.clientOrderId);
    SettledOrderSentIff(past, q.clientOrderId);
  }

  /**
    The service's `cancel` does it, when the venue holds an order under the same client order
    id, as it can when the id was used before the order table was rebuilt: the venue cancels
    that one and says so, the answer is adopted, and the new order is sent after all.
   */
  lemma ACancelledOrderIsSent(q: Request, approved: Money, view: VenueView, now: Time)
    requires view.state == Cancelled && view.filledQuantity == 0
    ensures var past := ToRead(q, approved) + [Others(q.clientOrderId, Reconcile(Found(view), now))];
            && SettledUnsent(Reached(past), q.clientOrderId)
            && exists future :: Sends(Run(Reached(past), future).history, q.clientOrderId) > 0
  {
    SettledWhileReadIsSent(q, approved, Reconcile(Found(view), now));
  }
}
