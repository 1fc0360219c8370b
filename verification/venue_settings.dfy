/**
  Leverage and margin mode belong to a symbol at the venue, not to an order: two
  submissions for one symbol share them. What a worker had confirmed is what its order is
  sent under whenever no two workers are between the approval and the venue call for the
  same symbol. When two are, it need not be, and which orders are at risk is decided exactly.
 */
module VenueSettings {
  import opened Common
  import opened Orders
  import opened Submission
  import opened SettledOrders

  /** Between the risk engine's approval and the venue call. */
  predicate AtVenue(pc: Pc) {
    pc.Leveraging? || HasLeverage(pc)
  }

  /** The venue has confirmed the approved leverage to this worker. */
  predicate HasLeverage(pc: Pc) {
    pc.Isolating? || HasMargin(pc)
  }

  /** The venue has confirmed ISOLATED margin to this worker as well. */
  predicate HasMargin(pc: Pc) {
    pc.Sizing? || pc.Reading? || pc.Writing? || pc.Stamping? || pc.Fetching? || pc.Sending?
  }

  predicate NoOverlap(s: State) {
    forall v, w :: v in s.workers && w in s.workers && v != w
                   && AtVenue(s.workers[v].pc) && AtVenue(s.workers[w].pc) ==>
                     s.workers[v].request.symbol != s.workers[w].request.symbol
  }

  predicate Serial(s: State, events: seq<Event>)
    decreases |events|
  {
    NoOverlap(s) && (events == [] || Serial(Next(s, events[0]), events[1..]))
  }

  predicate SentAsConfirmed(e: Entry) {
    e.Sent? ==> e.leverageInForce == Some(e.approved) && e.marginInForce == Some(Isolated)
  }

  /** What the venue has set is what this worker had confirmed. */
  predicate SettingsHold(inForce: Settings, pc: Pc) {
    && (HasLeverage(pc) ==> inForce.leverage == Some(pc.approved))
    && (HasMargin(pc) ==> inForce.margin == Some(Isolated))
  }

  predicate AllInForce(s: State) {
    && (forall w <- s.workers :: SettingsHold(InForce(s, s.workers[w].request.symbol), s.workers[w].pc))
    && (forall e <- s.history :: SentAsConfirmed(e))
  }

  function Updated(inForce: Settings, f: Effect): Settings {
    Settings(if f.leverage.Some? then f.leverage else inForce.leverage,
             if f.margin.Some? then f.margin else inForce.margin)
  }

  /** One step, seen from its own settings: what it confirms is in force, and only then is the order sent. */
  lemma ActHolds(w: nat, task: Task, row: Option<OrderRecord>, inForce: Settings, e: Event)
    requires SettingsHold(inForce, task.pc)
    ensures var f := Act(w, task, row, inForce, e);
            && SettingsHold(Updated(inForce, f), f.pc)
            && (f.leverage.Some? || f.margin.Some? ==> AtVenue(task.pc))
            && (forall x <- f.entries :: SentAsConfirmed(x))
  {
  }

  lemma PerformHolds(s: State, w: nat, f: Effect)
    requires AllInForce(s) && NoOverlap(s) && w in s.workers
    requires SettingsHold(Updated(InForce(s, s.workers[w].request.symbol), f), f.pc)
    requires f.leverage.Some? || f.margin.Some? ==> AtVenue(s.workers[w].pc)
    requires forall x <- f.entries :: SentAsConfirmed(x)
    ensures AllInForce(Perform(s, w, f))
  {
    var t := Perform(s, w, f);
    forall v <- t.workers
      ensures SettingsHold(InForce(t, t.workers[v].request.symbol), t.workers[v].pc)
    {
      if v == w {
        assert InForce(t, t.workers[w].request.symbol) == Updated(InForce(s, s.workers[w].request.symbol), f);
      } else {
        assert SettingsHold(InForce(s, s.workers[v].request.symbol), s.workers[v].pc);
      }
    }
  }

  lemma WorkerStepHolds(s: State, e: Event)
    requires AllInForce(s) && NoOverlap(s) && !e.Start? && !e.Others? && e.worker in s.workers
    ensures AllInForce(Perform(s, e.worker, EffectOf(s, e.worker, e)))
  {
    var task := s.workers[e.worker];
    ActHolds(e.worker, task, RowOf(s, task.request.clientOrderId), InForce(s, task.request.symbol), e);
    PerformHolds(s, e.worker, EffectOf(s, e.worker, e));
  }

  lemma InForceAfter(s: State, e: Event)
    requires AllInForce(s) && NoOverlap(s)
    ensures AllInForce(Next(s, e))
  {
    if e.Start? || e.Others? || e.worker !in s.workers {
      assert Next(s, e).history == s.history && Next(s, e).leverage == s.leverage && Next(s, e).margin == s.margin;
      forall w <- Next(s, e).workers
        ensures SettingsHold(InForce(Next(s, e), Next(s, e).workers[w].request.symbol), Next(s, e).workers[w].pc)
      {
        if w in s.workers {
          assert SettingsHold(InForce(s, s.workers[w].request.symbol), s.workers[w].pc);
        }
      }
    } else {
      WorkerStepHolds(s, e);
      NextPerforms(s, e);
    }
  }

  lemma {:induction false} InForceThroughout(s: State, events: seq<Event>)
    requires AllInForce(s) && Serial(s, events)
    ensures AllInForce(Run(s, events))
    decreases |events|
  {
    if events != [] {
      InForceAfter(s, events[0]);
      InForceThroughout(Next(s, events[0]), events[1..]);
    }
  }

  /** Without overlap on a symbol, every order leaves under the leverage that was approved for it. */
  lemma SentUnderItsApproval(events: seq<Event>, i: nat)
    requires Serial(START, events)
    requires i < |Reached(events).history| && Reached(events).history[i].Sent?
    ensures var sent := Reached(events).history[i];
            sent.leverageInForce == Some(sent.approved) && sent.marginInForce == Some(Isolated)
  {
    InForceThroughout(START, events);
    assert Reached(events).history[i] in Reached(events).history;
  }

  // ------------------------------------------------------------------
  // Who is at risk, and from whom
  // ------------------------------------------------------------------

  /** A worker past `set_leverage` can still get as far as the venue call. */
  predicate Sendable(pc: Pc, row: Option<OrderRecord>) {
    || pc.Fetching? || pc.Sending?
    || (pc.Writing? && pc.snapshot.state == Validating)
    || ((pc.Isolating? || pc.Sizing? || pc.Reading? || pc.Stamping?) && row.Some? && row.value.state == Validating)
  }

  /** A worker can still change the settings of its symbol. */
  predicate CanSet(pc: Pc, row: Option<OrderRecord>) {
    || pc.Ruling? || pc.Leveraging? || pc.Isolating?
    || (pc.Won? && row.Some? && row.value.state == Created)
    || ((pc.Looking? || pc.Inserting?) && row.None?)
  }

  function RowFor(s: State, w: nat): Option<OrderRecord>
    requires w in s.workers
  {
    RowOf(s, s.workers[w].request.clientOrderId)
  }

  /** Another worker present can still change the settings `v` had confirmed. */
  predicate Threatens(s: State, w: nat, v: nat)
    requires v in s.workers
  {
    && w in s.workers && w != v && s.workers[w].request.symbol == s.workers[v].request.symbol
    && CanSet(s.workers[w].pc, RowFor(s, w))
  }

  predicate Holds(s: State, v: nat)
    requires v in s.workers
  {
    SettingsHold(InForce(s, s.workers[v].request.symbol), s.workers[v].pc)
  }

  /** Only the workers present take part. */
  predicate NoStarts(events: seq<Event>) {
    forall i :: 0 <= i < |events| ==> !events[i].Start?
  }

  predicate SentOtherwise(e: Entry, v: nat) {
    e.Sent? && e.worker == v && !SentAsConfirmed(e)
  }

  /** What is in force changed between what was confirmed to `v` and the sending of its order. */
  predicate SendsOtherwise(s: State, future: seq<Event>, v: nat) {
    var h := Run(s, future).history;
    exists i :: |s.history| <= i < |h| && SentOtherwise(h[i], v)
  }

  // ------------------------------------------------------------------
  // Out of danger stays out of danger
  // ------------------------------------------------------------------

  /** The worker has sent its order, or is past sending it. */
  predicate IsOver(pc: Pc) {
    !MaySend(pc) && !pc.Looking? && !pc.Inserting?
  }

  /** It has sent or never will, or what it had confirmed is in force and nobody present can change it. */
  ghost predicate OutOfDanger(s: State, v: nat)
    requires v in s.workers
  {
    var pc := s.workers[v].pc;
    IsOver(pc)
    || (HasLeverage(pc) && (!Sendable(pc, RowFor(s, v)) || (Holds(s, v) && forall w :: !Threatens(s, w, v))))
  }

  lemma ActStaysUnsendable(w: nat, task: Task, row: Option<OrderRecord>, inForce: Settings, e: Event)
    requires HasLeverage(task.pc) && !Sendable(task.pc, row)
    ensures var f := Act(w, task, row, inForce, e);
            (IsOver(f.pc) || (HasLeverage(f.pc) && !Sendable(f.pc, After(row, f)))) && f.entries == []
  {
  }

  /** Nobody but the order's own worker makes a row VALIDATING, and nobody makes one CREATED again. */
  lemma OthersDoNotValidate(r: OrderRecord, op: Op)
    requires OthersMay(op)
    ensures Commit(r, op).state == Validating ==> r.state == Validating
    ensures Commit(r, op).state == Created ==> r.state == Created
  {
  }

  lemma BystanderDoesNotValidate(w: nat, task: Task, row: Option<OrderRecord>, inForce: Settings, e: Event)
    requires row.Some? && !MaySend(task.pc) && (task.pc.Answered? ==> Readable(task.pc.answer))
    ensures var f := Act(w, task, row, inForce, e);
            f.row.Some? ==> (f.row.value.state == Validating ==> row.value.state == Validating)
                            && (f.row.value.state == Created ==> row.value.state == Created)
  {
    if e.Acknowledge? && task.pc.Answered? {
      OthersDoNotValidate(row.value, Verdict(task.pc.answer, e.now));
    }
  }

  /** The row is there still, and no further back than it was. */
  predicate RowGoesOn(row: Option<OrderRecord>, next: Option<OrderRecord>) {
    && row.Some? && next.Some?
    && (next.value.state == Validating ==> row.value.state == Validating)
    && (next.value.state == Created ==> row.value.state == Created)
  }

  lemma OthersMutateRow(s: State, c: ClientId, op: Op, v: nat)
    requires v in s.workers && RowFor(s, v).Some?
    ensures var t := Next(s, Others(c, op)); t.workers == s.workers && RowGoesOn(RowFor(s, v), RowFor(t, v))
  {
    if c == s.workers[v].request.clientOrderId && OthersMay(op) {
      OthersDoNotValidate(s.rows[c], op);
    }
  }

  /** Another worker's step on the row of a worker that may send. */
  lemma BystanderLeavesRow(s: State, e: Event, v: nat)
    requires Sound(s) && v in s.workers && MaySend(s.workers[v].pc)
    requires !e.Start? && !e.Others? && e.worker != v && e.worker in s.workers
    ensures RowGoesOn(RowFor(s, v), RowFor(Perform(s, e.worker, EffectOf(s, e.worker, e)), v))
  {
    var c := s.workers[v].request.clientOrderId;
    var w := e.worker;
    assert Inv(s, c) && OwnersPrepared(s, c) && Owns(s, v, c);
    if Works(s, w, c) {
      assert !Owns(s, w, c);
      BystanderDoesNotValidate(w, s.workers[w], RowOf(s, c), InForce(s, s.workers[w].request.symbol), e);
    }
  }

  /** Somebody else's event on the row of a worker that may send. */
  lemma OthersLeaveRow(s: State, e: Event, v: nat)
    requires Sound(s) && v in s.workers && MaySend(s.workers[v].pc)
    requires e.Start? || e.Others? || e.worker != v
    ensures var t := Next(s, e);
            v in t.workers && t.workers[v] == s.workers[v] && RowGoesOn(RowFor(s, v), RowFor(t, v))
  {
    assert Inv(s, s.workers[v].request.clientOrderId) && Owns(s, v, s.workers[v].request.clientOrderId);
    if e.Others? {
      OthersMutateRow(s, e.clientOrderId, e.op, v);
    } else if !e.Start? && e.worker in s.workers {
      NextPerforms(s, e);
      BystanderLeavesRow(s, e, v);
    }
  }

  /** Every entry a worker's step adds is its own. */
  lemma EntriesAreItsOwn(w: nat, task: Task, row: Option<OrderRecord>, inForce: Settings, e: Event)
    ensures forall x <- Act(w, task, row, inForce, e).entries :: x.worker == w
  {
  }

  /** A worker that cannot change its symbol's settings does not, and never can. */
  lemma ActCannotSet(w: nat, task: Task, row: Option<OrderRecord>, inForce: Settings, e: Event)
    requires !CanSet(task.pc, row) && (task.pc.Won? ==> row.Some?)
    ensures var f := Act(w, task, row, inForce, e);
            && f.leverage.None? && f.margin.None?
            && !CanSet(f.pc, After(row, f)) && (f.pc.Won? ==> After(row, f).Some?)
  {
  }

  lemma OwnStepCannotSet(s: State, e: Event, w: nat)
    requires Sound(s) && w in s.workers && !CanSet(s.workers[w].pc, RowFor(s, w))
    requires !e.Start? && !e.Others? && e.worker == w
    ensures w in Next(s, e).workers && !CanSet(Next(s, e).workers[w].pc, RowFor(Next(s, e), w))
  {
    var c := s.workers[w].request.clientOrderId;
    assert Inv(s, c) && (MaySend(s.workers[w].pc) ==> Owns(s, w, c));
    ActCannotSet(w, s.workers[w], RowFor(s, w), InForce(s, s.workers[w].request.symbol), e);
    NextPerforms(s, e);
    var t := Perform(s, w, EffectOf(s, w, e));
    assert RowFor(t, w) == After(RowFor(s, w), EffectOf(s, w, e));
  }

  /** Whether a worker can set depends on its row only in this. */
  lemma CannotSetWith(pc: Pc, row: Option<OrderRecord>, next: Option<OrderRecord>)
    requires !CanSet(pc, row) && (row.Some? ==> next.Some?)
    requires MaySend(pc) ==> RowGoesOn(row, next)
    ensures !CanSet(pc, next)
  {
  }

  lemma CannotSetStays(s: State, e: Event, w: nat)
    requires Sound(s) && w in s.workers && !CanSet(s.workers[w].pc, RowFor(s, w))
    ensures w in Next(s, e).workers && !CanSet(Next(s, e).workers[w].pc, RowFor(Next(s, e), w))
  {
    if !e.Start? && !e.Others? && e.worker == w {
      OwnStepCannotSet(s, e, w);
    } else {
      RowsStay(s, e, s.workers[w].request.clientOrderId);
      if MaySend(s.workers[w].pc) {
        OthersLeaveRow(s, e, w);
      }
      CannotSetWith(s.workers[w].pc, RowFor(s, w), RowFor(Next(s, e), w));
    }
  }

  lemma RowsStay(s: State, e: Event, c: ClientId)
    ensures c in s.rows ==> c in Next(s, e).rows
    ensures forall w <- s.workers :: w in Next(s, e).workers
              && Next(s, e).workers[w].request == s.workers[w].request
              && (e.Start? || e.Others? || e.worker != w ==> Next(s, e).workers[w] == s.workers[w])
  {
  }

  lemma NoThreatStays(s: State, e: Event, v: nat)
    requires Sound(s) && v in s.workers && !e.Start? && forall w :: !Threatens(s, w, v)
    ensures v in Next(s, e).workers && forall w :: !Threatens(Next(s, e), w, v)
  {
    RowsStay(s, e, s.workers[v].request.clientOrderId);
    forall w
      ensures !Threatens(Next(s, e), w, v)
    {
      if w in s.workers && w != v && s.workers[w].request.symbol == s.workers[v].request.symbol {
        assert !Threatens(s, w, v);
        CannotSetStays(s, e, w);
      }
    }
  }

  /** What is in force for `v` is what was, unless `v` itself or a worker that threatens it steps. */
  lemma SettingsStay(s: State, e: Event, v: nat)
    requires Sound(s) && v in s.workers && forall w :: !Threatens(s, w, v)
    requires e.Start? || e.Others? || e.worker != v
    ensures var symbol := s.workers[v].request.symbol; InForce(Next(s, e), symbol) == InForce(s, symbol)
  {
    if !e.Start? && !e.Others? && e.worker in s.workers {
      var w := e.worker;
      assert !Threatens(s, w, v);
      NextPerforms(s, e);
      if s.workers[w].request.symbol == s.workers[v].request.symbol {
        var c := s.workers[w].request.clientOrderId;
        assert Inv(s, c) && (MaySend(s.workers[w].pc) ==> Owns(s, w, c));
        ActCannotSet(w, s.workers[w], RowFor(s, w), InForce(s, s.workers[w].request.symbol), e);
      }
    }
  }

  /** The worker's own step. */
  lemma OwnStepOutOfDanger(s: State, e: Event, v: nat)
    requires Sound(s) && v in s.workers && OutOfDanger(s, v) && !e.Start? && !e.Others? && e.worker == v
    ensures v in Next(s, e).workers && OutOfDanger(Next(s, e), v)
    ensures s.history <= Next(s, e).history
    ensures forall x <- Next(s, e).history[|s.history|..] :: !SentOtherwise(x, v)
  {
    var task, row := s.workers[v], RowFor(s, v);
    var inForce := InForce(s, task.request.symbol);
    var f := EffectOf(s, v, e);
    NextPerforms(s, e);
    var t := Perform(s, v, f);
    assert t.history[|s.history|..] == f.entries;
    assert RowFor(t, v) == After(row, f);
    if IsOver(task.pc) {
      ActStaysOver(v, task, row, inForce, e);
    } else if !Sendable(task.pc, row) {
      ActStaysUnsendable(v, task, row, inForce, e);
    } else {
      ActHolds(v, task, row, inForce, e);
      ActStaysLive(v, task, row, inForce, e);
      assert InForce(t, task.request.symbol) == Updated(inForce, f);
      NoThreatStays(s, e, v);
    }
  }

  lemma ActStaysOver(w: nat, task: Task, row: Option<OrderRecord>, inForce: Settings, e: Event)
    requires IsOver(task.pc)
    ensures var f := Act(w, task, row, inForce, e); IsOver(f.pc) && forall x <- f.entries :: !x.Sent?
  {
  }

  lemma ActStaysLive(w: nat, task: Task, row: Option<OrderRecord>, inForce: Settings, e: Event)
    requires HasLeverage(task.pc)
    ensures var f := Act(w, task, row, inForce, e); IsOver(f.pc) || HasLeverage(f.pc)
  {
  }

  /** Anybody else's step. */
  lemma OthersStepOutOfDanger(s: State, e: Event, v: nat)
    requires Sound(s) && v in s.workers && OutOfDanger(s, v) && !e.Start? && (e.Others? || e.worker != v)
    ensures v in Next(s, e).workers && OutOfDanger(Next(s, e), v)
    ensures s.history <= Next(s, e).history
    ensures forall x <- Next(s, e).history[|s.history|..] :: !SentOtherwise(x, v)
  {
    var t := Next(s, e);
    RowsStay(s, e, s.workers[v].request.clientOrderId);
    if e.Others? || e.worker !in s.workers {
      assert t.history[|s.history|..] == [];
    } else {
      NextPerforms(s, e);
      var task := s.workers[e.worker];
      EntriesAreItsOwn(e.worker, task, RowFor(s, e.worker), InForce(s, task.request.symbol), e);
      assert t.history[|s.history|..] == EffectOf(s, e.worker, e).entries;
    }
    if !IsOver(s.workers[v].pc) {
      OthersLeaveRow(s, e, v);
      if Holds(s, v) && forall w :: !Threatens(s, w, v) {
        SettingsStay(s, e, v);
        NoThreatStays(s, e, v);
      }
    }
  }

  lemma {:induction false} StaysOutOfDanger(s: State, events: seq<Event>, v: nat)
    requires Sound(s) && v in s.workers && OutOfDanger(s, v) && NoStarts(events)
    ensures !SendsOtherwise(s, events, v) && s.history <= Run(s, events).history
    decreases |events|
  {
    if events != [] {
      var e := events[0];
      var t := Next(s, e);
      if !e.Others? && e.worker == v {
        OwnStepOutOfDanger(s, e, v);
      } else {
        OthersStepOutOfDanger(s, e, v);
      }
      SoundAfter(s, e);
      assert forall i :: 0 <= i < |events[1..]| ==> events[1..][i] == events[i + 1];
      StaysOutOfDanger(t, events[1..], v);
      var h := Run(s, events).history;
      assert h == Run(t, events[1..]).history;
      forall i | |s.history| <= i < |h|
        ensures !SentOtherwise(h[i], v)
      {
        if i < |t.history| {
          assert h[i] == t.history[i] == t.history[|s.history|..][i - |s.history|];
        }
      }
    }
  }

  // ------------------------------------------------------------------
  // In danger, it can be sent under other settings
  // ------------------------------------------------------------------

  lemma {:induction false} RunInTwo(s: State, a: seq<Event>, b: seq<Event>)
    ensures Run(s, a + b) == Run(Run(s, a), b)
    decreases |a|
  {
    if a == [] {
      assert a + b == b;
    } else {
      assert (a + b)[1..] == a[1..] + b;
      RunInTwo(Next(s, a[0]), a[1..], b);
    }
  }

  /** Only this worker and its own row moved; what the venue has set for other symbols, and every leverage, stands. */
  ghost predicate OnlyMoved(s: State, t: State, w: nat)
    requires w in s.workers
  {
    var q := s.workers[w].request;
    && w in t.workers && t.workers[w].request == q && t.workers == s.workers[w := t.workers[w]]
    && t.leverage == s.leverage && s.history <= t.history
    && (forall c :: c != q.clientOrderId ==> RowOf(t, c) == RowOf(s, c))
  }

  lemma OnlyMovedTwice(s: State, t: State, u: State, w: nat)
    requires w in s.workers && OnlyMoved(s, t, w) && OnlyMoved(t, u, w)
    ensures OnlyMoved(s, u, w)
  {
  }

  function StepsToSend(pc: Pc): nat {
    match pc
    case Isolating(_) => 6
    case Sizing(_) => 5
    case Reading(_, _) => 4
    case Writing(_, _, _) => 3
    case Stamping(_, _) => 2
    case Fetching(_, _) => 1
    case _ => 0
  }

  function StepToSend(pc: Pc, v: nat): Event {
    match pc
    case Isolating(_) => SetMargin(v, Isolated, 0)
    case Sizing(_) => Size(v, 1)
    case Reading(_, _) => Read(v)
    case Writing(_, _, _) => Write(v, 0)
    case Stamping(_, _) => Stamp(v, 0)
    case _ => Fetch(v)
  }

  lemma StepTowardsSend(v: nat, task: Task, row: Option<OrderRecord>, inForce: Settings)
    requires HasLeverage(task.pc) && !task.pc.Sending? && Sendable(task.pc, row) && row.Some?
    ensures var f := Act(v, task, row, inForce, StepToSend(task.pc, v));
            && HasLeverage(f.pc) && Sendable(f.pc, After(row, f)) && f.pc.approved == task.pc.approved
            && StepsToSend(f.pc) < StepsToSend(task.pc)
            && f.entries == [] && f.leverage.None? && (HasMargin(task.pc) ==> f.margin.None?)
            && (HasMargin(task.pc) ==> HasMargin(f.pc))
  {
  }

  lemma MovesTowardsSend(s: State, v: nat)
    requires v in s.workers && HasLeverage(s.workers[v].pc) && !s.workers[v].pc.Sending? && RowFor(s, v).Some?
    requires Sendable(s.workers[v].pc, RowFor(s, v))
    ensures var t := Next(s, StepToSend(s.workers[v].pc, v));
            && OnlyMoved(s, t, v) && t.history == s.history
            && HasLeverage(t.workers[v].pc) && RowFor(t, v).Some? && Sendable(t.workers[v].pc, RowFor(t, v))
            && t.workers[v].pc.approved == s.workers[v].pc.approved
            && StepsToSend(t.workers[v].pc) < StepsToSend(s.workers[v].pc)
            && (HasMargin(s.workers[v].pc) ==> t.margin == s.margin && HasMargin(t.workers[v].pc))
  {
    var task := s.workers[v];
    var e := StepToSend(task.pc, v);
    StepTowardsSend(v, task, RowFor(s, v), InForce(s, task.request.symbol));
    NextPerforms(s, e);
    var t := Perform(s, v, EffectOf(s, v, e));
    assert RowFor(t, v) == After(RowFor(s, v), EffectOf(s, v, e));
    assert t.history == s.history + [] == s.history;
  }

  lemma {:induction false} DriveToSend(s: State, v: nat) returns (future: seq<Event>)
    requires v in s.workers && HasLeverage(s.workers[v].pc) && RowFor(s, v).Some?
    requires Sendable(s.workers[v].pc, RowFor(s, v))
    ensures NoStarts(future)
    ensures var t := Run(s, future);
            && OnlyMoved(s, t, v) && t.history == s.history
            && t.workers[v].pc.Sending? && t.workers[v].pc.approved == s.workers[v].pc.approved
            && (HasMargin(s.workers[v].pc) ==> t.margin == s.margin)
    decreases StepsToSend(s.workers[v].pc)
  {
    var pc := s.workers[v].pc;
    if pc.Sending? {
      future := [];
    } else {
      var e := StepToSend(pc, v);
      MovesTowardsSend(s, v);
      var t := Next(s, e);
      var rest := DriveToSend(t, v);
      future := [e] + rest;
      RunFirst(s, e, rest);
      OnlyMovedTwice(s, t, Run(t, rest), v);
    }
  }

  function StepsToSet(pc: Pc): nat {
    match pc
    case Looking => 4
    case Inserting => 3
    case Won => 2
    case Ruling => 1
    case _ => 0
  }

  function StepToSet(pc: Pc, w: nat): Event {
    match pc
    case Looking => Look(w)
    case Inserting => TryInsert(w, 0)
    case Won => Validate(w, 0)
    case _ => Approve(w, 1)
  }

  lemma StepTowardsSetting(w: nat, task: Task, row: Option<OrderRecord>, inForce: Settings)
    requires CanSet(task.pc, row) && !task.pc.Leveraging? && !task.pc.Isolating?
    ensures var f := Act(w, task, row, inForce, StepToSet(task.pc, w));
            && CanSet(f.pc, After(row, f)) && StepsToSet(f.pc) < StepsToSet(task.pc)
            && f.leverage.None? && f.margin.None?
  {
  }

  lemma MovesTowardsSetting(s: State, w: nat)
    requires w in s.workers && CanSet(s.workers[w].pc, RowFor(s, w))
    requires !s.workers[w].pc.Leveraging? && !s.workers[w].pc.Isolating?
    ensures var t := Next(s, StepToSet(s.workers[w].pc, w));
            && OnlyMoved(s, t, w) && t.margin == s.margin && CanSet(t.workers[w].pc, RowFor(t, w))
            && StepsToSet(t.workers[w].pc) < StepsToSet(s.workers[w].pc)
  {
    var task := s.workers[w];
    var e := StepToSet(task.pc, w);
    StepTowardsSetting(w, task, RowFor(s, w), InForce(s, task.request.symbol));
    NextPerforms(s, e);
    var t := Perform(s, w, EffectOf(s, w, e));
    assert RowFor(t, w) == After(RowFor(s, w), EffectOf(s, w, e));
  }

  lemma {:induction false} DriveToSet(s: State, w: nat) returns (future: seq<Event>)
    requires w in s.workers && CanSet(s.workers[w].pc, RowFor(s, w))
    ensures NoStarts(future)
    ensures var t := Run(s, future);
            OnlyMoved(s, t, w) && t.margin == s.margin && (t.workers[w].pc.Leveraging? || t.workers[w].pc.Isolating?)
    decreases StepsToSet(s.workers[w].pc)
  {
    var pc := s.workers[w].pc;
    if pc.Leveraging? || pc.Isolating? {
      future := [];
    } else {
      var e := StepToSet(pc, w);
      MovesTowardsSetting(s, w);
      var t := Next(s, e);
      var rest := DriveToSet(t, w);
      future := [e] + rest;
      RunFirst(s, e, rest);
      OnlyMovedTwice(s, t, Run(t, rest), w);
    }
  }

  /** A setting is in force that was not confirmed to `v`, at the moment of the venue call. */
  lemma SendsWhatIsInForce(s: State, v: nat)
    requires v in s.workers && s.workers[v].pc.Sending? && !Holds(s, v)
    ensures SendsOtherwise(s, [Send(v, None)], v)
  {
    RunFirst(s, Send(v, None), []);
    var t := Next(s, Send(v, None));
    NextPerforms(s, Send(v, None));
    assert [Send(v, None)] == [Send(v, None)] + [];
    assert SentOtherwise(t.history[|s.history|], v);
  }

  lemma SendsLater(s: State, a: seq<Event>, b: seq<Event>, v: nat)
    requires s.history <= Run(s, a).history && SendsOtherwise(Run(s, a), b, v)
    ensures SendsOtherwise(s, a + b, v)
  {
    RunInTwo(s, a, b);
  }

  lemma AlreadyOtherwise(s: State, v: nat) returns (future: seq<Event>)
    requires v in s.workers && HasLeverage(s.workers[v].pc) && RowFor(s, v).Some?
    requires Sendable(s.workers[v].pc, RowFor(s, v)) && !Holds(s, v)
    ensures NoStarts(future) && SendsOtherwise(s, future, v)
  {
    var drive := DriveToSend(s, v);
    var t := Run(s, drive);
    SendsWhatIsInForce(t, v);
    SendsLater(s, drive, [Send(v, None)], v);
    future := drive + [Send(v, None)];
  }

  /** The venue applies another leverage than `v`'s, or another margin mode, at another worker's request. */
  function Upset(pc: Pc, w: nat, approved: Money): Event {
    if pc.Leveraging? then SetLeverage(w, approved + 1, 0) else SetMargin(w, Crossed, 0)
  }

  lemma UpsetChanges(s: State, w: nat, v: nat)
    requires v in s.workers && s.workers[v].pc.Sending? && w in s.workers && w != v
    requires s.workers[w].pc.Leveraging? || s.workers[w].pc.Isolating?
    requires s.workers[w].request.symbol == s.workers[v].request.symbol
    ensures var t := Next(s, Upset(s.workers[w].pc, w, s.workers[v].pc.approved));
            v in t.workers && t.workers[v] == s.workers[v] && !Holds(t, v) && s.history <= t.history
  {
    NextPerforms(s, Upset(s.workers[w].pc, w, s.workers[v].pc.approved));
  }

  /** The other worker sets, and then `v` sends. */
  lemma UpsetThenSent(s: State, w: nat, v: nat) returns (future: seq<Event>)
    requires v in s.workers && s.workers[v].pc.Sending? && w in s.workers && w != v
    requires s.workers[w].pc.Leveraging? || s.workers[w].pc.Isolating?
    requires s.workers[w].request.symbol == s.workers[v].request.symbol
    ensures NoStarts(future) && SendsOtherwise(s, future, v)
  {
    var upset := Upset(s.workers[w].pc, w, s.workers[v].pc.approved);
    UpsetChanges(s, w, v);
    SendsWhatIsInForce(Next(s, upset), v);
    RunFirst(s, upset, []);
    assert [upset] + [] == [upset];
    SendsLater(s, [upset], [Send(v, None)], v);
    future := [upset] + [Send(v, None)];
  }

  lemma ThreatensFromAnotherOrder(s: State, w: nat, v: nat)
    requires Sound(s) && v in s.workers && HasLeverage(s.workers[v].pc)
    requires Sendable(s.workers[v].pc, RowFor(s, v)) && Threatens(s, w, v)
    ensures s.workers[w].request.clientOrderId != s.workers[v].request.clientOrderId && RowFor(s, v).Some?
  {
    var c := s.workers[v].request.clientOrderId;
    assert Inv(s, c) && Owns(s, v, c);
    if s.workers[w].request.clientOrderId == c {
      assert MaySend(s.workers[w].pc) ==> Owns(s, w, c);
    }
  }

  lemma Threatened(s: State, w: nat, v: nat) returns (future: seq<Event>)
    requires Sound(s) && v in s.workers && HasLeverage(s.workers[v].pc)
    requires Sendable(s.workers[v].pc, RowFor(s, v)) && Threatens(s, w, v)
    ensures NoStarts(future) && SendsOtherwise(s, future, v)
  {
    ThreatensFromAnotherOrder(s, w, v);
    var approach := DriveToSet(s, w);
    var s1 := Run(s, approach);
    assert RowFor(s1, v) == RowFor(s, v) && s1.workers[v] == s.workers[v];
    var drive := DriveToSend(s1, v);
    var rest := UpsetThenSent(Run(s1, drive), w, v);
    SendsLater(s1, drive, rest, v);
    SendsLater(s, approach, drive + rest, v);
    future := approach + (drive + rest);
  }

  // ------------------------------------------------------------------
  // The exact condition
  // ------------------------------------------------------------------

  /**
    In any reached state, for a worker past `set_leverage`: the workers present can bring its
    order to be sent under settings it had not confirmed, exactly when it can still send it and
    the settings in force already differ, or another of them can still set them.
   */
  lemma SentUnderOtherSettingsIff(past: seq<Event>, v: nat)
    requires var s := Reached(past); v in s.workers && HasLeverage(s.workers[v].pc)
    ensures var s := Reached(past);
            (exists future :: NoStarts(future) && SendsOtherwise(s, future, v))
            <==> Sendable(s.workers[v].pc, RowFor(s, v)) && (!Holds(s, v) || exists w :: Threatens(s, w, v))
  {
    var s := Reached(past);
    assert Sound(START);
    SoundThroughout(START, past);
    if Sendable(s.workers[v].pc, RowFor(s, v)) && (!Holds(s, v) || exists w :: Threatens(s, w, v)) {
      assert Inv(s, s.workers[v].request.clientOrderId) && Owns(s, v, s.workers[v].request.clientOrderId);
      if !Holds(s, v) {
        var future := AlreadyOtherwise(s, v);
      } else {
        var w :| Threatens(s, w, v);
        var future := Threatened(s, w, v);
      }
    } else {
      forall future | NoStarts(future)
        ensures !SendsOtherwise(s, future, v)
      {
        StaysOutOfDanger(s, future, v);
      }
    }
  }

  // ------------------------------------------------------------------
  // It happens
  // ------------------------------------------------------------------

  /** Two submissions for one symbol; the first has just had its leverage confirmed. */
  function FirstConfirmed(q: Request, other: Request, approved: Money): seq<Event> {
    [Start(0, q)] + [Start(1, other)] + [Look(0)] + [TryInsert(0, 0)] + [Validate(0, 0)] + [Approve(0, approved)]
    + [SetLeverage(0, approved, 0)]
  }

  lemma BothStart(q: Request, other: Request)
    requires q.clientOrderId != other.clientOrderId
    ensures var s := Reached([Start(0, q)] + [Start(1, other)] + [Look(0)] + [TryInsert(0, 0)]);
            && s.workers == map[0 := Task(q, Won), 1 := Task(other, Looking)]
            && s.rows == map[q.clientOrderId := NewRecord(q, 0)]
  {
    var e1 := [Start(0, q)];
    var e2 := e1 + [Start(1, other)];
    var e3 := e2 + [Look(0)];
    RunLast(START, [], Start(0, q));
    RunLast(START, e1, Start(1, other));
    RunLast(START, e2, Look(0));
    RunLast(START, e3, TryInsert(0, 0));
  }

  predicate TwoWorkers(s: State, q: Request, pc: Pc, other: Request) {
    && s.workers == map[0 := Task(q, pc), 1 := Task(other, Looking)]
    && s.rows == map[q.clientOrderId := NewRecord(q, 0).(state := Validating)]
  }

  lemma FirstIsApproved(q: Request, other: Request, approved: Money)
    requires q.clientOrderId != other.clientOrderId
    ensures var e4 := [Start(0, q)] + [Start(1, other)] + [Look(0)] + [TryInsert(0, 0)];
            TwoWorkers(Reached(e4 + [Validate(0, 0)] + [Approve(0, approved)]), q, Leveraging(approved), other)
  {
    BothStart(q, other);
    var e4 := [Start(0, q)] + [Start(1, other)] + [Look(0)] + [TryInsert(0, 0)];
    RunLast(START, e4, Validate(0, 0));
    assert TwoWorkers(Reached(e4 + [Validate(0, 0)]), q, Ruling, other);
    RunLast(START, e4 + [Validate(0, 0)], Approve(0, approved));
  }

  lemma FirstIsConfirmed(q: Request, other: Request, approved: Money)
    requires q.clientOrderId != other.clientOrderId
    ensures TwoWorkers(Reached(FirstConfirmed(q, other, approved)), q, Isolating(approved), other)
  {
    FirstIsApproved(q, other, approved);
    var e6 := [Start(0, q)] + [Start(1, other)] + [Look(0)] + [TryInsert(0, 0)] + [Validate(0, 0)] + [Approve(0, approved)];
    RunLast(START, e6, SetLeverage(0, approved, 0));
  }

  /** From the start: a confirmed, stamped order leaves under settings its worker had not confirmed. */
  lemma AnOrderLeavesUnderOtherSettings(q: Request, other: Request, approved: Money)
    requires q.clientOrderId != other.clientOrderId && q.symbol == other.symbol
    ensures exists future :: NoStarts(future) && SendsOtherwise(Reached(FirstConfirmed(q, other, approved)), future, 0)
  {
    FirstIsConfirmed(q, other, approved);
    var past := FirstConfirmed(q, other, approved);
    assert Threatens(Reached(past), 1, 0);
    SentUnderOtherSettingsIff(past, 0);
  }
}
