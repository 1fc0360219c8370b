/**
  Any number of concurrent `submit` calls against one durable order table and one venue.

  A worker is a program counter through `submit`; each event is one committed
  transaction or one venue call of one worker, a crash, or somebody else's locked
  mutator. Events that are not enabled change nothing, so every sequence of events is
  a run.
 */
module Submission {
  import opened Common
  import opened Orders
  import opened OrderStore

  datatype Request = Request(orderId: OrderId, clientOrderId: ClientId, symbol: Symbol)

  datatype Pc =
    | Looking                                     // add_or_get: the first read
    | Inserting                                   // it found nothing
    | Rereading                                   // the unique constraint fired
    | Replayed(winner: OrderRecord)               // returned (winner, created = false)
    | Won                                         // returned (record, created = true)
    | Ruling                                      // VALIDATING is committed
    | Leveraging(approved: Money)                 // approved by the risk engine
    | Isolating(approved: Money)                  // leverage confirmed by the venue
    | Sizing(approved: Money)                     // ISOLATED confirmed by the venue
    | Reading(approved: Money, quantity: Money)   // sized; about to re-read the record
    | Writing(approved: Money, quantity: Money, snapshot: OrderRecord)
    | Stamping(approved: Money, quantity: Money)  // execution parameters are committed
    | Fetching(approved: Money, quantity: Money)  // the submission stamp is committed
    | Sending(approved: Money, quantity: Money, record: OrderRecord)
    | Answered(answer: Option<VenueView>)         // the venue call returned, or did not
    | Finished
    | Stopped                                     // raised, or its process died

  datatype Task = Task(request: Request, pc: Pc)

  datatype Entry =
    | Inserted(worker: nat, clientOrderId: ClientId, orderId: OrderId)
    | Sent(worker: nat, approved: Money, quantity: Money, record: OrderRecord,
           leverageInForce: Option<Money>, marginInForce: Option<MarginMode>)

  datatype State = State(
    rows: map<ClientId, OrderRecord>,        // by client order id
    workers: map<nat, Task>,
    leverage: map<Symbol, Money>,          // what the venue has set, by symbol
    margin: map<Symbol, MarginMode>,
    history: seq<Entry>)

  datatype Event =
    | Start(worker: nat, request: Request)
    | Look(worker: nat)
    | TryInsert(worker: nat, now: Time)
    | Reread(worker: nat)
    | Validate(worker: nat, now: Time)
    | Approve(worker: nat, approved: Money)
    | SetLeverage(worker: nat, applied: Money, now: Time)
    | SetMargin(worker: nat, reported: MarginMode, now: Time)
    | Size(worker: nat, quantity: Money)
    | Refuse(worker: nat, now: Time)
    | Read(worker: nat)
    | Write(worker: nat, now: Time)
    | Stamp(worker: nat, now: Time)
    | Fetch(worker: nat)
    | Send(worker: nat, answer: Option<VenueView>)
    | Acknowledge(worker: nat, now: Time)
    | Crash(worker: nat)
    | Others(clientOrderId: ClientId, op: Op)

  const START := State(map[], map[], map[], map[], [])

  /** The record a request is first written down as; the quantity is provisional. */
  function NewRecord(q: Request, now: Time): OrderRecord {
    OrderRecord(q.orderId, q.clientOrderId, None, q.symbol, 1, Created, 0, None, [], now, now,
                None, None, None, None, None, 0, None, [], None)
  }

  /** `update`: every column replaced, fills reconciled, evidence appended. */
  function Overwrite(row: OrderRecord, r: OrderRecord): OrderRecord {
    r.(fills := SyncFills(row.fills, r.fills),
       discrepancies := SyncDiscrepancies(row.discrepancies, r.discrepancies))
  }

  /** The sized order, with the execution parameters the venue confirmed. */
  function Confirmed(snapshot: OrderRecord, approved: Money, quantity: Money, now: Time): OrderRecord {
    snapshot.(quantity := quantity, venueLeverage := Some(approved),
              venueMarginMode := Some(Isolated), updatedAt := now)
  }

  function Setting<T>(m: map<Symbol, T>, symbol: Symbol): Option<T> {
    if symbol in m then Some(m[symbol]) else None
  }

  /** A venue message names a mapped state; one that does not is refused before it is used. */
  predicate Readable(answer: Option<VenueView>) {
    answer.Some? ==> VenueReports(answer.value.state)
  }

  /** Only `submit` validates and stamps; everybody else may run any other mutator at any time. */
  predicate OthersMay(op: Op) {
    !op.MarkValidating? && !op.MarkSubmitting? && (op.ApplyVenueAck? ==> VenueReports(op.state))
  }

  /** The mutator that records how the venue call ended. */
  function Verdict(answer: Option<VenueView>, now: Time): Op {
    match answer
    case None => MarkUnknown(now)
    case Some(view) => ApplyVenueAck(view.venueOrderId.GetOr(VenueId("")), view.state, now)
  }

  // ------------------------------------------------------------------
  // One step of one worker
  // ------------------------------------------------------------------

  /** What a step does: where the worker goes, the row it writes, and what the venue was told. */
  datatype Effect = Effect(
    pc: Pc,
    row: Option<OrderRecord>,
    entries: seq<Entry>,
    leverage: Option<Money>,
    margin: Option<MarginMode>)

  /** The venue's settings for the worker's symbol. */
  datatype Settings = Settings(leverage: Option<Money>, margin: Option<MarginMode>)

  function To(pc: Pc): Effect {
    Effect(pc, None, [], None, None)
  }

  /** A locked mutator by the worker itself; raising stops the worker and rolls back. */
  function Mutate(row: Option<OrderRecord>, op: Op, next: Pc): Effect {
    if row.None? then To(Stopped)
    else
      match Step(row.value, op)
      case Err(_) => To(Stopped)
      case Ok(r) => To(next).(row := Some(r))
  }

  function Refusal(code: string, now: Time): Op {
    MarkRiskRejected(Label(code), now)
  }

  /** A worker's step on its own row; one that its program counter does not offer changes nothing. */
  function Act(w: nat, task: Task, row: Option<OrderRecord>, inForce: Settings, e: Event): Effect {
    var q, pc := task.request, task.pc;
    match e
    case Look(_) =>
      if !pc.Looking? then To(pc) else To(if row.Some? then Replayed(row.value) else Inserting)
    case TryInsert(_, now) =>
      if !pc.Inserting? then To(pc)
      else if row.Some? then To(Rereading)
      else To(Won).(row := Some(NewRecord(q, now)), entries := [Inserted(w, q.clientOrderId, q.orderId)])
    case Reread(_) =>
      if !pc.Rereading? then To(pc) else To(if row.Some? then Replayed(row.value) else Stopped)
    case Validate(_, now) =>
      if !pc.Won? then To(pc) else Mutate(row, MarkValidating(now), Ruling)
    case Approve(_, approved) =>
      if !pc.Ruling? then To(pc) else To(Leveraging(approved))
    case SetLeverage(_, applied, now) =>
      if !pc.Leveraging? then To(pc)
      else (if applied == pc.approved then To(Isolating(pc.approved)) else Mutate(row, Refusal("MAX_LEVERAGE", now), Finished))
           .(leverage := Some(applied))
    case SetMargin(_, reported, now) =>
      if !pc.Isolating? then To(pc)
      else (if reported == Isolated then To(Sizing(pc.approved)) else Mutate(row, Refusal("MODE_NOT_ENABLED", now), Finished))
           .(margin := Some(reported))
    case Size(_, quantity) =>
      if !pc.Sizing? || quantity <= 0 then To(pc) else To(Reading(pc.approved, quantity))
    case Refuse(_, now) =>
      if !(pc.Ruling? || pc.Leveraging? || pc.Isolating? || pc.Sizing?) then To(pc)
      else Mutate(row, Refusal("REFUSED", now), Finished)
    case Read(_) =>
      if !pc.Reading? || row.None? then To(pc) else To(Writing(pc.approved, pc.quantity, row.value))
    case Write(_, now) =>
      if !pc.Writing? then To(pc)
      else if row.None? then To(Stopped)
      else To(Stamping(pc.approved, pc.quantity)).(row :=
             Some(Overwrite(row.value, Confirmed(pc.snapshot, pc.approved, pc.quantity, now))))
    case Stamp(_, now) =>
      if !pc.Stamping? then To(pc) else Mutate(row, MarkSubmitting(now), Fetching(pc.approved, pc.quantity))
    case Fetch(_) =>
      if !pc.Fetching? || row.None? then To(pc) else To(Sending(pc.approved, pc.quantity, row.value))
    case Send(_, answer) =>
      if !pc.Sending? || !Readable(answer) then To(pc)
      else To(Answered(answer)).(entries := [Sent(w, pc.approved, pc.quantity, pc.record, inForce.leverage, inForce.margin)])
    case Acknowledge(_, now) =>
      if !pc.Answered? then To(pc) else Mutate(row, Verdict(pc.answer, now), Finished)
    case Crash(_) => To(Stopped)
    case _ => To(pc)
  }

  function RowOf(s: State, c: ClientId): Option<OrderRecord> {
    if c in s.rows then Some(s.rows[c]) else None
  }

  function InForce(s: State, symbol: Symbol): Settings {
    Settings(Setting(s.leverage, symbol), Setting(s.margin, symbol))
  }

  function EffectOf(s: State, w: nat, e: Event): Effect
    requires w in s.workers
  {
    var task := s.workers[w];
    Act(w, task, RowOf(s, task.request.clientOrderId), InForce(s, task.request.symbol), e)
  }

  /** The step takes effect: one worker moves, and at most its own row and its own symbol change. */
  function Perform(s: State, w: nat, f: Effect): State
    requires w in s.workers
  {
    var q := s.workers[w].request;
    State(if f.row.Some? then s.rows[q.clientOrderId := f.row.value] else s.rows,
          s.workers[w := s.workers[w].(pc := f.pc)],
          if f.leverage.Some? then s.leverage[q.symbol := f.leverage.value] else s.leverage,
          if f.margin.Some? then s.margin[q.symbol := f.margin.value] else s.margin,
          s.history + f.entries)
  }

  function Next(s: State, e: Event): State {
    match e
    case Start(w, q) => if w in s.workers then s else s.(workers := s.workers[w := Task(q, Looking)])
    case Others(c, op) =>
      if c in s.rows && OthersMay(op) then s.(rows := s.rows[c := Commit(s.rows[c], op)]) else s
    case _ => if e.worker in s.workers then Perform(s, e.worker, EffectOf(s, e.worker, e)) else s
  }

  lemma NextPerforms(s: State, e: Event)
    requires !e.Start? && !e.Others? && e.worker in s.workers
    ensures Next(s, e) == Perform(s, e.worker, EffectOf(s, e.worker, e))
  {
  }

  function Run(s: State, events: seq<Event>): State
    decreases |events|
  {
    if events == [] then s else Run(Next(s, events[0]), events[1..])
  }

  // ------------------------------------------------------------------
  // Counting
  // ------------------------------------------------------------------

  predicate IsSend(e: Entry, c: ClientId) {
    e.Sent? && e.record.clientOrderId == c
  }

  predicate IsInsert(e: Entry, c: ClientId) {
    e.Inserted? && e.clientOrderId == c
  }

  /** How often the venue was given an order with this client order id. */
  function Sends(h: seq<Entry>, c: ClientId): nat {
    if h == [] then 0 else Sends(h[..|h| - 1], c) + if IsSend(h[|h| - 1], c) then 1 else 0
  }

  /** How many `add_or_get` calls returned created = true for this client order id. */
  function Inserts(h: seq<Entry>, c: ClientId): nat {
    if h == [] then 0 else Inserts(h[..|h| - 1], c) + if IsInsert(h[|h| - 1], c) then 1 else 0
  }

  // ------------------------------------------------------------------
  // The invariant of one client order id
  // ------------------------------------------------------------------

  /** A worker that won the insert and has not yet called the venue. */
  predicate MaySend(pc: Pc) {
    pc.Won? || pc.Ruling? || pc.Leveraging? || pc.Isolating? || pc.Sizing? || pc.Reading?
    || pc.Writing? || pc.Stamping? || pc.Fetching? || pc.Sending?
  }

  predicate Works(s: State, w: nat, c: ClientId) {
    w in s.workers && s.workers[w].request.clientOrderId == c
  }

  predicate Owns(s: State, w: nat, c: ClientId) {
    Works(s, w, c) && MaySend(s.workers[w].pc)
  }

  /** What the venue confirmed before the order was allowed to leave. */
  predicate Bound(r: OrderRecord, approved: Money) {
    r.venueLeverage == Some(approved) && r.venueMarginMode == Some(Isolated)
  }

  /** What the durable row says while its owner stands at `pc`. */
  predicate PcAgrees(row: OrderRecord, pc: Pc, c: ClientId) {
    match pc
    case Writing(_, _, snapshot) =>
      snapshot.clientOrderId == c && snapshot.orderId == row.orderId && snapshot.symbol == row.symbol
    case Stamping(approved, quantity) => Bound(row, approved) && row.quantity == quantity
    case Fetching(approved, quantity) => Bound(row, approved) && row.quantity == quantity && row.ReachedVenue()
    case Sending(approved, quantity, record) =>
      && Bound(row, approved) && row.quantity == quantity && row.ReachedVenue()
      && Bound(record, approved) && record.quantity == quantity && record.ReachedVenue()
      && record.clientOrderId == c && record.orderId == row.orderId && record.symbol == row.symbol
    case _ => true
  }

  /** Every send of this id was written down first, bound to what the risk engine approved. */
  predicate SendsWrittenDown(s: State, c: ClientId) {
    forall i :: 0 <= i < |s.history| && IsSend(s.history[i], c) ==>
      && s.history[i].record.ReachedVenue() && Bound(s.history[i].record, s.history[i].approved)
      && s.history[i].record.quantity == s.history[i].quantity
      && c in s.rows && s.rows[c].ReachedVenue() && Bound(s.rows[c], s.history[i].approved)
      && s.rows[c].quantity == s.history[i].quantity
  }

  predicate RowsAgree(s: State, c: ClientId) {
    if c in s.rows then Inserts(s.history, c) == 1 && s.rows[c].clientOrderId == c
    else Inserts(s.history, c) == 0 && Sends(s.history, c) == 0
  }

  ghost predicate OwnersAgree(s: State, c: ClientId) {
    && (forall v, w :: Owns(s, v, c) && Owns(s, w, c) ==> v == w)
    && (forall w :: Owns(s, w, c) ==>
          && c in s.rows && Sends(s.history, c) == 0
          && s.rows[c].orderId == s.workers[w].request.orderId
          && s.rows[c].symbol == s.workers[w].request.symbol
          && PcAgrees(s.rows[c], s.workers[w].pc, c))
  }

  ghost predicate ReadersAgree(s: State, c: ClientId) {
    && (forall w :: Works(s, w, c) && s.workers[w].pc.Rereading? ==> c in s.rows)
    && (forall w :: Works(s, w, c) && s.workers[w].pc.Replayed? ==>
          c in s.rows && s.workers[w].pc.winner.orderId == s.rows[c].orderId)
  }

  ghost predicate Inv(s: State, c: ClientId) {
    && RowsAgree(s, c) && OwnersAgree(s, c) && ReadersAgree(s, c)
    && SendsWrittenDown(s, c) && Sends(s.history, c) <= 1
  }

  /** What any locked mutator leaves alone. */
  lemma CommitKeeps(r: OrderRecord, op: Op)
    ensures var w := Commit(r, op);
            && w.orderId == r.orderId && w.clientOrderId == r.clientOrderId
            && w.symbol == r.symbol && w.quantity == r.quantity
            && w.venueLeverage == r.venueLeverage && w.venueMarginMode == r.venueMarginMode
            && (r.ReachedVenue() ==> w.ReachedVenue())
            && (op.MarkSubmitting? && Step(r, op).Ok? ==> w.ReachedVenue())
            && (!op.MarkSubmitting? ==> w.submittedAt == r.submittedAt)
            && (IsTerminal(r.state) ==> w.state == r.state)
  {
  }

  // ------------------------------------------------------------------
  // What one step may do, seen from its own row
  // ------------------------------------------------------------------

  /** The invariant of one worker and its row. */
  predicate Fits(task: Task, row: Option<OrderRecord>) {
    var c := task.request.clientOrderId;
    && (row.Some? ==> row.value.clientOrderId == c)
    && (MaySend(task.pc) ==>
          && row.Some? && row.value.orderId == task.request.orderId && row.value.symbol == task.request.symbol
          && PcAgrees(row.value, task.pc, c))
    && (task.pc.Rereading? ==> row.Some?)
    && (task.pc.Replayed? ==> row.Some? && task.pc.winner.orderId == row.value.orderId)
  }

  /** Nothing anybody else relies on about the row is lost. */
  predicate StillBinds(row: OrderRecord, r: OrderRecord) {
    && r.orderId == row.orderId && r.clientOrderId == row.clientOrderId
    && r.symbol == row.symbol && r.quantity == row.quantity
    && r.venueLeverage == row.venueLeverage && r.venueMarginMode == row.venueMarginMode
    && (row.ReachedVenue() ==> r.ReachedVenue())
  }

  /** The insert won. */
  predicate Creates(w: nat, task: Task, row: Option<OrderRecord>, f: Effect) {
    && row.None? && f.row.Some? && f.pc.Won?
    && f.entries == [Inserted(w, task.request.clientOrderId, task.request.orderId)]
  }

  /** The venue was given the order. */
  predicate SendsOut(w: nat, task: Task, f: Effect) {
    && task.pc.Sending? && f.pc.Answered? && f.row.None? && |f.entries| == 1
    && f.entries[0].Sent? && f.entries[0].worker == w
    && f.entries[0].record == task.pc.record
    && f.entries[0].approved == task.pc.approved && f.entries[0].quantity == task.pc.quantity
  }

  /** Any other step: only a worker that may send rewrites the row, and only it may still send afterwards. */
  predicate Goes(task: Task, row: Option<OrderRecord>, f: Effect) {
    && f.entries == []
    && (MaySend(f.pc) ==> MaySend(task.pc))
    && (f.row.Some? ==> row.Some? && (MaySend(task.pc) || StillBinds(row.value, f.row.value)))
  }

  function After(row: Option<OrderRecord>, f: Effect): Option<OrderRecord> {
    if f.row.Some? then f.row else row
  }

  /** A step with this effect is one of the three kinds, and leaves the worker fitting its row. */
  predicate IsSound(w: nat, task: Task, row: Option<OrderRecord>, f: Effect) {
    && (Creates(w, task, row, f) || SendsOut(w, task, f) || Goes(task, row, f))
    && Fits(task.(pc := f.pc), After(row, f))
    && (row.Some? ==> After(row, f).Some? && After(row, f).value.orderId == row.value.orderId)
  }

  lemma MutateIsSound(w: nat, task: Task, row: Option<OrderRecord>, op: Op, next: Pc)
    requires Fits(task, row)
    requires MaySend(task.pc) || (!MaySend(next) && !op.MarkSubmitting?)
    requires !next.Rereading? && !next.Replayed? && !next.Writing? && !next.Sending? && !next.Stamping?
    requires next.Fetching? ==> op.MarkSubmitting? && task.pc.Stamping? && task.pc.approved == next.approved
                                 && task.pc.quantity == next.quantity
    ensures IsSound(w, task, row, Mutate(row, op, next))
  {
    if row.Some? {
      CommitKeeps(row.value, op);
    }
  }

  /** The step goes through the lifecycle engine, or may. */
  predicate IsMutation(e: Event) {
    e.Validate? || e.SetLeverage? || e.SetMargin? || e.Refuse? || e.Stamp? || e.Acknowledge?
  }

  lemma PlainActIsSound(w: nat, task: Task, row: Option<OrderRecord>, inForce: Settings, e: Event)
    requires Fits(task, row)
    requires !IsMutation(e)
    ensures IsSound(w, task, row, Act(w, task, row, inForce, e))
  {
  }

  lemma MutationIsSound(w: nat, task: Task, row: Option<OrderRecord>, inForce: Settings, e: Event)
    requires Fits(task, row) && IsMutation(e)
    ensures IsSound(w, task, row, Act(w, task, row, inForce, e))
  {
    if e.Acknowledge? {
      if task.pc.Answered? {
        MutateIsSound(w, task, row, Verdict(task.pc.answer, e.now), Finished);
      }
    } else if MaySend(task.pc) {
      if e.Validate? {
        MutateIsSound(w, task, row, MarkValidating(e.now), Ruling);
      } else if e.Refuse? {
        MutateIsSound(w, task, row, Refusal("REFUSED", e.now), Finished);
      } else if e.SetLeverage? {
        MutateIsSound(w, task, row, Refusal("MAX_LEVERAGE", e.now), Finished);
      } else if e.SetMargin? {
        MutateIsSound(w, task, row, Refusal("MODE_NOT_ENABLED", e.now), Finished);
      } else if task.pc.Stamping? {
        MutateIsSound(w, task, row, MarkSubmitting(e.now), Fetching(task.pc.approved, task.pc.quantity));
      }
    }
  }

  lemma ActIsSound(w: nat, task: Task, row: Option<OrderRecord>, inForce: Settings, e: Event)
    requires Fits(task, row)
    ensures IsSound(w, task, row, Act(w, task, row, inForce, e))
  {
    if IsMutation(e) {
      MutationIsSound(w, task, row, inForce, e);
    } else {
      PlainActIsSound(w, task, row, inForce, e);
    }
  }

  // ------------------------------------------------------------------
  // Every event keeps the invariant
  // ------------------------------------------------------------------

  lemma NewEntry(h: seq<Entry>, e: Entry, c: ClientId)
    ensures Sends(h + [e], c) == Sends(h, c) + if IsSend(e, c) then 1 else 0
    ensures Inserts(h + [e], c) == Inserts(h, c) + if IsInsert(e, c) then 1 else 0
  {
    assert (h + [e])[..|h|] == h;
  }

  lemma {:induction false} NoSends(h: seq<Entry>, c: ClientId)
    requires Sends(h, c) == 0
    ensures forall i :: 0 <= i < |h| ==> !IsSend(h[i], c)
  {
    if h != [] {
      NoSends(h[..|h| - 1], c);
    }
  }

  lemma {:induction false} SomeSend(h: seq<Entry>, c: ClientId)
    requires Sends(h, c) != 0
    ensures exists i :: 0 <= i < |h| && IsSend(h[i], c)
  {
    if !IsSend(h[|h| - 1], c) {
      SomeSend(h[..|h| - 1], c);
      var i :| 0 <= i < |h| - 1 && IsSend(h[..|h| - 1][i], c);
      assert IsSend(h[i], c);
    }
  }

  /** The history grew by nothing, or by an entry of another id. */
  predicate NothingNew(h: seq<Entry>, longer: seq<Entry>, c: ClientId) {
    longer == h
    || (|longer| == |h| + 1 && longer == h + [longer[|h|]] && !IsSend(longer[|h|], c) && !IsInsert(longer[|h|], c))
  }

  lemma NothingNewCounts(h: seq<Entry>, longer: seq<Entry>, c: ClientId)
    requires NothingNew(h, longer, c)
    ensures Sends(longer, c) == Sends(h, c) && Inserts(longer, c) == Inserts(h, c)
    ensures forall i :: 0 <= i < |longer| && IsSend(longer[i], c) ==> i < |h| && longer[i] == h[i]
  {
    if longer != h {
      NewEntry(h, longer[|h|], c);
    }
  }

  /** The workers of an id, and where they stand, are as they were. */
  ghost predicate SameWorkers(s: State, t: State, c: ClientId) {
    forall v :: Works(t, v, c) ==> Works(s, v, c) && t.workers[v] == s.workers[v]
  }

  lemma SameViewKeeps(s: State, t: State, c: ClientId)
    requires Inv(s, c) && SameWorkers(s, t, c) && NothingNew(s.history, t.history, c)
    requires RowOf(s, c) == RowOf(t, c)
    ensures Inv(t, c)
  {
    NothingNewCounts(s.history, t.history, c);
    assert RowsAgree(t, c);
    assert OwnersAgree(t, c) by {
      assert forall v :: Owns(t, v, c) ==> Owns(s, v, c);
    }
    assert ReadersAgree(t, c);
    assert SendsWrittenDown(t, c);
  }

  /** Only worker `w` of this id moved, to `pc`. */
  ghost predicate OneMoved(s: State, t: State, w: nat, pc: Pc, c: ClientId) {
    && Works(s, w, c) && w in t.workers && t.workers[w] == s.workers[w].(pc := pc)
    && (forall v :: v != w && Works(t, v, c) ==> Works(s, v, c) && t.workers[v] == s.workers[v])
  }

  lemma WorkerFits(s: State, w: nat, c: ClientId)
    requires Inv(s, c) && Works(s, w, c)
    ensures Fits(s.workers[w], RowOf(s, c))
  {
    assert Owns(s, w, c) <==> MaySend(s.workers[w].pc);
  }

  /** The first insert of an id. */
  lemma CreationKeeps(s: State, t: State, w: nat, entry: Entry, c: ClientId)
    requires Inv(s, c) && OneMoved(s, t, w, Won, c) && c !in s.rows
    requires c in t.rows && t.history == s.history + [entry] && IsInsert(entry, c)
    requires t.rows[c].clientOrderId == c && t.rows[c].orderId == s.workers[w].request.orderId
    requires t.rows[c].symbol == s.workers[w].request.symbol
    ensures Inv(t, c)
  {
    NewEntry(s.history, entry, c);
    NoSends(s.history, c);
    NoSends(t.history, c);
    assert forall v :: Owns(t, v, c) ==> v == w;
    assert OwnersAgree(t, c);
    assert ReadersAgree(t, c);
  }

  /** The owner gives the order to the venue: the id's one send. */
  lemma FirstSendKeeps(s: State, t: State, w: nat, pc: Pc, sent: Entry, c: ClientId)
    requires Inv(s, c) && OneMoved(s, t, w, pc, c) && pc.Answered? && s.workers[w].pc.Sending?
    requires RowOf(t, c) == RowOf(s, c) && t.history == s.history + [sent] && sent.Sent?
    requires sent.record == s.workers[w].pc.record
    requires sent.approved == s.workers[w].pc.approved && sent.quantity == s.workers[w].pc.quantity
    ensures Inv(t, c)
  {
    assert Owns(s, w, c);
    NewEntry(s.history, sent, c);
    NoSends(s.history, c);
    assert forall v :: v != w && Owns(t, v, c) ==> Owns(s, v, c);
    assert forall v :: !Owns(t, v, c);
    assert ReadersAgree(t, c);
    assert SendsWrittenDown(t, c);
  }

  /** The owner moves on without sending, possibly rewriting its row. */
  lemma OwnerKeeps(s: State, t: State, w: nat, pc: Pc, c: ClientId)
    requires Inv(s, c) && OneMoved(s, t, w, pc, c) && MaySend(s.workers[w].pc) && t.history == s.history
    requires c in t.rows && Fits(t.workers[w], RowOf(t, c)) && t.rows[c].orderId == s.rows[c].orderId
    ensures Inv(t, c)
  {
    assert Owns(s, w, c);
    NoSends(s.history, c);
    assert forall v :: Owns(t, v, c) ==> v == w by {
      assert forall v :: v != w && Owns(t, v, c) ==> Owns(s, v, c);
    }
    assert OwnersAgree(t, c);
    assert ReadersAgree(t, c);
  }

  /** A worker that may not send moves on, leaving the row binding. */
  lemma BystanderKeeps(s: State, t: State, w: nat, pc: Pc, c: ClientId)
    requires Inv(s, c) && OneMoved(s, t, w, pc, c) && !MaySend(pc) && t.history == s.history
    requires RowOf(t, c).Some? <==> RowOf(s, c).Some?
    requires c in s.rows ==> c in t.rows && StillBinds(s.rows[c], t.rows[c])
    requires Fits(t.workers[w], RowOf(t, c))
    ensures Inv(t, c)
  {
    assert forall v :: Owns(t, v, c) ==> v != w && Owns(s, v, c);
    assert OwnersAgree(t, c);
    assert ReadersAgree(t, c);
    assert SendsWrittenDown(t, c);
  }

  lemma PerformKeepsOwn(s: State, w: nat, f: Effect, c: ClientId)
    requires Inv(s, c) && Works(s, w, c) && IsSound(w, s.workers[w], RowOf(s, c), f)
    ensures Inv(Perform(s, w, f), c)
  {
    var task := s.workers[w];
    var t := Perform(s, w, f);
    assert RowOf(t, c) == After(RowOf(s, c), f);
    assert OneMoved(s, t, w, f.pc, c);
    if Creates(w, task, RowOf(s, c), f) {
      CreationKeeps(s, t, w, f.entries[0], c);
    } else if SendsOut(w, task, f) {
      assert f.entries == [f.entries[0]];
      FirstSendKeeps(s, t, w, f.pc, f.entries[0], c);
    } else if MaySend(task.pc) {
      OwnerKeeps(s, t, w, f.pc, c);
    } else {
      BystanderKeeps(s, t, w, f.pc, c);
    }
  }

  /** A worker of another id says and writes nothing about this one. */
  lemma PerformKeepsOthers(s: State, w: nat, f: Effect, c: ClientId)
    requires Inv(s, c) && w in s.workers && !Works(s, w, c)
    requires var own := RowOf(s, s.workers[w].request.clientOrderId);
             Fits(s.workers[w], own) && IsSound(w, s.workers[w], own, f)
    ensures Inv(Perform(s, w, f), c)
  {
    var t := Perform(s, w, f);
    assert SameWorkers(s, t, c);
    assert |f.entries| <= 1 && (f.entries != [] ==> f.entries == [f.entries[0]]);
    assert NothingNew(s.history, t.history, c);
    SameViewKeeps(s, t, c);
  }

  /** Somebody else's locked mutator on the row of this id. */
  lemma RowMutationKeeps(s: State, op: Op, c: ClientId)
    requires Inv(s, c) && c in s.rows
    ensures Inv(s.(rows := s.rows[c := Commit(s.rows[c], op)]), c)
  {
    CommitKeeps(s.rows[c], op);
    var t := s.(rows := s.rows[c := Commit(s.rows[c], op)]);
    assert forall v :: Works(t, v, c) <==> Works(s, v, c);
    assert forall v :: Owns(t, v, c) <==> Owns(s, v, c);
    forall v | Owns(t, v, c)
      ensures PcAgrees(t.rows[c], t.workers[v].pc, c)
    {
      assert PcAgrees(s.rows[c], s.workers[v].pc, c);
    }
  }

  /** A new task owns nothing and has read nothing. */
  lemma NewTaskKeeps(s: State, t: State, w: nat, q: Request, c: ClientId)
    requires Inv(s, c) && w !in s.workers && t == s.(workers := s.workers[w := Task(q, Looking)])
    ensures Inv(t, c)
  {
    assert forall v :: Owns(t, v, c) ==> Owns(s, v, c) && t.workers[v] == s.workers[v];
    assert OwnersAgree(t, c);
    assert ReadersAgree(t, c) by {
      assert forall v :: Works(t, v, c) && v != w ==> Works(s, v, c) && t.workers[v] == s.workers[v];
    }
  }

  lemma PerformKeeps(s: State, e: Event, c: ClientId)
    requires !e.Others? && e.worker in s.workers
    requires Inv(s, c) && Inv(s, s.workers[e.worker].request.clientOrderId)
    ensures Inv(Perform(s, e.worker, EffectOf(s, e.worker, e)), c)
  {
    var w := e.worker;
    var task := s.workers[w];
    var own := task.request.clientOrderId;
    WorkerFits(s, w, own);
    ActIsSound(w, task, RowOf(s, own), InForce(s, task.request.symbol), e);
    if own == c {
      PerformKeepsOwn(s, w, EffectOf(s, w, e), c);
    } else {
      PerformKeepsOthers(s, w, EffectOf(s, w, e), c);
    }
  }

  lemma EventKeeps(s: State, e: Event, c: ClientId)
    requires forall d :: Inv(s, d)
    ensures Inv(Next(s, e), c)
  {
    assert Inv(s, c);
    if e.Start? {
      if e.worker !in s.workers {
        NewTaskKeeps(s, Next(s, e), e.worker, e.request, c);
      }
    } else if e.Others? {
      if e.clientOrderId == c {
        if c in s.rows {
          RowMutationKeeps(s, e.op, c);
        }
      } else {
        SameViewKeeps(s, Next(s, e), c);
      }
    } else if e.worker in s.workers {
      PerformKeeps(s, e, c);
    }
  }

  lemma {:induction false} RunKeeps(s: State, events: seq<Event>)
    requires forall d :: Inv(s, d)
    ensures forall d :: Inv(Run(s, events), d)
    decreases |events|
  {
    if events != [] {
      forall d
        ensures Inv(Next(s, events[0]), d)
      {
        EventKeeps(s, events[0], d);
      }
      RunKeeps(Next(s, events[0]), events[1..]);
    }
  }

  /** The state any run reaches. */
  function Reached(events: seq<Event>): State {
    Run(START, events)
  }

  lemma ReachedInv(events: seq<Event>)
    ensures forall d :: Inv(Reached(events), d)
  {
    RunKeeps(START, events);
  }
}
