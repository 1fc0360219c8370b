/** What the sweep and the recovery guarantee, together and apart. */
module SweepTheorems {
  import opened Common
  import opened Orders
  import opened Lifecycle
  import opened OrderStore
  import opened StoreTheorems
  import opened Sweep

  // ------------------------------------------------------------------
  // What one call does to the tables
  // ------------------------------------------------------------------

  /** Every row is filed under its own id. */
  predicate Keyed(t: Tables) {
    forall id <- t.orders :: t.orders[id].orderId == id
  }

  predicate AllStamped(t: Tables) {
    forall id <- t.orders :: Stamped(t.orders[id])
  }

  /** The constraint on venue order ids. */
  predicate OneVenueIdEach(t: Tables) {
    forall a <- t.orders, b <- t.orders ::
      t.orders[a].venueOrderId.Some? && t.orders[a].venueOrderId == t.orders[b].venueOrderId ==> a == b
  }

  predicate Sane(t: Tables) {
    Consistent(t) && AllStamped(t) && OneVenueIdEach(t)
  }

  /** The rows of this order are what they were. */
  predicate SameRow(t: Tables, u: Tables, id: OrderId) {
    && (id in t.orders <==> id in u.orders) && (id in t.orders ==> t.orders[id] == u.orders[id])
    && StoredFills(t, id) == StoredFills(u, id) && StoredDiscrepancies(t, id) == StoredDiscrepancies(u, id)
  }

  lemma StoredIsItsOwn(t: Tables, id: OrderId, op: Op)
    requires Keyed(t) && Stores(t, id, op).Some?
    ensures Stores(t, id, op).value.orderId == id
  {
    WrittenFills(Hydrate(t, id).value, op);
  }

  /** A call concerns one order. */
  lemma CallLeavesOthers(t: Tables, id: OrderId, op: Op, other: OrderId)
    requires Keyed(t)
    ensures Keyed(Call(t, id, op)) && (other != id ==> SameRow(t, Call(t, id, op), other))
  {
    if Stores(t, id, op).Some? {
      StoredIsItsOwn(t, id, op);
    }
  }

  /** A reconcile keeps the stamps whatever the venue said. */
  lemma AnyAnswerKeepsStamps(r: OrderRecord, op: Op)
    requires Stamped(r) && (WellFormedOp(op) || op.Reconcile?)
    ensures Stamped(Commit(r, op))
  {
    if op.Reconcile? {
      if Step(r, op).Ok? {
        ReconcileKeepsStamps(r, Decide(r, op.answer), op.now);
      }
    } else {
      StampsAfterOne(r, op);
    }
  }

  lemma StoredIsStampedAndSent(t: Tables, id: OrderId, op: Op)
    requires Stores(t, id, op).Some? && Stamped(t.orders[id]) && (WellFormedOp(op) || op.Reconcile?)
    ensures Stamped(Columns(Stores(t, id, op).value))
    ensures t.orders[id].ReachedVenue() ==> Stores(t, id, op).value.ReachedVenue()
  {
    var r := Hydrate(t, id).value;
    AnyAnswerKeepsStamps(r, op);
    IdentityAfterOne(r, op);
  }

  predicate StaysSent(t: Tables, u: Tables) {
    && t.orders.Keys <= u.orders.Keys
    && (forall id <- t.orders :: t.orders[id].ReachedVenue() ==> u.orders[id].ReachedVenue())
  }

  lemma WritingKeepsStamps(t: Tables, w: OrderRecord)
    requires AllStamped(t) && Stamped(Columns(w))
    ensures AllStamped(Written(t, w))
  {
  }

  lemma WritingKeepsVenueIds(t: Tables, w: OrderRecord)
    requires OneVenueIdEach(t) && !VenueIdTaken(t, w)
    ensures OneVenueIdEach(Written(t, w))
  {
  }

  lemma WritingKeepsSane(t: Tables, w: OrderRecord)
    requires Sane(t) && WriteError(t, w).None? && Stamped(Columns(w))
    requires w.orderId in t.orders && t.orders[w.orderId].ReachedVenue() ==> w.ReachedVenue()
    ensures Sane(Written(t, w)) && StaysSent(t, Written(t, w))
  {
    WrittenIsConsistent(t, w);
    WritingKeepsStamps(t, w);
    WritingKeepsVenueIds(t, w);
    WritingStaysSent(t, w);
  }

  lemma WritingStaysSent(t: Tables, w: OrderRecord)
    requires w.orderId in t.orders && t.orders[w.orderId].ReachedVenue() ==> w.ReachedVenue()
    ensures StaysSent(t, Written(t, w))
  {
  }

  /** What a call that completes stores. */
  lemma StoredFacts(t: Tables, id: OrderId, op: Op)
    requires Keyed(t) && Stores(t, id, op).Some? && Stamped(t.orders[id]) && (WellFormedOp(op) || op.Reconcile?)
    ensures var w := Stores(t, id, op).value;
            && w.orderId == id && WriteError(t, w).None? && Stamped(Columns(w)) && Call(t, id, op) == Written(t, w)
            && (t.orders[id].ReachedVenue() ==> w.ReachedVenue())
  {
    StoredIsItsOwn(t, id, op);
    StoredIsStampedAndSent(t, id, op);
  }

  lemma CallKeepsSane(t: Tables, id: OrderId, op: Op)
    requires Sane(t) && (WellFormedOp(op) || op.Reconcile?)
    ensures Sane(Call(t, id, op)) && StaysSent(t, Call(t, id, op))
  {
    if Stores(t, id, op).Some? {
      assert Keyed(t);
      StoredFacts(t, id, op);
      WritingKeepsSane(t, Stores(t, id, op).value);
    }
  }

  /** What others write is well formed; `submit` writes records that are not stamped as sent. */
  predicate WellFormedCommit(c: Committed) {
    match c
    case Mutates(_, op) => WellFormedOp(op)
    case Submits(record) => Stamped(Columns(record)) && !record.ReachedVenue()
  }

  predicate WellFormedCommits(commits: Commits) {
    forall i :: 0 <= i < |commits| ==> WellFormedCommit(commits[i])
  }

  lemma PutWrites(t: Tables, r: OrderRecord)
    ensures Put(t, r) == if WriteError(t, r).None? then Written(t, r) else t
  {
  }

  lemma CommitKeepsSane(t: Tables, c: Committed)
    requires Sane(t) && WellFormedCommit(c)
    ensures Sane(AfterCommit(t, c)) && StaysSent(t, AfterCommit(t, c))
  {
    match c
    case Mutates(id, op) => CallKeepsSane(t, id, op);
    case Submits(record) =>
      PutWrites(t, record);
      if WriteError(t, record).None? && !(record.orderId in t.orders && t.orders[record.orderId].ReachedVenue()) {
        WritingKeepsSane(t, record);
      }
  }

  lemma {:induction false} CommitsKeepSane(t: Tables, commits: Commits)
    requires Sane(t) && WellFormedCommits(commits)
    ensures Sane(AllCommitted(t, commits)) && StaysSent(t, AllCommitted(t, commits))
    decreases |commits|
  {
    if commits != [] {
      CommitKeepsSane(t, commits[0]);
      CommitsKeepSane(AfterCommit(t, commits[0]), commits[1..]);
    }
  }

  predicate NoneOn(commits: Commits, id: OrderId) {
    forall i :: 0 <= i < |commits| ==> commits[i].Target() != id
  }

  lemma CommitLeavesOthers(t: Tables, c: Committed, other: OrderId)
    requires Keyed(t)
    ensures Keyed(AfterCommit(t, c)) && (other != c.Target() ==> SameRow(t, AfterCommit(t, c), other))
  {
    match c
    case Mutates(id, op) => CallLeavesOthers(t, id, op, other);
    case Submits(record) =>
      PutWrites(t, record);
      WritingLeavesOthers(t, record, other);
  }

  lemma WritingLeavesOthers(t: Tables, w: OrderRecord, other: OrderId)
    requires Keyed(t)
    ensures Keyed(Written(t, w)) && (other != w.orderId ==> SameRow(t, Written(t, w), other))
  {
  }

  lemma {:induction false} CommitsLeaveOthers(t: Tables, commits: Commits, id: OrderId)
    requires Keyed(t)
    ensures Keyed(AllCommitted(t, commits)) && (NoneOn(commits, id) ==> SameRow(t, AllCommitted(t, commits), id))
    decreases |commits|
  {
    if commits != [] {
      CommitLeavesOthers(t, commits[0], id);
      CommitsLeaveOthers(AfterCommit(t, commits[0]), commits[1..], id);
    }
  }

  // ------------------------------------------------------------------
  // When a turn raises
  // ------------------------------------------------------------------

  /** The venue states no transition leads to from here, although reconciliation may conclude them. */
  function Unadoptable(s: OrderState): set<OrderState> {
    match s
    case Accepted => {Rejected}
    case PartiallyFilled => {Accepted, Rejected}
    case CancelRequested => {Accepted, Rejected}
    case Unknown => {Accepted, PartiallyFilled, Filled, Cancelled, Rejected, Expired}
    case _ => {}
  }

  /** The answer breaks this order's reconcile: it is adopted in principle and illegal in fact. */
  predicate Breaks(r: OrderRecord, a: Answer) {
    match a
    case Unreachable => false
    case Absent => IsTerminal(r.state)
    case Found(view) =>
      && r.filledQuantity <= view.filledQuantity <= r.quantity
      && view.state in Unadoptable(r.state)
  }

  lemma ReconcileRaisesIff(r: OrderRecord, a: Answer, now: Time)
    requires Stamped(r) && r.ReachedVenue()
    ensures Step(r, Reconcile(a, now)).Err? <==> Breaks(r, a)
  {
  }

  /** The answer is adopted under a venue order id that another row carries. */
  predicate Clashes(t: Tables, r: OrderRecord, a: Answer) {
    && a.Found? && Decide(r, a).AdoptVenueState? && a.view.state != r.state && a.view.venueOrderId.Some?
    && exists other <- t.orders :: other != r.orderId && t.orders[other].venueOrderId == a.view.venueOrderId
  }

  /** The row does not load, the answer cannot be applied to it, or what it comes to cannot be written. */
  predicate IsStuck(t: Tables, id: OrderId, a: Answer) {
    var r := RecordAt(t, id);
    r.None? || Breaks(r.value, a) || Clashes(t, r.value, a)
  }

  /** Rewriting the fills that were loaded leaves them as they are stored. */
  lemma SameFillsAreKept(stored: seq<OrderFill>)
    ensures SyncFills(stored, SortFills(stored)) == stored
  {
    var sorted := SortFills(stored);
    SortKeepsIds(stored);
    var ids := Ids(stored);
    assert Ids(sorted) == ids;
    PickEverything(stored, ids);
    PickEverything(sorted, ids);
    assert stored + [] == stored;
  }

  lemma NoFillsAreKept(stored: seq<OrderFill>)
    ensures SyncFills(stored, []) == []
  {
    PickNothing(stored);
    assert Ids([]) == {};
  }

  lemma ReconciledVenueId(r: OrderRecord, a: Answer, now: Time)
    requires Step(r, Reconcile(a, now)).Ok?
    ensures var w := Step(r, Reconcile(a, now)).value;
            w.venueOrderId == if Decide(r, a).AdoptVenueState? && a.view.state != r.state && a.view.venueOrderId.Some?
                              then a.view.venueOrderId else r.venueOrderId
  {
  }

  lemma ReconciledCanBeWrittenIff(t: Tables, id: OrderId, a: Answer, now: Time)
    requires Consistent(t) && OneVenueIdEach(t) && id in t.orders && Hydrate(t, id).Some?
    requires Step(Hydrate(t, id).value, Reconcile(a, now)).Ok?
    ensures var r := Hydrate(t, id).value;
            WriteError(t, Step(r, Reconcile(a, now)).value).Some? <==> Clashes(t, r, a)
  {
    var r := Hydrate(t, id).value;
    var w := Step(r, Reconcile(a, now)).value;
    WrittenFills(r, Reconcile(a, now));
    ReconciledVenueId(r, a, now);
    SameFillsAreKept(t.fills[id]);
    NoFillsAreKept(t.fills[id]);
    assert r.orderId == id && r.clientOrderId == t.orders[id].clientOrderId && r.venueOrderId == t.orders[id].venueOrderId;
    assert !ClientIdTaken(t, w);
    assert Distinct(SyncFills(t.fills[id], w.fills));
  }

  /** A turn raises exactly when its row is stuck. */
  lemma TurnRaisesIff(t: Tables, id: OrderId, a: Answer, now: Time)
    requires Sane(t) && id in t.orders && t.orders[id].ReachedVenue()
    ensures TakeTurn(t, id, a, now).Raises? <==> IsStuck(t, id, a)
  {
    if Hydrate(t, id).Some? {
      var r := Hydrate(t, id).value;
      ReconcileRaisesIff(r, a, now);
      if Step(r, Reconcile(a, now)).Ok? {
        ReconciledCanBeWrittenIff(t, id, a, now);
      }
    }
  }

  // ------------------------------------------------------------------
  // The turns of a sweep
  // ------------------------------------------------------------------

  predicate WellFormedMeanwhile(meanwhile: seq<Commits>) {
    forall k :: 0 <= k < |meanwhile| ==> WellFormedCommits(meanwhile[k])
  }

  /** The tables as the turn of order `k` finds them. */
  function FoundAt(t: Tables, w: Sweeping, k: nat): Tables {
    AllCommitted(Settle(t, k, Turns(w)).0, Meanwhile(w.meanwhile, k))
  }

  lemma FoundStaysSane(t: Tables, w: Sweeping, k: nat)
    requires Sane(t) && WellFormedMeanwhile(w.meanwhile)
    ensures var found := AllCommitted(t, Meanwhile(w.meanwhile, k)); Sane(found) && StaysSent(t, found)
  {
    CommitsKeepSane(t, Meanwhile(w.meanwhile, k));
  }

  lemma TurnIsIdle(w: Sweeping, k: nat, t: Tables)
    requires k >= |w.ids|
    ensures var found := AllCommitted(t, Meanwhile(w.meanwhile, k)); Turns(w)(k, t) == Completes(found, found, false)
  {
  }

  lemma TurnStaysSane(t: Tables, w: Sweeping, k: nat)
    requires Sane(t) && WellFormedMeanwhile(w.meanwhile)
    ensures var turn := Turns(w)(k, t);
            && Sane(turn.found) && StaysSent(t, turn.found)
            && (turn.Completes? ==> Sane(turn.after) && StaysSent(t, turn.after))
  {
    FoundStaysSane(t, w, k);
    var found := AllCommitted(t, Meanwhile(w.meanwhile, k));
    if k < |w.ids| {
      var turn := TakeTurn(found, w.ids[k], Ask(w.answers, w.ids[k]), w.now);
      TurnIsTaken(w, k, t);
      TakenTurnStaysSane(found, w.ids[k], Ask(w.answers, w.ids[k]), w.now);
      if turn.Completes? {
        StaysSentTwice(t, found, turn.after);
      }
    } else {
      TurnIsIdle(w, k, t);
    }
  }

  lemma TakenTurnStaysSane(t: Tables, id: OrderId, a: Answer, now: Time)
    requires Sane(t)
    ensures var turn := TakeTurn(t, id, a, now);
            turn.found == t && (turn.Completes? ==> Sane(turn.after) && StaysSent(t, turn.after))
  {
    CallKeepsSane(t, id, Reconcile(a, now));
  }

  /** As sane as before, with every sent order still sent. */
  predicate Good(t: Tables, u: Tables) {
    Sane(u) && StaysSent(t, u)
  }

  lemma TurnStaysGood(t: Tables, before: Tables, w: Sweeping, k: nat)
    requires Good(t, before) && WellFormedMeanwhile(w.meanwhile)
    ensures Good(t, AfterTurn(Turns(w)(k, before)))
  {
    TurnStaysSane(before, w, k);
    StaysSentTwice(t, before, AfterTurn(Turns(w)(k, before)));
  }

  lemma StaysSentTwice(t: Tables, u: Tables, v: Tables)
    requires StaysSent(t, u) && StaysSent(u, v)
    ensures StaysSent(t, v)
  {
  }

  /** What each turn keeps, the turns keep. */
  lemma {:induction false} SettleKeeps(t: Tables, n: nat, turn: (nat, Tables) -> Turn, p: Tables -> bool)
    requires p(t) && forall k: nat, u :: k < n && p(u) ==> p(AfterTurn(turn(k, u)))
    ensures p(Settle(t, n, turn).0)
  {
    if n > 0 {
      SettleKeeps(t, n - 1, turn, p);
      SettleNext(t, n - 1, turn);
    }
  }

  lemma SettleStaysSane(t: Tables, w: Sweeping, n: nat)
    requires Sane(t) && WellFormedMeanwhile(w.meanwhile)
    ensures Sane(Settle(t, n, Turns(w)).0) && StaysSent(t, Settle(t, n, Turns(w)).0)
  {
    var p := (u: Tables) => Good(t, u);
    forall k: nat, u | k < n && p(u)
      ensures p(AfterTurn(Turns(w)(k, u)))
    {
      TurnStaysGood(t, u, w, k);
    }
    SettleKeeps(t, n, Turns(w), p);
  }

  lemma {:induction false} SettleRaisesIff(t: Tables, n: nat, turn: (nat, Tables) -> Turn)
    ensures Settle(t, n, turn).1.Err?
            <==> exists k: nat :: k < n && Settle(t, k, turn).1.Ok? && turn(k, Settle(t, k, turn).0).Raises?
  {
    if n > 0 {
      SettleRaisesIff(t, n - 1, turn);
    }
  }

  /** The turn of order `k` is reached, and raises. */
  predicate RaisesAt(t: Tables, w: Sweeping, k: nat)
    requires k < |w.ids|
  {
    Settle(t, k, Turns(w)).1.Ok? && IsStuck(FoundAt(t, w, k), w.ids[k], Ask(w.answers, w.ids[k]))
  }

  lemma TurnOfOrder(t: Tables, w: Sweeping, k: nat)
    requires Sane(t) && WellFormedMeanwhile(w.meanwhile) && k < |w.ids|
    requires w.ids[k] in t.orders && t.orders[w.ids[k]].ReachedVenue()
    ensures Turns(w)(k, Settle(t, k, Turns(w)).0).Raises?
            <==> IsStuck(FoundAt(t, w, k), w.ids[k], Ask(w.answers, w.ids[k]))
  {
    SettleStaysSane(t, w, k);
    FoundStaysSane(Settle(t, k, Turns(w)).0, w, k);
    TurnRaisesIff(FoundAt(t, w, k), w.ids[k], Ask(w.answers, w.ids[k]), w.now);
  }

  /**
    The whole sweep raises exactly when it is not held back as a reset and it reaches an order
    that is stuck by the time its turn comes: its row no longer loads, the answer breaks it, or
    the venue's id for it is taken.
   */
  lemma SweepRaisesIff(t: Tables, created: seq<OrderId>, answers: map<OrderId, Answer>, meanwhile: seq<Commits>, now: Time)
    requires Sane(t) && WellFormedMeanwhile(meanwhile)
    ensures var ids := Candidates(t, created);
            var w := Sweeping(ids, answers, meanwhile, now);
            Swept(t, created, answers, meanwhile, now).1.Err?
            <==> !ResetSuspected(ids, answers) && exists k :: 0 <= k < |ids| && RaisesAt(t, w, k)
  {
    var ids := Candidates(t, created);
    CandidatesAreSent(t, created);
    SettlingRaisesIff(t, Sweeping(ids, answers, meanwhile, now));
  }

  predicate AllSent(t: Tables, ids: seq<OrderId>) {
    forall id <- ids :: id in t.orders && t.orders[id].ReachedVenue()
  }

  lemma CandidatesAreSent(t: Tables, created: seq<OrderId>)
    ensures AllSent(t, Candidates(t, created))
  {
    forall id <- Candidates(t, created)
      ensures id in t.orders && t.orders[id].ReachedVenue()
    {
      assert IsCandidate(t, id);
    }
  }

  lemma RaisesAtIff(t: Tables, w: Sweeping, k: nat)
    requires Sane(t) && WellFormedMeanwhile(w.meanwhile) && AllSent(t, w.ids) && k < |w.ids|
    ensures RaisesAt(t, w, k)
            <==> Settle(t, k, Turns(w)).1.Ok? && Turns(w)(k, Settle(t, k, Turns(w)).0).Raises?
  {
    assert w.ids[k] in w.ids;
    TurnOfOrder(t, w, k);
  }

  lemma SettlingRaisesIff(t: Tables, w: Sweeping)
    requires Sane(t) && WellFormedMeanwhile(w.meanwhile) && AllSent(t, w.ids)
    ensures Settle(t, |w.ids|, Turns(w)).1.Err? <==> exists k :: 0 <= k < |w.ids| && RaisesAt(t, w, k)
  {
    var turn := Turns(w);
    SettleRaisesIff(t, |w.ids|, turn);
    if Settle(t, |w.ids|, turn).1.Err? {
      var k: nat :| k < |w.ids| && Settle(t, k, turn).1.Ok? && turn(k, Settle(t, k, turn).0).Raises?;
      RaisesAtIff(t, w, k);
    } else if k :| 0 <= k < |w.ids| && RaisesAt(t, w, k) {
      RaisesAtIff(t, w, k);
    }
  }

  // ------------------------------------------------------------------
  // No order is settled by what the venue lacks
  // ------------------------------------------------------------------

  lemma OnlyAVenueAnswerSettles(r: OrderRecord, a: Answer, now: Time)
    requires r.ReachedVenue() && !IsTerminal(r.state)
    requires var o := Step(r, Reconcile(a, now)); o.Ok? && IsTerminal(o.value.state)
    ensures a.Found? && a.view.state == Commit(r, Reconcile(a, now)).state
            && a.view.filledQuantity == Commit(r, Reconcile(a, now)).filledQuantity
  {
  }

  /** The venue described the order as it now stands in its row. */
  predicate VenueSaid(a: Answer, row: OrderRecord) {
    a.Found? && a.view.state == row.state && a.view.filledQuantity == row.filledQuantity
  }

  lemma TurnSettlesOnlyOnAnAnswer(t: Tables, id: OrderId, a: Answer, now: Time)
    requires Keyed(t) && id in t.orders && t.orders[id].ReachedVenue() && TakeTurn(t, id, a, now).Completes?
    ensures var after := TakeTurn(t, id, a, now).after;
            && id in after.orders
            && (IsTerminal(after.orders[id].state) && !IsTerminal(t.orders[id].state) ==> VenueSaid(a, after.orders[id]))
  {
    var r := Hydrate(t, id).value;
    StoredIsItsOwn(t, id, Reconcile(a, now));
    if IsTerminal(Step(r, Reconcile(a, now)).value.state) && !IsTerminal(r.state) {
      OnlyAVenueAnswerSettles(r, a, now);
    }
  }

  lemma TurnLeavesOthers(t: Tables, w: Sweeping, k: nat, id: OrderId)
    requires Keyed(t)
    ensures var turn := Turns(w)(k, t);
            && Keyed(turn.found) && (NoneOn(Meanwhile(w.meanwhile, k), id) ==> SameRow(t, turn.found, id))
            && (turn.Completes? ==>
                  && Keyed(turn.after)
                  && (NoneOn(Meanwhile(w.meanwhile, k), id) && (k < |w.ids| ==> w.ids[k] != id) ==>
                        SameRow(t, turn.after, id)))
  {
    CommitsLeaveOthers(t, Meanwhile(w.meanwhile, k), id);
    var found := AllCommitted(t, Meanwhile(w.meanwhile, k));
    if k < |w.ids| {
      CallLeavesOthers(found, w.ids[k], Reconcile(Ask(w.answers, w.ids[k]), w.now), id);
    }
  }

  /** These turns are of other orders, and nobody touches this one between them. */
  predicate TurnsPass(w: Sweeping, from: nat, n: nat, id: OrderId) {
    forall k :: from <= k < n ==> (k < |w.ids| ==> w.ids[k] != id) && NoneOn(Meanwhile(w.meanwhile, k), id)
  }

  lemma TurnStaysKeyed(t: Tables, w: Sweeping, k: nat)
    requires Keyed(t)
    ensures Keyed(AfterTurn(Turns(w)(k, t)))
  {
    TurnLeavesOthers(t, w, k, OrderId(""));
  }

  lemma SettleIsKeyed(t: Tables, w: Sweeping, n: nat)
    requires Keyed(t)
    ensures Keyed(Settle(t, n, Turns(w)).0)
  {
    var p := (u: Tables) => Keyed(u);
    forall k: nat, u | k < n && p(u)
      ensures p(AfterTurn(Turns(w)(k, u)))
    {
      TurnStaysKeyed(u, w, k);
    }
    SettleKeeps(t, n, Turns(w), p);
  }

  /** The tables a turn leaves. */
  function AfterTurn(turn: Turn): Tables {
    match turn
    case Raises(found, _) => found
    case Completes(_, after, _) => after
  }

  lemma SettleNext(t: Tables, k: nat, turn: (nat, Tables) -> Turn)
    ensures Settle(t, k + 1, turn).0
            == if Settle(t, k, turn).1.Ok? then AfterTurn(turn(k, Settle(t, k, turn).0)) else Settle(t, k, turn).0
  {
  }

  lemma {:induction false} TurnsLeave(t: Tables, k: nat, n: nat, turn: (nat, Tables) -> Turn, id: OrderId)
    requires k <= n
    requires forall j: nat :: k <= j < n ==>
               SameRow(Settle(t, j, turn).0, AfterTurn(turn(j, Settle(t, j, turn).0)), id)
    ensures SameRow(Settle(t, k, turn).0, Settle(t, n, turn).0, id)
    decreases n
  {
    if k < n {
      TurnsLeave(t, k, n - 1, turn, id);
      SettleNext(t, n - 1, turn);
    }
  }

  lemma PassingTurnLeaves(t: Tables, w: Sweeping, k: nat, n: nat, j: nat, id: OrderId)
    requires Keyed(t) && k <= j < n && TurnsPass(w, k, n, id)
    ensures var before := Settle(t, j, Turns(w)).0; SameRow(before, AfterTurn(Turns(w)(j, before)), id)
  {
    SettleIsKeyed(t, w, j);
    TurnLeavesOthers(Settle(t, j, Turns(w)).0, w, j, id);
  }

  lemma LaterTurnsLeave(t: Tables, w: Sweeping, k: nat, n: nat, id: OrderId)
    requires Keyed(t) && k <= n && TurnsPass(w, k, n, id)
    ensures SameRow(Settle(t, k, Turns(w)).0, Settle(t, n, Turns(w)).0, id)
  {
    forall j: nat | k <= j < n
      ensures SameRow(Settle(t, j, Turns(w)).0, AfterTurn(Turns(w)(j, Settle(t, j, Turns(w)).0)), id)
    {
      PassingTurnLeaves(t, w, k, n, j, id);
    }
    TurnsLeave(t, k, n, Turns(w), id);
  }

  /** What a turn made of this order, and why. */
  predicate SettledByTheVenue(found: Tables, after: Tables, id: OrderId, a: Answer) {
    && id in found.orders && id in after.orders
    && (IsTerminal(after.orders[id].state) && !IsTerminal(found.orders[id].state) ==> VenueSaid(a, after.orders[id]))
  }

  lemma TakenTurnSettles(found: Tables, id: OrderId, a: Answer, now: Time)
    requires Keyed(found) && id in found.orders && found.orders[id].ReachedVenue()
    ensures SettledByTheVenue(found, AfterTurn(TakeTurn(found, id, a, now)), id, a)
  {
    if TakeTurn(found, id, a, now).Completes? {
      TurnSettlesOnlyOnAnAnswer(found, id, a, now);
    }
  }

  lemma TurnIsTaken(w: Sweeping, k: nat, t: Tables)
    requires k < |w.ids|
    ensures Turns(w)(k, t) == TakeTurn(AllCommitted(t, Meanwhile(w.meanwhile, k)), w.ids[k], Ask(w.answers, w.ids[k]), w.now)
  {
  }

  lemma FoundIsKeyedAndSent(t: Tables, w: Sweeping, k: nat, id: OrderId)
    requires Sane(t) && WellFormedMeanwhile(w.meanwhile) && id in t.orders && t.orders[id].ReachedVenue()
    ensures var found := FoundAt(t, w, k); Keyed(found) && id in found.orders && found.orders[id].ReachedVenue()
  {
    SettleStaysSane(t, w, k);
    FoundStaysSane(Settle(t, k, Turns(w)).0, w, k);
  }

  /** The order's turn, in the sweep that reaches it. */
  lemma AtItsTurn(t: Tables, w: Sweeping, k: nat)
    requires Sane(t) && WellFormedMeanwhile(w.meanwhile) && k < |w.ids| && AllSent(t, w.ids)
    requires Settle(t, k, Turns(w)).1.Ok?
    ensures SettledByTheVenue(FoundAt(t, w, k), Settle(t, k + 1, Turns(w)).0, w.ids[k], Ask(w.answers, w.ids[k]))
  {
    assert w.ids[k] in w.ids;
    FoundIsKeyedAndSent(t, w, k, w.ids[k]);
    TakenTurnSettles(FoundAt(t, w, k), w.ids[k], Ask(w.answers, w.ids[k]), w.now);
    TurnIsTaken(w, k, Settle(t, k, Turns(w)).0);
    SettleNext(t, k, Turns(w));
  }

  lemma SettledAtTheEnd(found: Tables, next: Tables, last: Tables, id: OrderId, a: Answer)
    requires SettledByTheVenue(found, next, id, a) && SameRow(next, last, id)
    ensures SettledByTheVenue(found, last, id, a)
  {
  }

  /** And its row at the end. */
  lemma SettlesOnlyOnAnAnswer(t: Tables, w: Sweeping, k: nat)
    requires Sane(t) && WellFormedMeanwhile(w.meanwhile) && k < |w.ids| && AllSent(t, w.ids)
    requires Settle(t, k, Turns(w)).1.Ok? && TurnsPass(w, k + 1, |w.ids|, w.ids[k])
    ensures SettledByTheVenue(FoundAt(t, w, k), Settle(t, |w.ids|, Turns(w)).0, w.ids[k], Ask(w.answers, w.ids[k]))
  {
    var id := w.ids[k];
    AtItsTurn(t, w, k);
    assert Keyed(t);
    LaterTurnsLeave(t, w, k + 1, |w.ids|, id);
    SettledAtTheEnd(FoundAt(t, w, k), Settle(t, k + 1, Turns(w)).0, Settle(t, |w.ids|, Turns(w)).0, id, Ask(w.answers, id));
  }

  /** The sweep of these rows is not held back as a reset, reaches order `k`, and others leave that order alone afterwards. */
  predicate ReachesForGood(t: Tables, w: Sweeping, k: nat) {
    && !ResetSuspected(w.ids, w.answers) && k < |w.ids| && Settle(t, k, Turns(w)).1.Ok?
    && (forall j :: k < j < |w.ids| ==> NoneOn(Meanwhile(w.meanwhile, j), w.ids[k]))
  }

  /**
    Whether the sweep finishes or raises: an order whose turn it reached, and which nobody
    touched afterwards, ends terminal only if it was when its turn came, or the venue itself
    reported that state and that quantity.
   */
  lemma SweepSettlesOnlyOnAnAnswer(t: Tables, created: seq<OrderId>, w: Sweeping, k: nat)
    requires Sane(t) && WellFormedMeanwhile(w.meanwhile) && OneRowEach(created)
    requires w.ids == Candidates(t, created) && ReachesForGood(t, w, k)
    ensures SettledByTheVenue(FoundAt(t, w, k), Swept(t, created, w.answers, w.meanwhile, w.now).0,
                              w.ids[k], Ask(w.answers, w.ids[k]))
  {
    CandidatesAreSent(t, created);
    assert TurnsPass(w, k + 1, |w.ids|, w.ids[k]);
    SettlesOnlyOnAnAnswer(t, w, k);
  }

  // ------------------------------------------------------------------
  // A suspected reset
  // ------------------------------------------------------------------

  /** The same orders and the same fills; the evidence may differ. */
  predicate SameOrders(t: Tables, u: Tables) {
    t.orders == u.orders && t.fills == u.fills
  }

  /** The same outcome, but for the evidence. */
  predicate SameOutcome(a: Outcome, b: Outcome) {
    && (a.Ok? <==> b.Ok?) && (a.Ok? ==> b.value == a.value.(discrepancies := b.value.discrepancies))
  }

  lemma DecisionsIgnoreEvidence(r: OrderRecord, s: OrderRecord, d: Decision, now: Time)
    requires s == r.(discrepancies := s.discrepancies)
    ensures SameOutcome(ApplyDecision(r, d, now), ApplyDecision(s, d, now))
  {
  }

  lemma FillsIgnoreEvidence(r: OrderRecord, s: OrderRecord, fill: OrderFill, now: Time)
    requires s == r.(discrepancies := s.discrepancies)
    ensures SameOutcome(FillRecord(r, fill, now), FillRecord(s, fill, now))
  {
  }

  lemma ManualIgnoresEvidence(r: OrderRecord, s: OrderRecord, target: OrderState, operator: Label, now: Time)
    requires s == r.(discrepancies := s.discrepancies)
    ensures SameOutcome(ResolveByHand(r, target, operator, now), ResolveByHand(s, target, operator, now))
  {
  }

  lemma MovesIgnoreEvidence(r: OrderRecord, s: OrderRecord, op: Op)
    requires s == r.(discrepancies := s.discrepancies)
    requires !op.Reconcile? && !op.ApplyFill? && !op.ResolveManually?
    ensures SameOutcome(Step(r, op), Step(s, op))
  {
  }

  /** A mutator decides without looking at the evidence, and writes it on. */
  lemma StepIgnoresEvidence(r: OrderRecord, s: OrderRecord, op: Op)
    requires s == r.(discrepancies := s.discrepancies)
    ensures SameOutcome(Step(r, op), Step(s, op))
  {
    if op.Reconcile? {
      assert Decide(r, op.answer) == Decide(s, op.answer);
      DecisionsIgnoreEvidence(r, s, Decide(r, op.answer), op.now);
    } else if op.ApplyFill? {
      FillsIgnoreEvidence(r, s, op.fill, op.now);
    } else if op.ResolveManually? {
      ManualIgnoresEvidence(r, s, op.target, op.operator, op.now);
    } else {
      MovesIgnoreEvidence(r, s, op);
    }
  }

  lemma HydrateIgnoresEvidence(t: Tables, u: Tables, id: OrderId)
    requires SameOrders(t, u) && id in t.orders
    ensures Hydrate(t, id).Some? <==> Hydrate(u, id).Some?
    ensures Hydrate(t, id).Some? ==>
              Hydrate(u, id).value == Hydrate(t, id).value.(discrepancies := Hydrate(u, id).value.discrepancies)
  {
  }

  lemma CallIgnoresEvidence(t: Tables, u: Tables, id: OrderId, op: Op)
    requires SameOrders(t, u)
    ensures SameOrders(Call(t, id, op), Call(u, id, op))
  {
    if id in t.orders {
      HydrateIgnoresEvidence(t, u, id);
      if Hydrate(t, id).Some? {
        var r, s := Hydrate(t, id).value, Hydrate(u, id).value;
        StepIgnoresEvidence(r, s, op);
        if Step(r, op).Ok? {
          WritingIgnoresEvidence(t, u, Step(r, op).value, Step(s, op).value);
        }
      }
    }
  }

  lemma WritingIgnoresEvidence(t: Tables, u: Tables, w: OrderRecord, x: OrderRecord)
    requires SameOrders(t, u) && x == w.(discrepancies := x.discrepancies)
    ensures WriteError(t, w) == WriteError(u, x) && SameOrders(Written(t, w), Written(u, x))
  {
  }

  lemma CommitIgnoresEvidence(t: Tables, u: Tables, c: Committed)
    requires SameOrders(t, u)
    ensures SameOrders(AfterCommit(t, c), AfterCommit(u, c))
  {
    match c
    case Mutates(id, op) => CallIgnoresEvidence(t, u, id, op);
    case Submits(record) =>
      PutWrites(t, record);
      PutWrites(u, record);
      WritingIgnoresEvidence(t, u, record, record);
  }

  lemma {:induction false} CommitsIgnoreEvidence(t: Tables, u: Tables, commits: Commits)
    requires SameOrders(t, u)
    ensures SameOrders(AllCommitted(t, commits), AllCommitted(u, commits))
    decreases |commits|
  {
    if commits != [] {
      CommitIgnoresEvidence(t, u, commits[0]);
      CommitsIgnoreEvidence(AfterCommit(t, commits[0]), AfterCommit(u, commits[0]), commits[1..]);
    }
  }

  /** What others do during the first `n` turns, and nothing else. */
  function Undisturbed(t: Tables, meanwhile: seq<Commits>, n: nat): Tables {
    if n == 0 then t else AllCommitted(Undisturbed(t, meanwhile, n - 1), Meanwhile(meanwhile, n - 1))
  }

  lemma {:induction false} ReportingKeepsOrders(t: Tables, w: Sweeping, vanished: nat, n: nat)
    ensures SameOrders(Folded(t, n, Reports(w, vanished)), Undisturbed(t, w.meanwhile, n))
  {
    if n > 0 {
      ReportingKeepsOrders(t, w, vanished, n - 1);
      CommitsIgnoreEvidence(Folded(t, n - 1, Reports(w, vanished)), Undisturbed(t, w.meanwhile, n - 1),
                          Meanwhile(w.meanwhile, n - 1));
    }
  }

  predicate IsVanished(w: Sweeping, n: nat, id: OrderId)
    requires n <= |w.ids|
  {
    id in w.ids[..n] && Ask(w.answers, id).Absent?
  }

  function NoteAt(w: Sweeping, vanished: nat, n: nat, id: OrderId, state: OrderState): seq<OrderDiscrepancy>
    requires n <= |w.ids|
  {
    if IsVanished(w, n, id) then [OrderDiscrepancy(w.now, VanishedTogether(vanished), state)] else []
  }

  /** Exactly this evidence has been added. */
  predicate OneNoteEach(t: Tables, u: Tables, w: Sweeping, vanished: nat, n: nat)
    requires n <= |w.ids|
  {
    forall id <- t.orders ::
      StoredDiscrepancies(u, id) == StoredDiscrepancies(t, id) + NoteAt(w, vanished, n, id, t.orders[id].state)
  }

  lemma NotesRow(t: Tables, before: Tables, w: Sweeping, vanished: nat, n: nat, other: OrderId)
    requires 0 < n <= |w.ids| && OneRowEach(w.ids) && other in t.orders && SameOrders(t, before)
    requires StoredDiscrepancies(before, other)
             == StoredDiscrepancies(t, other) + NoteAt(w, vanished, n - 1, other, t.orders[other].state)
    ensures StoredDiscrepancies(NotedAt(before, w, vanished, n), other)
            == StoredDiscrepancies(t, other) + NoteAt(w, vanished, n, other, t.orders[other].state)
  {
    assert w.ids[..n] == w.ids[..n - 1] + [w.ids[n - 1]] && w.ids[n - 1] !in w.ids[..n - 1];
  }

  function NotedAt(before: Tables, w: Sweeping, vanished: nat, n: nat): Tables
    requires 0 < n <= |w.ids|
  {
    var id := w.ids[n - 1];
    if Ask(w.answers, id).Absent? then Noted(before, id, VanishedTogether(vanished), w.now) else before
  }

  /** The evidence after `k` orders. */
  predicate ReportedSoFar(t: Tables, u: Tables, w: Sweeping, vanished: nat, k: nat) {
    k <= |w.ids| && SameOrders(t, u) && OneNoteEach(t, u, w, vanished, k)
  }

  lemma NotesOne(t: Tables, before: Tables, after: Tables, w: Sweeping, vanished: nat, k: nat)
    requires k < |w.ids| && OneRowEach(w.ids) && ReportedSoFar(t, before, w, vanished, k)
    requires after == NotedAt(before, w, vanished, k + 1)
    ensures ReportedSoFar(t, after, w, vanished, k + 1)
  {
    forall other <- t.orders
      ensures StoredDiscrepancies(after, other)
              == StoredDiscrepancies(t, other) + NoteAt(w, vanished, k + 1, other, t.orders[other].state)
    {
      NotesRow(t, before, w, vanished, k + 1, other);
    }
  }

  lemma UndisturbedReport(before: Tables, w: Sweeping, vanished: nat, k: nat)
    requires k < |w.ids| && w.meanwhile == []
    ensures Reports(w, vanished)(k, before) == NotedAt(before, w, vanished, k + 1)
  {
    assert Meanwhile(w.meanwhile, k) == [];
  }

  lemma NoNotesYet(t: Tables, w: Sweeping, vanished: nat)
    ensures OneNoteEach(t, t, w, vanished, 0)
  {
    forall id <- t.orders
      ensures StoredDiscrepancies(t, id) + NoteAt(w, vanished, 0, id, t.orders[id].state) == StoredDiscrepancies(t, id)
    {
      assert NoteAt(w, vanished, 0, id, t.orders[id].state) == [];
    }
  }

  lemma ReportingAddsOneNoteEach(t: Tables, w: Sweeping, vanished: nat, n: nat)
    requires n <= |w.ids| && OneRowEach(w.ids) && w.meanwhile == []
    ensures var u := Folded(t, n, Reports(w, vanished)); SameOrders(t, u) && OneNoteEach(t, u, w, vanished, n)
  {
    var p := (k: nat, u: Tables) => ReportedSoFar(t, u, w, vanished, k);
    NoNotesYet(t, w, vanished);
    forall k: nat, u | k < n && p(k, u)
      ensures p(k + 1, Reports(w, vanished)(k, u))
    {
      UndisturbedReport(u, w, vanished, k);
      NotesOne(t, u, Reports(w, vanished)(k, u), w, vanished, k);
    }
    FoldKeeps(t, n, Reports(w, vanished), p);
  }

  /**
    A suspected reset resolves nothing: orders and fills end as the others' transactions alone
    leave them, and undisturbed it adds one piece of evidence per vanished order, no more.
   */
  lemma ResetResolvesNothing(t: Tables, created: seq<OrderId>, answers: map<OrderId, Answer>,
                             meanwhile: seq<Commits>, now: Time)
    requires ResetSuspected(Candidates(t, created), answers) && OneRowEach(created)
    ensures var (u, out) := Swept(t, created, answers, meanwhile, now);
            var ids := Candidates(t, created);
            && out.Ok? && out.value.resetSuspected && out.value.resolved == 0
            && SameOrders(u, Undisturbed(t, meanwhile, |ids|))
            && (meanwhile == [] ==>
                  OneNoteEach(t, u, Sweeping(ids, answers, [], now), Count(ids, answers, IsAbsent), |ids|))
  {
    var ids := Candidates(t, created);
    var w := Sweeping(ids, answers, meanwhile, now);
    ReportingKeepsOrders(t, w, Count(ids, answers, IsAbsent), |ids|);
    if meanwhile == [] {
      ReportingAddsOneNoteEach(t, w, Count(ids, answers, IsAbsent), |ids|);
    }
  }

  /** A reset is suspected exactly when at least two orders were answered about, and none is known. */
  lemma ResetSuspectedIff(ids: seq<OrderId>, answers: map<OrderId, Answer>)
    ensures ResetSuspected(ids, answers)
            <==> (forall id <- ids :: !Ask(answers, id).Found?) && Count(ids, answers, IsAbsent) >= 2
  {
    CountsPartition(ids, answers);
  }

  lemma {:induction false} CountsPartition(ids: seq<OrderId>, answers: map<OrderId, Answer>)
    ensures Count(ids, answers, IsAbsent) + Count(ids, answers, IsUnreachable) <= |ids|
    ensures Count(ids, answers, IsAbsent) + Count(ids, answers, IsUnreachable) == |ids|
            <==> forall id <- ids :: !Ask(answers, id).Found?
  {
    if ids != [] {
      CountsPartition(ids[..|ids| - 1], answers);
      assert ids == ids[..|ids| - 1] + [ids[|ids| - 1]];
    }
  }

  // ------------------------------------------------------------------
  // What the sweep counts
  // ------------------------------------------------------------------

  lemma AbsenceDoesNotSettle(r: OrderRecord, now: Time)
    requires r.ReachedVenue() && Step(r, Reconcile(Absent, now)).Ok?
    ensures !IsTerminal(Step(r, Reconcile(Absent, now)).value.state)
  {
  }

  lemma OnlyDescribedOrdersCount(t: Tables, id: OrderId, a: Answer, now: Time)
    requires id in t.orders && t.orders[id].ReachedVenue()
    ensures var turn := TakeTurn(t, id, a, now); turn.Completes? && turn.settles ==> a.Found?
  {
    if a.Absent? && TakeTurn(t, id, a, now).Completes? {
      AbsenceDoesNotSettle(Hydrate(t, id).value, now);
    }
  }

  lemma TurnCountsDescribed(t: Tables, w: Sweeping, k: nat)
    requires Sane(t) && WellFormedMeanwhile(w.meanwhile) && k < |w.ids| && AllSent(t, w.ids)
    ensures var turn := Turns(w)(k, Settle(t, k, Turns(w)).0);
            turn.Completes? && turn.settles ==> Ask(w.answers, w.ids[k]).Found?
  {
    assert w.ids[k] in w.ids;
    SettleStaysSane(t, w, k);
    FoundStaysSane(Settle(t, k, Turns(w)).0, w, k);
    OnlyDescribedOrdersCount(FoundAt(t, w, k), w.ids[k], Ask(w.answers, w.ids[k]), w.now);
  }

  /** At most one order is counted per turn, and only orders the venue described. */
  lemma {:induction false} SettledCount(t: Tables, ids: seq<OrderId>, answers: map<OrderId, Answer>, n: nat,
                                        turn: (nat, Tables) -> Turn)
    requires n <= |ids|
    requires forall k: nat :: k < n ==>
               var taken := turn(k, Settle(t, k, turn).0);
               taken.Completes? && taken.settles ==> Ask(answers, ids[k]).Found?
    ensures var out := Settle(t, n, turn).1;
            out.Ok? ==> out.value + Count(ids[..n], answers, IsAbsent) + Count(ids[..n], answers, IsUnreachable) <= n
  {
    if n > 0 {
      SettledCount(t, ids, answers, n - 1, turn);
      assert ids[..n][..n - 1] == ids[..n - 1];
    }
  }

  /** A finished sweep settles at most the orders the venue actually described. */
  lemma ResolvedIsBounded(t: Tables, created: seq<OrderId>, answers: map<OrderId, Answer>,
                          meanwhile: seq<Commits>, now: Time)
    requires Sane(t) && WellFormedMeanwhile(meanwhile)
    ensures var ids := Candidates(t, created);
            var out := Swept(t, created, answers, meanwhile, now).1;
            out.Ok? ==>
              && out.value.checked == |ids|
              && out.value.unreachable == Count(ids, answers, IsUnreachable)
              && out.value.resolved <= |ids| - out.value.unreachable - Count(ids, answers, IsAbsent)
  {
    var ids := Candidates(t, created);
    CountsPartition(ids, answers);
    CandidatesAreSent(t, created);
    SettledIsBounded(t, Sweeping(ids, answers, meanwhile, now));
  }

  lemma SettledIsBounded(t: Tables, w: Sweeping)
    requires Sane(t) && WellFormedMeanwhile(w.meanwhile) && AllSent(t, w.ids)
    ensures var out := Settle(t, |w.ids|, Turns(w)).1;
            out.Ok? ==>
              out.value + Count(w.ids, w.answers, IsAbsent) + Count(w.ids, w.answers, IsUnreachable) <= |w.ids|
  {
    forall k: nat | k < |w.ids|
      ensures var taken := Turns(w)(k, Settle(t, k, Turns(w)).0);
              taken.Completes? && taken.settles ==> Ask(w.answers, w.ids[k]).Found?
    {
      TurnCountsDescribed(t, w, k);
    }
    SettledCount(t, w.ids, w.answers, |w.ids|, Turns(w));
    assert w.ids[..|w.ids|] == w.ids;
  }

  /** The tables after the first `n` turns, each one engine call on the row it finds. */
  function AfterTurns(t: Tables, w: Sweeping, n: nat): Tables
    requires n <= |w.ids|
  {
    if n == 0 then t
    else
      var id := w.ids[n - 1];
      Call(AllCommitted(AfterTurns(t, w, n - 1), Meanwhile(w.meanwhile, n - 1)), id, Reconcile(Ask(w.answers, id), w.now))
  }

  /** The venue answered about order `k`, and its row is terminal right after its own turn. */
  predicate EndsTerminal(t: Tables, w: Sweeping, k: nat)
    requires k < |w.ids|
  {
    var id := w.ids[k];
    var after := AfterTurns(t, w, k + 1);
    && id in w.answers && (w.answers[id].Absent? || w.answers[id].Found?)
    && id in after.orders && after.orders[id].state in {Filled, Cancelled, Rejected, Expired}
  }

  function Chosen(n: nat, p: nat -> bool): set<nat> {
    set k: nat | k < n && p(k)
  }

  lemma OneMoreChosen(n: nat, p: nat -> bool)
    ensures |Chosen(n + 1, p)| == |Chosen(n, p)| + if p(n) then 1 else 0
  {
    assert Chosen(n + 1, p) == Chosen(n, p) + if p(n) then {n} else {};
    assert n !in Chosen(n, p);
  }

  /** A turn that completes is one engine call, and counts iff it leaves an answered order terminal. */
  lemma TurnIsOneCall(found: Tables, id: OrderId, a: Answer, now: Time)
    requires Keyed(found)
    ensures var turn := TakeTurn(found, id, a, now);
            turn.Completes? ==>
              && turn.after == Call(found, id, Reconcile(a, now)) && id in turn.after.orders
              && (turn.settles <==> !a.Unreachable? && turn.after.orders[id].state in {Filled, Cancelled, Rejected, Expired})
  {
    if Stores(found, id, Reconcile(a, now)).Some? {
      StoredIsItsOwn(found, id, Reconcile(a, now));
    }
  }

  lemma {:induction false} AfterTurnsIsKeyed(t: Tables, w: Sweeping, n: nat)
    requires Keyed(t) && n <= |w.ids|
    ensures Keyed(AfterTurns(t, w, n))
  {
    if n > 0 {
      var id := w.ids[n - 1];
      AfterTurnsIsKeyed(t, w, n - 1);
      CommitsLeaveOthers(AfterTurns(t, w, n - 1), Meanwhile(w.meanwhile, n - 1), id);
      CallLeavesOthers(AllCommitted(AfterTurns(t, w, n - 1), Meanwhile(w.meanwhile, n - 1)), id,
                       Reconcile(Ask(w.answers, id), w.now), id);
    }
  }

  lemma AfterOneTurn(t: Tables, w: Sweeping, k: nat)
    requires k < |w.ids|
    ensures AfterTurns(t, w, k + 1)
            == Call(AllCommitted(AfterTurns(t, w, k), Meanwhile(w.meanwhile, k)), w.ids[k],
                    Reconcile(Ask(w.answers, w.ids[k]), w.now))
  {
  }

  function CallsSoFar(t: Tables, w: Sweeping): nat -> Tables {
    (k: nat) => if k <= |w.ids| then AfterTurns(t, w, k) else t
  }

  function TerminalTurns(t: Tables, w: Sweeping): nat -> bool {
    (k: nat) => k < |w.ids| && EndsTerminal(t, w, k)
  }

  /** Turn `k` leads from `after(k)` to `after(k + 1)`, and counts where `ends` holds. */
  predicate TurnAsCall(k: nat, turn: (nat, Tables) -> Turn, after: nat -> Tables, ends: nat -> bool) {
    turn(k, after(k)).Completes? ==> turn(k, after(k)).after == after(k + 1) && (turn(k, after(k)).settles <==> ends(k))
  }

  /** The venue answered, and the order's row is terminal. */
  predicate IsAnsweredTerminal(t: Tables, id: OrderId, a: Answer) {
    !a.Unreachable? && id in t.orders && t.orders[id].state in {Filled, Cancelled, Rejected, Expired}
  }

  lemma TurnAsItsCall(k: nat, turn: (nat, Tables) -> Turn, after: nat -> Tables, ends: nat -> bool,
                      found: Tables, id: OrderId, a: Answer, now: Time)
    requires Keyed(found) && turn(k, after(k)) == TakeTurn(found, id, a, now)
    requires after(k + 1) == Call(found, id, Reconcile(a, now)) && ends(k) == IsAnsweredTerminal(after(k + 1), id, a)
    ensures TurnAsCall(k, turn, after, ends)
  {
    TurnIsOneCall(found, id, a, now);
  }

  lemma EndsTerminalMeans(t: Tables, w: Sweeping, k: nat)
    requires k < |w.ids|
    ensures EndsTerminal(t, w, k) == IsAnsweredTerminal(AfterTurns(t, w, k + 1), w.ids[k], Ask(w.answers, w.ids[k]))
  {
  }

  lemma EveryTurnAsCall(t: Tables, w: Sweeping, k: nat)
    requires Keyed(t) && k < |w.ids|
    ensures TurnAsCall(k, Turns(w), CallsSoFar(t, w), TerminalTurns(t, w))
  {
    var id := w.ids[k];
    var before := AfterTurns(t, w, k);
    var found := AllCommitted(before, Meanwhile(w.meanwhile, k));
    AfterTurnsIsKeyed(t, w, k);
    CommitsLeaveOthers(before, Meanwhile(w.meanwhile, k), id);
    TurnIsTaken(w, k, before);
    AfterOneTurn(t, w, k);
    EndsTerminalMeans(t, w, k);
    TurnAsItsCall(k, Turns(w), CallsSoFar(t, w), TerminalTurns(t, w), found, id, Ask(w.answers, id), w.now);
  }

  lemma {:induction false} SettlesAs(t: Tables, n: nat, turn: (nat, Tables) -> Turn, after: nat -> Tables, ends: nat -> bool)
    requires after(0) == t && Settle(t, n, turn).1.Ok?
    requires forall k: nat :: k < n ==> TurnAsCall(k, turn, after, ends)
    ensures Settle(t, n, turn) == (after(n), Ok(|Chosen(n, ends)|))
  {
    if n > 0 {
      SettlesAs(t, n - 1, turn, after, ends);
      assert TurnAsCall(n - 1, turn, after, ends);
      OneMoreChosen(n - 1, ends);
    }
  }

  lemma SettledExactly(t: Tables, w: Sweeping)
    requires Keyed(t) && Settle(t, |w.ids|, Turns(w)).1.Ok?
    ensures Settle(t, |w.ids|, Turns(w)) == (CallsSoFar(t, w)(|w.ids|), Ok(|Chosen(|w.ids|, TerminalTurns(t, w))|))
  {
    forall k: nat | k < |w.ids|
      ensures TurnAsCall(k, Turns(w), CallsSoFar(t, w), TerminalTurns(t, w))
    {
      EveryTurnAsCall(t, w, k);
    }
    SettlesAs(t, |w.ids|, Turns(w), CallsSoFar(t, w), TerminalTurns(t, w));
  }

  /**
    A finished sweep that suspects no reset leaves the tables as one engine call after another
    does, and resolves exactly as many orders as were answered about and are terminal right
    after their own turn.
   */
  lemma ResolvedIsExact(t: Tables, created: seq<OrderId>, answers: map<OrderId, Answer>,
                        meanwhile: seq<Commits>, now: Time)
    requires Keyed(t) && !ResetSuspected(Candidates(t, created), answers)
    requires Swept(t, created, answers, meanwhile, now).1.Ok?
    ensures var w := Sweeping(Candidates(t, created), answers, meanwhile, now);
            var (u, out) := Swept(t, created, answers, meanwhile, now);
            && u == AfterTurns(t, w, |w.ids|) && !out.value.resetSuspected
            && out.value.resolved == |set k: nat | k < |w.ids| && EndsTerminal(t, w, k)|
  {
    var w := Sweeping(Candidates(t, created), answers, meanwhile, now);
    SettledExactly(t, w);
    assert Chosen(|w.ids|, TerminalTurns(t, w)) == set k: nat | k < |w.ids| && EndsTerminal(t, w, k);
  }

  // ------------------------------------------------------------------
  // Recovery
  // ------------------------------------------------------------------

  lemma {:induction false} NothingUnseen(record: seq<OrderDiscrepancy>, seen: set<(Time, Evidence)>)
    requires forall d <- record :: (d.observedAt, d.detail) in seen
    ensures Unseen(record, seen) == []
  {
    if record != [] {
      var n := |record| - 1;
      assert record[n] in record && forall d <- record[..n] :: d in record;
      NothingUnseen(record[..n], seen);
    }
  }

  lemma SameEvidenceIsKept(stored: seq<OrderDiscrepancy>)
    ensures SyncDiscrepancies(stored, SortDiscrepancies(stored)) == stored
  {
    SortDiscrepanciesKeeps(stored);
    forall d <- SortDiscrepancies(stored)
      ensures (d.observedAt, d.detail) in Seen(stored)
    {
      assert d in multiset(SortDiscrepancies(stored)) && d in multiset(stored);
    }
    NothingUnseen(SortDiscrepancies(stored), Seen(stored));
    assert stored + [] == stored;
  }

  function Unknowing(row: OrderRecord, now: Time): OrderRecord {
    row.(state := Unknown, updatedAt := now)
  }

  /** Marking an order in flight unknown changes two columns of one row. */
  lemma MarkUnknownWrites(t: Tables, id: OrderId, now: Time)
    requires Sane(t) && FateAt(t, id) == Some(Interrupted)
    ensures Call(t, id, MarkUnknown(now)) == t.(orders := t.orders[id := Unknowing(t.orders[id], now)])
  {
    var r := Hydrate(t, id).value;
    var w := r.(state := Unknown, updatedAt := now);
    InFlightBecomesUnknown(r, now);
    SameFillsAreKept(t.fills[id]);
    SameEvidenceIsKept(t.discrepancies[id]);
    UnknowingCanBeWritten(t, id, w);
    CallWrites(t, id, MarkUnknown(now), w);
    WrittenOverItself(t, id, w);
  }

  lemma CallWrites(t: Tables, id: OrderId, op: Op, w: OrderRecord)
    requires id in t.orders && Hydrate(t, id).Some? && Step(Hydrate(t, id).value, op) == Ok(w) && WriteError(t, w).None?
    ensures Call(t, id, op) == Written(t, w)
  {
  }

  lemma WrittenOverItself(t: Tables, id: OrderId, w: OrderRecord)
    requires id in t.fills && id in t.discrepancies && w.orderId == id
    requires SyncFills(t.fills[id], w.fills) == t.fills[id]
    requires SyncDiscrepancies(t.discrepancies[id], w.discrepancies) == t.discrepancies[id]
    ensures Written(t, w) == t.(orders := t.orders[id := Columns(w)])
  {
    assert t.fills[id := t.fills[id]] == t.fills;
    assert t.discrepancies[id := t.discrepancies[id]] == t.discrepancies;
  }

  lemma InFlightBecomesUnknown(r: OrderRecord, now: Time)
    requires Stamped(r) && FateOf(r) == Interrupted
    ensures Step(r, MarkUnknown(now)) == Ok(r.(state := Unknown, updatedAt := now))
  {
  }

  lemma UnknowingCanBeWritten(t: Tables, id: OrderId, w: OrderRecord)
    requires Consistent(t) && OneVenueIdEach(t) && id in t.orders && w.orderId == id
    requires w.clientOrderId == t.orders[id].clientOrderId && w.venueOrderId == t.orders[id].venueOrderId
    requires SyncFills(t.fills[id], w.fills) == t.fills[id]
    ensures WriteError(t, w).None?
  {
  }

  /** What a row's fate depends on. */
  lemma FateDependsOn(t: Tables, u: Tables, id: OrderId)
    requires id in t.orders && id in u.orders && StoredFills(t, id) == StoredFills(u, id)
    ensures t.orders[id] == u.orders[id] ==> FateAt(t, id) == FateAt(u, id)
    ensures forall now :: FateAt(t, id) == Some(Interrupted) && u.orders[id] == Unknowing(t.orders[id], now) ==>
              FateAt(u, id) == Some(AlreadyUnresolved)
  {
  }

  function MovedRow(row: OrderRecord, fate: Option<Fate>, moved: bool, now: Time): OrderRecord {
    if moved && fate == Some(Interrupted) then Unknowing(row, now) else row
  }

  /** The orders after recovery's first loop has passed these rows. */
  predicate IsMoved(t: Tables, u: Tables, passed: set<OrderId>, now: Time) {
    && u.fills == t.fills && u.discrepancies == t.discrepancies && u.orders.Keys == t.orders.Keys
    && (forall id <- t.orders :: u.orders[id] == MovedRow(t.orders[id], FateAt(t, id), id in passed, now))
  }

  /** A row's identity, and whether it agrees with its stamps, survive the move. */
  lemma MovedRowKeeps(row: OrderRecord, fate: Option<Fate>, moved: bool, now: Time)
    requires Stamped(row) && (fate == Some(Interrupted) ==> FateOf(row) == Interrupted)
    ensures var m := MovedRow(row, fate, moved, now);
            && Stamped(m) && m.orderId == row.orderId && m.clientOrderId == row.clientOrderId
            && m.venueOrderId == row.venueOrderId && (row == Columns(row) ==> m == Columns(m))
  {
  }

  lemma MovedRowsKeep(t: Tables, u: Tables, passed: set<OrderId>, now: Time)
    requires AllStamped(t) && IsMoved(t, u, passed, now)
    ensures forall id <- t.orders ::
              && Stamped(u.orders[id]) && u.orders[id].orderId == t.orders[id].orderId
              && u.orders[id].clientOrderId == t.orders[id].clientOrderId
              && u.orders[id].venueOrderId == t.orders[id].venueOrderId
              && (t.orders[id] == Columns(t.orders[id]) ==> u.orders[id] == Columns(u.orders[id]))
  {
    forall id <- t.orders
      ensures && Stamped(u.orders[id]) && u.orders[id].orderId == t.orders[id].orderId
              && u.orders[id].clientOrderId == t.orders[id].clientOrderId
              && u.orders[id].venueOrderId == t.orders[id].venueOrderId
              && (t.orders[id] == Columns(t.orders[id]) ==> u.orders[id] == Columns(u.orders[id]))
    {
      MovedRowKeeps(t.orders[id], FateAt(t, id), id in passed, now);
    }
  }

  lemma MovedStaysSane(t: Tables, u: Tables, passed: set<OrderId>, now: Time)
    requires Sane(t) && IsMoved(t, u, passed, now)
    ensures Sane(u)
  {
    MovedRowsKeep(t, u, passed, now);
    forall a <- u.orders, b <- u.orders | u.orders[a].clientOrderId == u.orders[b].clientOrderId
      ensures a == b
    {
      assert t.orders[a].clientOrderId == t.orders[b].clientOrderId;
    }
    forall a <- u.orders, b <- u.orders
      | u.orders[a].venueOrderId.Some? && u.orders[a].venueOrderId == u.orders[b].venueOrderId
      ensures a == b
    {
      assert t.orders[a].venueOrderId == t.orders[b].venueOrderId;
    }
  }

  function Passed(ids: seq<OrderId>, n: nat): set<OrderId>
    requires n <= |ids|
  {
    set id <- ids[..n]
  }

  lemma PassedOneMore(ids: seq<OrderId>, n: nat)
    requires 0 < n <= |ids| && OneRowEach(ids)
    ensures Passed(ids, n) == Passed(ids, n - 1) + {ids[n - 1]} && ids[n - 1] !in Passed(ids, n - 1)
  {
    assert ids[..n] == ids[..n - 1] + [ids[n - 1]];
  }

  lemma MovesOne(t: Tables, before: Tables, passed: set<OrderId>, id: OrderId, now: Time)
    requires Sane(t) && IsMoved(t, before, passed, now) && id !in passed
    ensures var after := if FateAt(t, id) == Some(Interrupted) then Call(before, id, MarkUnknown(now)) else before;
            IsMoved(t, after, passed + {id}, now)
  {
    if FateAt(t, id) == Some(Interrupted) {
      MovedStaysSane(t, before, passed, now);
      FateDependsOn(t, before, id);
      MarkUnknownWrites(before, id, now);
      MovedRowWrites(t, before, passed, id, now);
    }
  }

  lemma MovedRowWrites(t: Tables, before: Tables, passed: set<OrderId>, id: OrderId, now: Time)
    requires IsMoved(t, before, passed, now) && id !in passed && FateAt(t, id) == Some(Interrupted)
    ensures IsMoved(t, before.(orders := before.orders[id := Unknowing(before.orders[id], now)]), passed + {id}, now)
  {
  }

  lemma MoveStep(t: Tables, before: Tables, ids: seq<OrderId>, k: nat, now: Time)
    requires Sane(t) && OneRowEach(ids) && k < |ids| && IsMoved(t, before, Passed(ids, k), now)
    ensures IsMoved(t, Moves(t, ids, now)(k, before), Passed(ids, k + 1), now)
  {
    PassedOneMore(ids, k + 1);
    MovesOne(t, before, Passed(ids, k), ids[k], now);
  }

  /**
    No row makes recovery raise: the transaction of each order it finds in flight completes,
    however many it has moved before.
   */
  lemma RecoveryNeverRaises(t: Tables, ids: seq<OrderId>, k: nat, now: Time)
    requires Sane(t) && OneRowEach(ids) && k < |ids| && FateAt(t, ids[k]) == Some(Interrupted)
    ensures Stores(Folded(t, k, Moves(t, ids, now)), ids[k], MarkUnknown(now)).Some?
  {
    var before := Folded(t, k, Moves(t, ids, now));
    MovedIs(t, ids, k, now);
    MovedStaysSane(t, before, Passed(ids, k), now);
    PassedOneMore(ids, k + 1);
    FateDependsOn(t, before, ids[k]);
    InFlightCanBeMarked(before, ids[k], now);
  }

  lemma InFlightCanBeMarked(t: Tables, id: OrderId, now: Time)
    requires Sane(t) && FateAt(t, id) == Some(Interrupted)
    ensures Stores(t, id, MarkUnknown(now)).Some?
  {
    MarkUnknownWrites(t, id, now);
    assert Unknowing(t.orders[id], now).state != t.orders[id].state;
  }

  /** What each step of a loop over the rows keeps, the loop keeps. */
  lemma {:induction false} FoldKeeps(t: Tables, n: nat, step: (nat, Tables) -> Tables, p: (nat, Tables) -> bool)
    requires p(0, t) && forall k: nat, u :: k < n && p(k, u) ==> p(k + 1, step(k, u))
    ensures p(n, Folded(t, n, step))
  {
    if n > 0 {
      FoldKeeps(t, n - 1, step, p);
      assert p(n - 1 + 1, step(n - 1, Folded(t, n - 1, step)));
    }
  }

  lemma NothingMoved(t: Tables, now: Time)
    ensures IsMoved(t, t, {}, now)
  {
  }

  lemma MovedIs(t: Tables, ids: seq<OrderId>, n: nat, now: Time)
    requires Sane(t) && OneRowEach(ids) && n <= |ids|
    ensures IsMoved(t, Folded(t, n, Moves(t, ids, now)), Passed(ids, n), now)
  {
    var p := (k: nat, u: Tables) => k <= |ids| && IsMoved(t, u, Passed(ids, k), now);
    NothingMoved(t, now);
    assert Passed(ids, 0) == {};
    forall k: nat, u | k < n && p(k, u)
      ensures p(k + 1, Moves(t, ids, now)(k, u))
    {
      MoveStep(t, u, ids, k, now);
    }
    FoldKeeps(t, n, Moves(t, ids, now), p);
  }

  function MarkOn(fate: Option<Fate>, marked: bool, state: OrderState, now: Time): seq<OrderDiscrepancy> {
    if marked && fate == Some(Damaged) then [OrderDiscrepancy(now, CouldNotBeLoaded, state)] else []
  }

  predicate IsMarked(t: Tables, u: Tables, scan: Tables, passed: set<OrderId>, now: Time) {
    && SameOrders(t, u) && (t.orders.Keys <= t.discrepancies.Keys ==> u.discrepancies.Keys == t.discrepancies.Keys)
    && (forall id <- t.orders ::
          StoredDiscrepancies(u, id)
          == StoredDiscrepancies(t, id) + MarkOn(FateAt(scan, id), id in passed, t.orders[id].state, now))
  }

  lemma MarksRow(t: Tables, before: Tables, scan: Tables, passed: set<OrderId>, id: OrderId, now: Time, other: OrderId)
    requires IsMarked(t, before, scan, passed, now) && id !in passed && other in t.orders
    ensures var u := if FateAt(scan, id) == Some(Damaged) then Noted(before, id, CouldNotBeLoaded, now) else before;
            StoredDiscrepancies(u, other)
            == StoredDiscrepancies(t, other)
               + MarkOn(FateAt(scan, other), other in passed + {id}, t.orders[other].state, now)
  {
    assert StoredDiscrepancies(before, other)
        == StoredDiscrepancies(t, other) + MarkOn(FateAt(scan, other), other in passed, t.orders[other].state, now);
  }

  lemma MarksOne(t: Tables, before: Tables, scan: Tables, passed: set<OrderId>, id: OrderId, now: Time)
    requires IsMarked(t, before, scan, passed, now) && id !in passed
    ensures var u := if FateAt(scan, id) == Some(Damaged) then Noted(before, id, CouldNotBeLoaded, now) else before;
            IsMarked(t, u, scan, passed + {id}, now)
  {
    forall other <- t.orders
      ensures var u := if FateAt(scan, id) == Some(Damaged) then Noted(before, id, CouldNotBeLoaded, now) else before;
              StoredDiscrepancies(u, other)
              == StoredDiscrepancies(t, other)
                 + MarkOn(FateAt(scan, other), other in passed + {id}, t.orders[other].state, now)
    {
      MarksRow(t, before, scan, passed, id, now, other);
    }
  }

  lemma MarkStep(t: Tables, before: Tables, scan: Tables, ids: seq<OrderId>, k: nat, now: Time)
    requires OneRowEach(ids) && k < |ids| && IsMarked(t, before, scan, Passed(ids, k), now)
    ensures IsMarked(t, Marks(scan, ids, now)(k, before), scan, Passed(ids, k + 1), now)
  {
    PassedOneMore(ids, k + 1);
    MarksOne(t, before, scan, Passed(ids, k), ids[k], now);
  }

  lemma NothingMarked(t: Tables, scan: Tables, now: Time)
    ensures IsMarked(t, t, scan, {}, now)
  {
  }

  lemma MarkedIs(t: Tables, scan: Tables, ids: seq<OrderId>, n: nat, now: Time)
    requires OneRowEach(ids) && n <= |ids|
    ensures IsMarked(t, Folded(t, n, Marks(scan, ids, now)), scan, Passed(ids, n), now)
  {
    var p := (k: nat, u: Tables) => k <= |ids| && IsMarked(t, u, scan, Passed(ids, k), now);
    NothingMarked(t, scan, now);
    assert Passed(ids, 0) == {};
    forall k: nat, u | k < n && p(k, u)
      ensures p(k + 1, Marks(scan, ids, now)(k, u))
    {
      MarkStep(t, u, scan, ids, k, now);
    }
    FoldKeeps(t, n, Marks(scan, ids, now), p);
  }

  lemma MarkedStaysSane(t: Tables, u: Tables, scan: Tables, passed: set<OrderId>, now: Time)
    requires Sane(t) && IsMarked(t, u, scan, passed, now)
    ensures Sane(u)
  {
  }

  /** Every row, and no other, is in row order. */
  ghost predicate Lists(created: seq<OrderId>, t: Tables) {
    OneRowEach(created) && forall id :: id in created <==> id in t.orders
  }

  /** What recovery comes to, row by row. */
  predicate IsRecovered(t: Tables, u: Tables, now: Time) {
    && u.fills == t.fills && u.orders.Keys == t.orders.Keys && u.discrepancies.Keys == t.discrepancies.Keys
    && (forall id <- t.orders :: u.orders[id] == MovedRow(t.orders[id], FateAt(t, id), true, now))
    && (forall id <- t.orders ::
          StoredDiscrepancies(u, id) == StoredDiscrepancies(t, id) + MarkOn(FateAt(t, id), true, t.orders[id].state, now))
  }

  lemma RecoveredIs(t: Tables, created: seq<OrderId>, now: Time)
    requires Sane(t) && Lists(created, t)
    ensures var u := Recovered(t, created, now); Sane(u) && IsRecovered(t, u, now)
  {
    var n := |created|;
    var moved := Folded(t, n, Moves(t, created, now));
    assert created[..n] == created;
    MovedIs(t, created, n, now);
    MovedStaysSane(t, moved, Passed(created, n), now);
    MarkedIs(moved, t, created, n, now);
    MarkedStaysSane(moved, Recovered(t, created, now), t, Passed(created, n), now);
    BothLoops(t, moved, Recovered(t, created, now), Passed(created, n), now);
  }

  lemma BothLoops(t: Tables, moved: Tables, u: Tables, passed: set<OrderId>, now: Time)
    requires Consistent(t) && t.orders.Keys <= passed
    requires IsMoved(t, moved, passed, now) && IsMarked(moved, u, t, passed, now)
    ensures IsRecovered(t, u, now)
  {
  }

  function FateAfter(fate: Option<Fate>): Option<Fate> {
    if fate == Some(Interrupted) then Some(AlreadyUnresolved) else fate
  }

  lemma FateAfterRecovery(t: Tables, u: Tables, now: Time, id: OrderId)
    requires IsRecovered(t, u, now)
    ensures FateAt(u, id) == FateAfter(FateAt(t, id))
  {
    if id in t.orders {
      FateDependsOn(t, u, id);
    }
  }

  lemma {:induction false} ReportsCompare(before: OrderId -> Option<Fate>, after: OrderId -> Option<Fate>,
                                          ids: seq<OrderId>, n: nat)
    requires n <= |ids| && forall id :: after(id) == FateAfter(before(id))
    ensures var first, again := Report(before, ids, n), Report(after, ids, n);
            && |first.interrupted| + |first.alreadyUnresolved| == |again.alreadyUnresolved|
            && again.interrupted == [] && again.neverSubmitted == first.neverSubmitted
            && again.unreadable == first.unreadable
  {
    if n > 0 {
      ReportsCompare(before, after, ids, n - 1);
    }
  }

  /**
    The number a recovery reports as blocking is what blocks entries afterwards: every order
    then unreconciled, and every one that does not load. A second recovery interrupts nothing.
   */
  lemma ReportCountsTheBlocking(t: Tables, created: seq<OrderId>, now: Time)
    requires Sane(t) && Lists(created, t)
    ensures var n := |created|;
            var first := Report(Fates(t), created, n);
            var again := Report(Fates(Recovered(t, created, now)), created, n);
            && first.Blocking() == |again.alreadyUnresolved| + |again.unreadable|
            && again.interrupted == [] && again.neverSubmitted == first.neverSubmitted
  {
    RecoveredIs(t, created, now);
    forall id
      ensures Fates(Recovered(t, created, now))(id) == FateAfter(Fates(t)(id))
    {
      FateAfterRecovery(t, Recovered(t, created, now), now, id);
    }
    ReportsCompare(Fates(t), Fates(Recovered(t, created, now)), created, |created|);
  }

  /** The second of two recoveries, row by row. */
  lemma RecoveredAgain(t: Tables, once: Tables, twice: Tables, now: Time, later: Time, id: OrderId)
    requires IsRecovered(t, once, now) && IsRecovered(once, twice, later) && id in t.orders
    ensures twice.orders[id] == once.orders[id]
    ensures StoredDiscrepancies(twice, id) == StoredDiscrepancies(once, id) <==> FateAt(t, id) != Some(Damaged)
  {
    FateAfterRecovery(t, once, now, id);
    var mark := MarkOn(FateAt(once, id), true, once.orders[id].state, later);
    assert |StoredDiscrepancies(twice, id)| == |StoredDiscrepancies(once, id)| + |mark|;
  }

  /** A second recovery changes nothing exactly when every open row loads: the others get their evidence again. */
  lemma RecoveryIsIdempotentIff(t: Tables, created: seq<OrderId>, now: Time, later: Time)
    requires Sane(t) && Lists(created, t)
    ensures var once := Recovered(t, created, now);
            Recovered(once, created, later) == once <==> forall id <- t.orders :: FateAt(t, id) != Some(Damaged)
  {
    var once := Recovered(t, created, now);
    RecoveredIs(t, created, now);
    RecoveredIs(once, created, later);
    RecoveredTwiceIff(t, once, Recovered(once, created, later), now, later);
  }

  lemma RecoveredTwiceIff(t: Tables, once: Tables, twice: Tables, now: Time, later: Time)
    requires Consistent(once) && Consistent(twice) && IsRecovered(t, once, now) && IsRecovered(once, twice, later)
    ensures twice == once <==> forall id <- t.orders :: FateAt(t, id) != Some(Damaged)
  {
    forall id <- t.orders
      ensures twice.orders[id] == once.orders[id]
      ensures StoredDiscrepancies(twice, id) == StoredDiscrepancies(once, id) <==> FateAt(t, id) != Some(Damaged)
    {
      RecoveredAgain(t, once, twice, now, later, id);
    }
    SameTablesIff(once, twice);
  }

  lemma SameTablesIff(once: Tables, twice: Tables)
    requires once.orders.Keys == once.discrepancies.Keys == twice.discrepancies.Keys && once.fills == twice.fills
    requires once.orders.Keys == twice.orders.Keys && forall id <- once.orders :: twice.orders[id] == once.orders[id]
    ensures twice == once <==> forall id <- once.orders :: StoredDiscrepancies(twice, id) == StoredDiscrepancies(once, id)
  {
    assert twice.orders == once.orders;
    if forall id <- once.orders :: StoredDiscrepancies(twice, id) == StoredDiscrepancies(once, id) {
      assert twice.discrepancies == once.discrepancies by {
        assert forall id <- once.discrepancies :: twice.discrepancies[id] == once.discrepancies[id];
      }
    }
  }

  /** As they stand, up to the time of the last update. */
  predicate SameButUpdates(t: Tables, u: Tables) {
    && t.fills == u.fills && t.orders.Keys == u.orders.Keys
    && forall id <- t.orders :: t.orders[id].(updatedAt := 0) == u.orders[id].(updatedAt := 0)
  }

  /** A row moved or not, then recovered. */
  lemma MovedThenRecovered(row: OrderRecord, fate: Option<Fate>, moved: bool, earlier: Time, now: Time)
    requires fate == Some(Interrupted) ==> FateOf(row) == Interrupted
    ensures var m := MovedRow(row, fate, moved, earlier);
            var later := if m == row then fate else FateAfter(fate);
            MovedRow(m, later, true, now).(updatedAt := 0) == MovedRow(row, fate, true, now).(updatedAt := 0)
  {
  }

  lemma CrashedRowRecovers(t: Tables, crashed: Tables, moved: bool, earlier: Time, now: Time, id: OrderId)
    requires id in t.orders && id in crashed.orders && StoredFills(t, id) == StoredFills(crashed, id)
    requires crashed.orders[id] == MovedRow(t.orders[id], FateAt(t, id), moved, earlier)
    ensures MovedRow(crashed.orders[id], FateAt(crashed, id), true, now).(updatedAt := 0)
            == MovedRow(t.orders[id], FateAt(t, id), true, now).(updatedAt := 0)
  {
    FateDependsOn(t, crashed, id);
    MovedThenRecovered(t.orders[id], FateAt(t, id), moved, earlier, now);
  }

  lemma RecoveredRowIs(t: Tables, u: Tables, now: Time, id: OrderId)
    requires IsRecovered(t, u, now) && id in t.orders
    ensures id in u.orders && u.orders[id] == MovedRow(t.orders[id], FateAt(t, id), true, now)
  {
  }

  lemma CrashedThenRecovered(t: Tables, crashed: Tables, again: Tables, whole: Tables, passed: set<OrderId>,
                             earlier: Time, now: Time)
    requires crashed.orders.Keys == t.orders.Keys && crashed.fills == t.fills
    requires forall id <- t.orders :: crashed.orders[id] == MovedRow(t.orders[id], FateAt(t, id), id in passed, earlier)
    requires IsRecovered(crashed, again, now) && IsRecovered(t, whole, now)
    ensures SameButUpdates(again, whole)
  {
    forall id <- t.orders
      ensures again.orders[id].(updatedAt := 0) == whole.orders[id].(updatedAt := 0)
    {
      CrashedRowRecovers(t, crashed, id in passed, earlier, now, id);
      RecoveredRowIs(crashed, again, now, id);
      RecoveredRowIs(t, whole, now, id);
    }
  }

  /** Part of either loop is done when the crash comes. */
  function Crashed(t: Tables, created: seq<OrderId>, moved: nat, marked: nat, now: Time): Tables {
    Folded(Folded(t, moved, Moves(t, created, now)), marked, Marks(t, created, now))
  }

  lemma CrashedIs(t: Tables, created: seq<OrderId>, moved: nat, marked: nat, now: Time)
    requires Sane(t) && OneRowEach(created) && moved <= |created| && marked <= |created|
    ensures var crashed := Crashed(t, created, moved, marked, now);
            && Sane(crashed) && crashed.orders.Keys == t.orders.Keys && crashed.fills == t.fills
            && (forall id <- t.orders ::
                  crashed.orders[id] == MovedRow(t.orders[id], FateAt(t, id), id in Passed(created, moved), now))
  {
    var partly := Folded(t, moved, Moves(t, created, now));
    MovedIs(t, created, moved, now);
    MovedStaysSane(t, partly, Passed(created, moved), now);
    MarkedIs(partly, t, created, marked, now);
    MarkedStaysSane(partly, Crashed(t, created, moved, marked, now), t, Passed(created, marked), now);
  }

  /**
    A crash during recovery is survivable: recovering again ends with every order as an
    uninterrupted recovery leaves it, up to the time of the last update.
   */
  lemma RecoverySurvivesACrash(t: Tables, created: seq<OrderId>, moved: nat, marked: nat, earlier: Time, now: Time)
    requires Sane(t) && Lists(created, t) && moved <= |created| && marked <= |created|
    ensures SameButUpdates(Recovered(Crashed(t, created, moved, marked, earlier), created, now), Recovered(t, created, now))
  {
    var crashed := Crashed(t, created, moved, marked, earlier);
    CrashedIs(t, created, moved, marked, earlier);
    RecoveredIs(t, created, now);
    RecoveredIs(crashed, created, now);
    CrashedThenRecovered(t, crashed, Recovered(crashed, created, now), Recovered(t, created, now),
                         Passed(created, moved), earlier, now);
  }

  // ------------------------------------------------------------------
  // Recovery followed by the sweep
  // ------------------------------------------------------------------

  /** The venue describes the order, consistently with what is recorded of it. */
  predicate Usable(r: OrderRecord, a: Answer) {
    a.Found? && r.filledQuantity <= a.view.filledQuantity <= r.quantity && VenueReports(a.view.state)
  }

  lemma UnknownReconciled(r: OrderRecord, a: Answer, now: Time)
    requires r.state == Unknown && r.ReachedVenue()
    ensures var o := Step(r, Reconcile(a, now)); (o.Ok? ==> o.value.state == Unknown) && (Usable(r, a) ==> o.Err?)
  {
    UnknownIsNotResolvedByReconcile(r, a, now);
  }

  predicate IsUnknown(t: Tables, id: OrderId) {
    id in t.orders && t.orders[id].state == Unknown && t.orders[id].ReachedVenue()
  }

  lemma UnknownTurn(t: Tables, id: OrderId, a: Answer, now: Time)
    requires Keyed(t) && IsUnknown(t, id)
    ensures var turn := TakeTurn(t, id, a, now);
            && turn.found == t
            && (turn.Completes? ==> id in turn.after.orders && turn.after.orders[id].state == Unknown)
            && (Usable(t.orders[id], a) ==> turn.Raises?)
  {
    if Hydrate(t, id).Some? {
      UnknownReconciled(Hydrate(t, id).value, a, now);
    }
    if Stores(t, id, Reconcile(a, now)).Some? {
      StoredIsItsOwn(t, id, Reconcile(a, now));
    }
  }

  /** Nobody else touches this order during the sweep. */
  predicate LeftAlone(meanwhile: seq<Commits>, id: OrderId) {
    forall k :: 0 <= k < |meanwhile| ==> NoneOn(meanwhile[k], id)
  }

  /** The turn of order `j` itself, and the row it leaves. */
  lemma UnknownAtItsTurn(t: Tables, w: Sweeping, j: nat)
    requires Keyed(t) && OneRowEach(w.ids) && j < |w.ids| && LeftAlone(w.meanwhile, w.ids[j]) && IsUnknown(t, w.ids[j])
    ensures var id := w.ids[j];
            EndsUnknown(Settle(t, j + 1, Turns(w)).0, Settle(t, j + 1, Turns(w)).1, id,
                        Usable(t.orders[id], Ask(w.answers, id)))
  {
    var id := w.ids[j];
    var (before, out) := Settle(t, j, Turns(w));
    assert TurnsPass(w, 0, j, id);
    LaterTurnsLeave(t, w, 0, j, id);
    SettleIsKeyed(t, w, j);
    if out.Ok? {
      CommitsLeaveOthers(before, Meanwhile(w.meanwhile, j), id);
      UnknownTurn(AllCommitted(before, Meanwhile(w.meanwhile, j)), id, Ask(w.answers, id), w.now);
      TurnIsTaken(w, j, before);
    } else {
      UnknownRaisedBefore(t, w, j);
    }
  }

  lemma UnknownRaisedBefore(t: Tables, w: Sweeping, j: nat)
    requires j < |w.ids| && Settle(t, j, Turns(w)).1.Err?
    ensures Settle(t, j + 1, Turns(w)) == Settle(t, j, Turns(w))
  {
  }

  /** An order that ends UNKNOWN, and a sweep that raises if the venue described it usably. */
  predicate EndsUnknown(u: Tables, out: Result<nat, OrderId>, id: OrderId, usable: bool) {
    id in u.orders && u.orders[id].state == Unknown && (usable ==> out.Err?)
  }

  lemma EndsUnknownStill(t: Tables, k: nat, n: nat, turn: (nat, Tables) -> Turn, id: OrderId, usable: bool)
    requires k <= n && EndsUnknown(Settle(t, k, turn).0, Settle(t, k, turn).1, id, usable)
    requires SameRow(Settle(t, k, turn).0, Settle(t, n, turn).0, id)
    ensures EndsUnknown(Settle(t, n, turn).0, Settle(t, n, turn).1, id, usable)
  {
    RaisedForGood(t, k, n, turn);
  }

  lemma UnknownThroughout(t: Tables, w: Sweeping, j: nat)
    requires Keyed(t) && OneRowEach(w.ids) && j < |w.ids| && LeftAlone(w.meanwhile, w.ids[j]) && IsUnknown(t, w.ids[j])
    ensures EndsUnknown(Settle(t, |w.ids|, Turns(w)).0, Settle(t, |w.ids|, Turns(w)).1, w.ids[j],
                        Usable(t.orders[w.ids[j]], Ask(w.answers, w.ids[j])))
  {
    UnknownAtItsTurn(t, w, j);
    LaterTurnsLeave(t, w, j + 1, |w.ids|, w.ids[j]);
    EndsUnknownStill(t, j + 1, |w.ids|, Turns(w), w.ids[j], Usable(t.orders[w.ids[j]], Ask(w.answers, w.ids[j])));
  }

  lemma RaisedForGood(t: Tables, k: nat, n: nat, turn: (nat, Tables) -> Turn)
    requires k <= n
    ensures Settle(t, k, turn).1.Err? ==> Settle(t, n, turn).1.Err?
  {
    if Settle(t, k, turn).1.Err? {
      SettleStopped(t, k, n, turn);
    }
  }

  lemma {:induction false} UnknownWhileReported(t: Tables, w: Sweeping, vanished: nat, n: nat, id: OrderId)
    requires Keyed(t) && LeftAlone(w.meanwhile, id) && id in t.orders
    ensures var u := Folded(t, n, Reports(w, vanished)); Keyed(u) && id in u.orders && u.orders[id] == t.orders[id]
  {
    if n > 0 {
      UnknownWhileReported(t, w, vanished, n - 1, id);
      CommitsLeaveOthers(Folded(t, n - 1, Reports(w, vanished)), Meanwhile(w.meanwhile, n - 1), id);
    }
  }

  /**
    A sweep leaves every order that is UNKNOWN when it starts UNKNOWN, and raises if the venue
    describes one of them usably, whatever others do to other orders.
   */
  lemma SweepLeavesUnknown(t: Tables, created: seq<OrderId>, answers: map<OrderId, Answer>, meanwhile: seq<Commits>,
                           now: Time, id: OrderId)
    requires Keyed(t) && OneRowEach(created) && id in created && IsCandidate(t, id) && t.orders[id].state == Unknown
    requires LeftAlone(meanwhile, id)
    ensures var (u, out) := Swept(t, created, answers, meanwhile, now);
            && id in u.orders && u.orders[id].state == Unknown
            && (Usable(t.orders[id], Ask(answers, id)) ==> out.Err?)
  {
    var ids := Candidates(t, created);
    var w := Sweeping(ids, answers, meanwhile, now);
    ResetSuspectedIff(ids, answers);
    if ResetSuspected(ids, answers) {
      UnknownWhileReported(t, w, Count(ids, answers, IsAbsent), |ids|, id);
    } else {
      var j :| 0 <= j < |ids| && ids[j] == id;
      UnknownThroughout(t, w, j);
    }
  }

  /**
    Recovery leaves every interrupted order UNKNOWN, and `reconcile` does not take an UNKNOWN
    order through RECONCILING. So the sweep after a recovery settles no interrupted order,
    whatever the venue answers, and raises as soon as the venue describes one of them.
   */
  lemma RecoveredOrdersAreNotSettledByTheSweep(t: Tables, created: seq<OrderId>, answers: map<OrderId, Answer>,
                                               recoveredAt: Time, meanwhile: seq<Commits>, now: Time, id: OrderId)
    requires Sane(t) && Lists(created, t) && FateAt(t, id) == Some(Interrupted) && LeftAlone(meanwhile, id)
    ensures var (u, out) := Swept(Recovered(t, created, recoveredAt), created, answers, meanwhile, now);
            && id in u.orders && u.orders[id].state == Unknown
            && (Usable(t.orders[id], Ask(answers, id)) ==> out.Err?)
  {
    InterruptedIsCandidate(t, created, recoveredAt, id);
    StaysUsable(t.orders[id], recoveredAt, Ask(answers, id));
    SweepLeavesUnknown(Recovered(t, created, recoveredAt), created, answers, meanwhile, now, id);
  }

  lemma StaysUsable(row: OrderRecord, now: Time, a: Answer)
    ensures Usable(Unknowing(row, now), a) <==> Usable(row, a)
  {
  }

  lemma InterruptedIsCandidate(t: Tables, created: seq<OrderId>, now: Time, id: OrderId)
    requires Sane(t) && Lists(created, t) && FateAt(t, id) == Some(Interrupted)
    ensures var u := Recovered(t, created, now);
            && Keyed(u) && id in created && IsCandidate(u, id) && u.orders[id] == Unknowing(t.orders[id], now)
  {
    var u := Recovered(t, created, now);
    RecoveredIs(t, created, now);
    FateAfterRecovery(t, u, now, id);
    UnresolvedIsCandidate(u, id);
    assert Keyed(u);
  }

  lemma UnresolvedIsCandidate(t: Tables, id: OrderId)
    requires FateAt(t, id) == Some(AlreadyUnresolved) && t.orders[id].ReachedVenue()
    ensures IsCandidate(t, id)
  {
  }
}
