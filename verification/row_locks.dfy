/**
  The re-entrant row lock of the order repository: any number of workers running nested
  `locked` blocks against one database.

  Each worker carries the two context variables, `_ambient` (is a transaction open) and
  `_locked_ids`; the database carries which transaction holds which row. A worker puts an
  id into `_locked_ids` before its `SELECT ... FOR UPDATE` returns, and the statement
  returns at once, locking nothing, when there is no such row.
 */
module RowLocks {
  import opened Common

  datatype Kind = Outermost | Nested | Reentered

  /** One open `locked` block: the value its token restores, and whether it was given a record. */
  datatype Frame = Frame(kind: Kind, id: OrderId, saved: set<OrderId>, found: bool)

  datatype Worker = Worker(ambient: bool, lockedIds: set<OrderId>, frames: seq<Frame>, waiting: bool) {
    function Top(): Frame
      requires frames != []
    {
      frames[|frames| - 1]
    }
  }

  const IDLE := Worker(false, {}, [], false)

  datatype State = State(rows: set<OrderId>, holder: map<OrderId, nat>, workers: map<nat, Worker>)

  const EMPTY := State({}, map[], map[])

  datatype Event =
    | Insert(id: OrderId)               // some transaction commits a new row
    | Enter(worker: nat, id: OrderId)   // as far as issuing the statement
    | Acquire(worker: nat)              // the statement returns, if it can
    | Leave(worker: nat)                // the block ends, normally or by an exception

  function TheWorker(s: State, w: nat): Worker {
    if w in s.workers then s.workers[w] else IDLE
  }

  function Put(s: State, w: nat, t: Worker): State {
    s.(workers := s.workers[w := t])
  }

  function Push(t: Worker, f: Frame): Worker {
    t.(frames := t.frames + [f])
  }

  /** Rows another transaction holds keep a statement waiting. */
  predicate Blocked(s: State, w: nat, id: OrderId) {
    id in s.rows && id in s.holder && s.holder[id] != w
  }

  function DoEnter(s: State, w: nat, id: OrderId): State {
    var t := TheWorker(s, w);
    if t.waiting then s
    else if t.ambient && id in t.lockedIds then
      Put(s, w, Push(t, Frame(Reentered, id, t.lockedIds, id in s.rows)))
    else
      var kind := if t.ambient then Nested else Outermost;
      Put(s, w, Worker(true, t.lockedIds + {id}, t.frames + [Frame(kind, id, t.lockedIds, false)], true))
  }

  function DoAcquire(s: State, w: nat): State {
    var t := TheWorker(s, w);
    if !t.waiting || t.frames == [] || Blocked(s, w, t.Top().id) then s
    else
      var id := t.Top().id;
      var found := id in s.rows;
      var inside := t.(waiting := false, frames := t.frames[|t.frames| - 1 := t.Top().(found := found)]);
      Put(s, w, inside).(holder := if found then s.holder[id := w] else s.holder)
  }

  function DoLeave(s: State, w: nat): State {
    var t := TheWorker(s, w);
    if t.frames == [] then s
    else
      var rest := t.frames[..|t.frames| - 1];
      match t.Top().kind
      case Reentered => Put(s, w, t.(frames := rest, waiting := false))
      case Nested => Put(s, w, t.(frames := rest, waiting := false, lockedIds := t.Top().saved))
      case Outermost =>
        Put(s, w, Worker(false, t.Top().saved, rest, false)).(
          holder := map id | id in s.holder && s.holder[id] != w :: s.holder[id])
  }

  function Next(s: State, e: Event): State {
    match e
    case Insert(id) => s.(rows := s.rows + {id})
    case Enter(w, id) => DoEnter(s, w, id)
    case Acquire(w) => DoAcquire(s, w)
    case Leave(w) => DoLeave(s, w)
  }

  function Run(s: State, events: seq<Event>): State
    decreases |events|
  {
    if events == [] then s else Run(Next(s, events[0]), events[1..])
  }

  /** The worker is inside a block for this order that was given its record. */
  predicate Inside(s: State, w: nat, id: OrderId) {
    w in s.workers
    && exists k :: 0 <= k < |s.workers[w].frames| && InsideFrame(s.workers[w], k) && s.workers[w].frames[k].id == id
  }

  predicate InsideFrame(t: Worker, k: nat)
    requires k < |t.frames|
  {
    t.frames[k].found && !(t.waiting && k == |t.frames| - 1)
  }

  /** The engine's convention: a block that was given no record raises instead of going on. */
  predicate Polite(s: State, e: Event) {
    e.Enter? ==> var t := TheWorker(s, e.worker); t.frames == [] || t.waiting || t.Top().found
  }

  predicate AllPolite(s: State, events: seq<Event>)
    decreases |events|
  {
    events == [] || (Polite(s, events[0]) && AllPolite(Next(s, events[0]), events[1..]))
  }

  // ------------------------------------------------------------------
  // The invariant
  // ------------------------------------------------------------------

  /** What `_locked_ids` must be, given the blocks that are open. */
  function IdsOf(frames: seq<Frame>): set<OrderId> {
    if frames == [] then {}
    else
      var top := frames[|frames| - 1];
      if top.kind.Reentered? then IdsOf(frames[..|frames| - 1]) else IdsOf(frames[..|frames| - 1]) + {top.id}
  }

  predicate WellNested(frames: seq<Frame>) {
    frames == [] ||
    (var n := |frames| - 1;
     var top := frames[n];
     && WellNested(frames[..n])
     && (top.kind.Outermost? <==> n == 0)
     && top.saved == IdsOf(frames[..n])
     && (top.kind.Reentered? <==> top.id in top.saved)
     && (n > 0 ==> frames[n - 1].found))
  }

  predicate WorkerSound(t: Worker) {
    && (t.ambient <==> t.frames != [])
    && t.lockedIds == IdsOf(t.frames)
    && WellNested(t.frames)
    && (t.waiting ==> t.frames != [] && !t.Top().kind.Reentered? && !t.Top().found)
  }

  /** Every id whose block found its row is held by this worker's transaction. */
  predicate Holds(s: State, w: nat, t: Worker) {
    forall k :: 0 <= k < |t.frames| && t.frames[k].found ==>
      t.frames[k].id in s.holder && s.holder[t.frames[k].id] == w
  }

  /** Its outermost statement has returned. */
  predicate HasSettledIn(t: Worker) {
    t.frames != [] && (t.waiting ==> |t.frames| > 1)
  }

  predicate Inv(s: State) {
    && (forall w <- s.workers :: WorkerSound(s.workers[w]) && Holds(s, w, s.workers[w]))
    && (forall id <- s.holder :: s.holder[id] in s.workers && HasSettledIn(s.workers[s.holder[id]]))
  }

  lemma {:induction false} IdsAreFound(frames: seq<Frame>, id: OrderId) returns (k: nat)
    requires WellNested(frames) && id in IdsOf(frames)
    ensures k < |frames| && frames[k].id == id && !frames[k].kind.Reentered?
    ensures k < |frames| - 1 ==> frames[k].found
  {
    var n := |frames| - 1;
    if !frames[n].kind.Reentered? && frames[n].id == id {
      k := n;
    } else {
      k := IdsAreFound(frames[..n], id);
    }
  }

  /** A step of one worker that takes no row from another. */
  lemma OneWorkerMoves(s: State, t: State, w: nat)
    requires Inv(s) && t.workers == s.workers[w := TheWorker(t, w)]
    requires WorkerSound(TheWorker(t, w)) && Holds(t, w, TheWorker(t, w))
    requires forall id <- s.holder :: s.holder[id] != w ==> id in t.holder && t.holder[id] == s.holder[id]
    requires forall id <- t.holder :: (id in s.holder && t.holder[id] == s.holder[id]) || t.holder[id] == w
    requires (exists id :: id in t.holder && t.holder[id] == w) ==> HasSettledIn(TheWorker(t, w))
    ensures Inv(t)
  {
    forall v <- t.workers
      ensures WorkerSound(t.workers[v]) && Holds(t, v, t.workers[v])
    {
      if v != w {
        assert Holds(s, v, s.workers[v]);
      }
    }
  }

  lemma EnterKeeps(s: State, w: nat, id: OrderId)
    requires Inv(s) && Polite(s, Enter(w, id))
    ensures Inv(DoEnter(s, w, id))
  {
    var t := TheWorker(s, w);
    if !t.waiting {
      var after := DoEnter(s, w, id);
      var u := TheWorker(after, w);
      assert u.frames[..|u.frames| - 1] == t.frames;
      if t.ambient && id in t.lockedIds {
        var k := IdsAreFound(t.frames, id);
        assert t.frames[k].found && Holds(s, w, t);
      }
      OneWorkerMoves(s, after, w);
    }
  }

  lemma AcquireKeeps(s: State, w: nat)
    requires Inv(s)
    ensures Inv(DoAcquire(s, w))
  {
    var t := TheWorker(s, w);
    if t.waiting && t.frames != [] && !Blocked(s, w, t.Top().id) {
      var after := DoAcquire(s, w);
      var u := TheWorker(after, w);
      assert u.frames[..|u.frames| - 1] == t.frames[..|t.frames| - 1];
      assert WorkerSound(u);
      OneWorkerMoves(s, after, w);
    }
  }

  /** What is left of a worker when its innermost block ends. */
  lemma RestIsSound(t: Worker, u: Worker)
    requires WorkerSound(t) && t.frames != []
    requires u.frames == t.frames[..|t.frames| - 1] && !u.waiting
    requires u.lockedIds == (if t.Top().kind.Reentered? then t.lockedIds else t.Top().saved)
    requires u.ambient == !t.Top().kind.Outermost?
    ensures WorkerSound(u)
  {
  }

  lemma LeaveKeeps(s: State, w: nat)
    requires Inv(s)
    ensures Inv(DoLeave(s, w))
  {
    var t := TheWorker(s, w);
    if t.frames != [] {
      var after := DoLeave(s, w);
      RestIsSound(t, TheWorker(after, w));
      assert Holds(s, w, t);
      OneWorkerMoves(s, after, w);
    }
  }

  lemma {:induction false} RunKeeps(s: State, events: seq<Event>)
    requires Inv(s) && AllPolite(s, events)
    ensures Inv(Run(s, events))
    decreases |events|
  {
    if events != [] {
      var e := events[0];
      if e.Enter? {
        EnterKeeps(s, e.worker, e.id);
      } else if e.Acquire? {
        AcquireKeeps(s, e.worker);
      } else if e.Leave? {
        LeaveKeeps(s, e.worker);
      }
      RunKeeps(Next(s, e), events[1..]);
    }
  }

  // ------------------------------------------------------------------
  // The guarantees
  // ------------------------------------------------------------------

  /** Whatever the interleaving, no two workers are inside the same order. */
  lemma NoTwoInside(events: seq<Event>, v: nat, w: nat, id: OrderId)
    requires AllPolite(EMPTY, events)
    requires Inside(Run(EMPTY, events), v, id) && Inside(Run(EMPTY, events), w, id)
    ensures v == w
  {
    RunKeeps(EMPTY, events);
  }

  /** An order already held is entered again at once, even when other transactions queue for it. */
  lemma ReentryNeverWaits(events: seq<Event>, w: nat, id: OrderId)
    requires AllPolite(EMPTY, events)
    requires Inside(Run(EMPTY, events), w, id) && !TheWorker(Run(EMPTY, events), w).waiting
    ensures var s := Run(EMPTY, events);
            var again := Next(s, Enter(w, id));
            var t := TheWorker(again, w);
            && t.ambient && |t.frames| == |TheWorker(s, w).frames| + 1 && t.Top().id == id
            && (if id in TheWorker(s, w).lockedIds then !t.waiting && again.holder == s.holder
                else !TheWorker(Next(again, Acquire(w)), w).waiting)
  {
    RunKeeps(EMPTY, events);
  }

  /** `_locked_ids` names rows the transaction holds, except one it may still be waiting for or not have found. */
  lemma LockedIdsAreHeld(events: seq<Event>, w: nat, id: OrderId)
    requires AllPolite(EMPTY, events)
    requires w in Run(EMPTY, events).workers && id in Run(EMPTY, events).workers[w].lockedIds
    ensures var s := Run(EMPTY, events);
            var t := s.workers[w];
            && t.frames != []
            && ((id in s.holder && s.holder[id] == w)
                || (t.Top().id == id && !t.Top().found && !t.Top().kind.Reentered?))
  {
    RunKeeps(EMPTY, events);
    var s := Run(EMPTY, events);
    var k := IdsAreFound(s.workers[w].frames, id);
  }

  /** Leaving the outermost block restores both context variables and releases every row. */
  lemma OutermostLeavesNothing(events: seq<Event>, w: nat)
    requires AllPolite(EMPTY, events)
    requires |TheWorker(Run(EMPTY, events), w).frames| == 1
    ensures var t := Next(Run(EMPTY, events), Leave(w));
            && TheWorker(t, w) == IDLE
            && (forall id <- t.holder :: t.holder[id] != w)
            && (forall id <- Run(EMPTY, events).holder :: Run(EMPTY, events).holder[id] != w ==>
                  id in t.holder && t.holder[id] == Run(EMPTY, events).holder[id])
  {
    RunKeeps(EMPTY, events);
  }

  /** A block, entered and left again, restores `_locked_ids` and the open blocks exactly. */
  lemma LeaveUndoesEnter(events: seq<Event>, w: nat, id: OrderId)
    requires AllPolite(EMPTY, events) && !TheWorker(Run(EMPTY, events), w).waiting
    ensures var s := Run(EMPTY, events);
            && TheWorker(DoLeave(DoEnter(s, w, id), w), w) == TheWorker(s, w)
            && TheWorker(DoLeave(DoAcquire(DoEnter(s, w, id), w), w), w) == TheWorker(s, w)
  {
    RunKeeps(EMPTY, events);
    var s := Run(EMPTY, events);
    var entered := DoEnter(s, w, id);
    EnterThenLeave(s, w, id);
    AcquireThenLeave(entered, w);
  }

  lemma EnterThenLeave(s: State, w: nat, id: OrderId)
    requires Inv(s) && !TheWorker(s, w).waiting
    ensures TheWorker(DoLeave(DoEnter(s, w, id), w), w) == TheWorker(s, w)
    ensures TheWorker(DoEnter(s, w, id), w).frames != []
  {
    var t := TheWorker(s, w);
    assert TheWorker(DoEnter(s, w, id), w).frames[..|t.frames|] == t.frames;
  }

  /** The statement's answer does not outlive the block. */
  lemma AcquireThenLeave(s: State, w: nat)
    requires TheWorker(s, w).frames != []
    ensures TheWorker(DoLeave(DoAcquire(s, w), w), w) == TheWorker(DoLeave(s, w), w)
  {
    var t := TheWorker(s, w);
    var u := TheWorker(DoAcquire(s, w), w);
    assert u.frames[..|u.frames| - 1] == t.frames[..|t.frames| - 1];
  }

  // ------------------------------------------------------------------
  // Waiting
  // ------------------------------------------------------------------

  /** Every open block of the worker concerns one order, as the engine's mutators' do. */
  predicate OneOrder(t: Worker) {
    forall i, j :: 0 <= i < |t.frames| && 0 <= j < |t.frames| ==> t.frames[i].id == t.frames[j].id
  }

  /** The worker waits for a row another transaction holds. */
  predicate IsStuck(s: State, w: nat) {
    w in s.workers && s.workers[w].waiting && s.workers[w].frames != [] && Blocked(s, w, s.workers[w].Top().id)
  }

  /** Then nobody waits for a worker that waits: some transaction can always go on. */
  lemma NobodyWaitsForAWaiter(events: seq<Event>, w: nat)
    requires AllPolite(EMPTY, events)
    requires forall v <- Run(EMPTY, events).workers :: OneOrder(Run(EMPTY, events).workers[v])
    requires IsStuck(Run(EMPTY, events), w)
    ensures var s := Run(EMPTY, events);
            var h := s.holder[s.workers[w].Top().id];
            h in s.workers && h != w && !s.workers[h].waiting
  {
    RunKeeps(EMPTY, events);
    var s := Run(EMPTY, events);
    var h := s.holder[s.workers[w].Top().id];
    var t := s.workers[h];
    if t.waiting {
      FirstIdIsBelow(t.frames);
    }
  }

  lemma {:induction false} FirstIdIsBelow(frames: seq<Frame>)
    requires WellNested(frames) && frames != []
    ensures frames[0].id in IdsOf(frames)
    ensures |frames| > 1 ==> frames[0].id in IdsOf(frames[..|frames| - 1])
  {
    if |frames| > 1 {
      FirstIdIsBelow(frames[..|frames| - 1]);
    }
  }

  lemma Unroll(s: State, e: Event, rest: seq<Event>)
    ensures Run(s, [e] + rest) == Run(Next(s, e), rest)
    ensures AllPolite(s, [e] + rest) <==> Polite(s, e) && AllPolite(Next(s, e), rest)
  {
    assert ([e] + rest)[1..] == rest;
  }

  /** With two orders in one transaction it is otherwise: each waits for the other. */
  lemma CrossedOrdersDeadlock(a: OrderId, b: OrderId)
    requires a != b
    ensures exists events ::
              AllPolite(EMPTY, events) && IsStuck(Run(EMPTY, events), 0) && IsStuck(Run(EMPTY, events), 1)
  {
    var both := State({a, b}, map[], map[]);
    var rest := [Enter(0, a)] + ([Acquire(0)] + ([Enter(1, b)] + ([Acquire(1)] + ([Enter(0, b)] + ([Enter(1, a)] + [])))));
    var events := [Insert(a)] + ([Insert(b)] + rest);
    Unroll(EMPTY, Insert(a), [Insert(b)] + rest);
    Unroll(State({a}, map[], map[]), Insert(b), rest);
    assert {a} + {b} == {a, b} && {} + {a} == {a};
    Cross(both, a, b, rest);
  }

  function Holding(id: OrderId): Worker {
    Worker(true, {id}, [Frame(Outermost, id, {}, true)], false)
  }

  /** A free row is entered at once. */
  lemma EntersFreeRow(s: State, w: nat, id: OrderId)
    requires TheWorker(s, w) == IDLE && id in s.rows && id !in s.holder
    ensures DoAcquire(DoEnter(s, w, id), w) == Put(s, w, Holding(id)).(holder := s.holder[id := w])
  {
    var asked := Worker(true, {id}, [Frame(Outermost, id, {}, false)], true);
    assert IDLE.lockedIds + {id} == {id} && IDLE.frames + asked.frames == asked.frames;
    assert DoEnter(s, w, id) == Put(s, w, asked);
    assert asked.frames[0 := asked.Top().(found := true)] == Holding(id).frames;
    assert Put(s, w, asked).workers[w := Holding(id)] == s.workers[w := Holding(id)];
  }

  lemma Cross(s: State, a: OrderId, b: OrderId, rest: seq<Event>)
    requires a != b && s == State({a, b}, map[], map[])
    requires rest == [Enter(0, a)] + ([Acquire(0)] + ([Enter(1, b)] + ([Acquire(1)] + ([Enter(0, b)] + ([Enter(1, a)] + [])))))
    ensures AllPolite(s, rest) && IsStuck(Run(s, rest), 0) && IsStuck(Run(s, rest), 1)
  {
    EntersFreeRow(s, 0, a);
    var s1 := Next(s, Enter(0, a));
    var s2 := Next(s1, Acquire(0));
    EntersFreeRow(s2, 1, b);
    var s3 := Next(s2, Enter(1, b));
    var s4 := Next(s3, Acquire(1));
    CrossingWaits(s4, a, b);
    var s5 := Next(s4, Enter(0, b));
    Unroll(s, Enter(0, a), rest[1..]);
    Unroll(s1, Acquire(0), rest[2..]);
    Unroll(s2, Enter(1, b), rest[3..]);
    Unroll(s3, Acquire(1), rest[4..]);
    Unroll(s4, Enter(0, b), rest[5..]);
    Unroll(s5, Enter(1, a), rest[6..]);
  }

  lemma CrossingWaits(s: State, a: OrderId, b: OrderId)
    requires a != b && a in s.rows && b in s.rows && a in s.holder && b in s.holder
    requires s.holder[a] == 0 && s.holder[b] == 1
    requires TheWorker(s, 0) == Holding(a) && TheWorker(s, 1) == Holding(b)
    ensures var t := DoEnter(DoEnter(s, 0, b), 1, a);
            IsStuck(t, 0) && IsStuck(t, 1)
    ensures Polite(s, Enter(0, b)) && Polite(DoEnter(s, 0, b), Enter(1, a))
  {
  }

  /**
    The convention is needed: a worker that goes on inside a block which found no row re-enters
    it without a lock once the row exists, next to a worker that does hold it.
   */
  lemma ImpoliteWorkersMeet(id: OrderId)
    ensures exists events :: Inside(Run(EMPTY, events), 0, id) && Inside(Run(EMPTY, events), 1, id)
  {
    var s1 := Next(EMPTY, Enter(0, id));
    var s2 := Next(s1, Acquire(0));
    assert TheWorker(s2, 0) == Worker(true, {id}, [Frame(Outermost, id, {}, false)], false);
    var s3 := Next(s2, Insert(id));
    var s4 := Next(s3, Enter(1, id));
    var s5 := Next(s4, Acquire(1));
    assert TheWorker(s5, 1) == Worker(true, {id}, [Frame(Outermost, id, {}, true)], false);
    assert InsideFrame(TheWorker(s5, 1), 0);
    var s6 := Next(s5, Enter(0, id));
    assert InsideFrame(TheWorker(s6, 0), 1) && TheWorker(s6, 1) == TheWorker(s5, 1);
    Unroll(s5, Enter(0, id), []);
    Unroll(s4, Acquire(1), [Enter(0, id)] + []);
    Unroll(s3, Enter(1, id), [Acquire(1)] + ([Enter(0, id)] + []));
    Unroll(s2, Insert(id), [Enter(1, id)] + ([Acquire(1)] + ([Enter(0, id)] + [])));
    Unroll(s1, Acquire(0), [Insert(id)] + ([Enter(1, id)] + ([Acquire(1)] + ([Enter(0, id)] + []))));
    Unroll(EMPTY, Enter(0, id), [Acquire(0)] + ([Insert(id)] + ([Enter(1, id)] + ([Acquire(1)] + ([Enter(0, id)] + [])))));
  }
}
