/** Serial order and what it takes the lock for, honest durability, restarts, and what an unlocked read can do. */
module PaperTheorems {
  import opened Common
  import opened PaperEngine
  import opened PaperService

  // ------------------------------------------------------------------
  // Reads in a history
  // ------------------------------------------------------------------

  function Window(history: seq<Entry>, from: nat): (nows: seq<Time>)
    requires from <= |history| && OnlyLooks(history, from)
    ensures |nows| == |history| - from
  {
    seq(|history| - from, i requires 0 <= i < |history| - from => history[from + i].now)
  }

  lemma {:induction false} TouchedLast(e: Engine, touches: seq<Touch>, t: Touch)
    ensures AllTouched(e, touches + [t]) == Touched(AllTouched(e, touches), t)
    decreases |touches|
  {
    if touches == [] {
      assert [t][1..] == [];
    } else {
      assert (touches + [t])[1..] == touches[1..] + [t];
      TouchedLast(Touched(e, touches[0]), touches[1..], t);
    }
  }

  lemma OneMoreRead(e: Engine, nows: seq<Time>, now: Time)
    ensures AllTouched(e, Reads(nows + [now])) == Rolled(AllTouched(e, Reads(nows)), now)
  {
    TouchedLast(e, Reads(nows), Peeked(now));
    assert Reads(nows + [now]) == Reads(nows) + [Peeked(now)];
  }

  /** Entries that are all reads lead from the account before them to that account, read as often. */
  lemma {:induction false} LooksAreReads(risk: Risk, history: seq<Entry>, k: nat)
    requires IsHistory(history) && 0 < k <= |history| && OnlyLooks(history, k)
    ensures Replay(risk, history)
            == var was := Replay(risk, history[..k]); was.(engine := AllTouched(was.engine, Reads(Window(history, k))))
  {
    var n := |history| - 1;
    if k <= n {
      assert history[..n][..k] == history[..k];
      LooksAreReads(risk, history[..n], k);
      assert Window(history, k) == Window(history[..n], k) + [history[n].now];
      OneMoreRead(Replay(risk, history[..k]).engine, Window(history[..n], k), history[n].now);
    } else {
      assert history[..k] == history && Window(history, k) == [] && Reads([]) == [];
    }
  }

  lemma {:induction false} ReadsKeepTheBook(e: Engine, nows: seq<Time>)
    ensures var after := AllTouched(e, Reads(nows)); after.book == e.book && after.config == e.config
    decreases |nows|
  {
    if nows != [] {
      assert Reads(nows)[1..] == Reads(nows[1..]);
      ReadsKeepTheBook(Rolled(e, nows[0]), nows[1..]);
    }
  }

  // ------------------------------------------------------------------
  // Serial order
  // ------------------------------------------------------------------

  /**
    Every interleaving leaves the account where the calls lead, in the order in which they took
    the lock, and only reads come between the account a call was ruled on and its change.
   */
  lemma CallsFollowLockOrder(risk: Risk, blank: Engine, events: seq<Event>)
    ensures var s := Reached(risk, blank, events);
            && IsHistory(s.history) && s.history[0] == Started(blank) && s.account == Replay(risk, s.history)
            && RuledInOrder(s.history)
            && forall i, j :: 0 <= i < j < |s.history| && s.history[i].Called? && s.history[j].Called? ==>
                 s.history[i].ticket < s.history[j].ticket < s.tickets
  {
    ReachedInv(risk, blank, events);
    FirstEntryStays(risk, Boot(blank), events);
  }

  lemma {:induction false} FirstEntryStays(risk: Risk, s: State, events: seq<Event>)
    requires s.history != []
    ensures s.history <= Run(risk, s, events).history
    decreases |events|
  {
    if events != [] {
      FirstEntryStays(risk, Next(risk, s, events[0]), events[1..]);
    }
  }

  /** A listed submission among the entries, and the account it was ruled on. */
  predicate IsRuling(history: seq<Entry>, j: nat) {
    j < |history| && history[j].Called? && history[j].call.Submit? && history[j].fetched.listed
    && 0 < history[j].mark <= j
  }

  /**
    The account a submission changes has the very book it was ruled on. The session is the one
    it was ruled on exactly when no read since the snapshot began on another date, or the
    snapshot's session was new anyway.
   */
  lemma RuledOnTheAccountIff(risk: Risk, history: seq<Entry>, j: nat)
    requires IsHistory(history) && RuledInOrder(history) && IsRuling(history, j)
    ensures var c := history[j];
            var snapshot := Replay(risk, history[..c.mark]);
            var a := Replay(risk, history[..j]);
            && a.engine.book == snapshot.engine.book && a.engine.config == snapshot.engine.config
            && a.lastEntry == snapshot.lastEntry && snapshot.engine.session.Some?
            && (Rolled(a.engine, c.began) == snapshot.engine
                <==> (forall i :: c.mark <= i < j ==> Date(history[i].now) == Date(c.began))
                     || snapshot.engine.session.value == NewSession(snapshot.engine.config, Date(c.began)))
  {
    var c := history[j];
    var before := history[..j];
    var snapshot := Replay(risk, history[..c.mark]).engine;
    assert before[..c.mark] == history[..c.mark] && history[..c.mark][c.mark - 1] == Looked(c.began);
    assert snapshot.session.Some? && snapshot.session.value.date == Date(c.began);
    assert OnlyLooks(before, c.mark);
    LooksAreReads(risk, before, c.mark);
    var nows := Window(before, c.mark);
    ReadsKeepTheBook(snapshot, nows);
    assert forall i :: 0 <= i < |nows| ==> nows[i] == history[c.mark + i].now;
    assert forall i :: c.mark <= i < j ==> history[i].now == nows[i - c.mark];
    if nows == [] {
      assert Reads(nows) == [];
    } else {
      AfterReads(snapshot, nows);
    }
  }

  /** No read of another date falls between a submission's snapshot and its change. */
  predicate NoStrayReads(history: seq<Entry>) {
    forall j :: 0 <= j < |history| && IsRuling(history, j) ==>
      forall i :: history[j].mark <= i < j && history[i].Looked? ==> Date(history[i].now) == Date(history[j].began)
  }

  /** The same calls, each in one piece. */
  function Serial(risk: Risk, history: seq<Entry>): Account
    requires IsHistory(history)
  {
    var n := |history| - 1;
    match history[n]
    case Started(engine) => Account(engine, map[])
    case Called(_, call, fetched, began, now, _) =>
      Whole(risk, Serial(risk, history[..n]), call, fetched, began, now)
    case Looked(now) =>
      var before := Serial(risk, history[..n]);
      before.(engine := Rolled(before.engine, now))
  }

  lemma RulingIsWhole(risk: Risk, snapshot: Engine, a: Account, q: Request, f: Fetched, began: Time, now: Time)
    requires f.listed && Rolled(a.engine, began) == snapshot && a.engine == snapshot
    ensures Carried(risk, snapshot, a, Submit(q), f, began, now) == Whole(risk, a, Submit(q), f, began, now)
  {
    assert a.(engine := Rolled(a.engine, began)) == a;
  }

  lemma UnruledIsWhole(risk: Risk, snapshot: Engine, a: Account, call: Call, f: Fetched, began: Time, now: Time)
    requires !call.Submit? || (!f.listed && snapshot.book.index == a.engine.book.index)
    ensures Carried(risk, snapshot, a, call, f, began, now) == Whole(risk, a, call, f, began, now)
  {
    if call.Submit? {
      RolledTwice(a.engine, began, began);
      SameDayApply(a.engine, Rolled(a.engine, began), Place(call.request.id, call.request.symbol, None), began);
    }
  }

  lemma CallIsWhole(risk: Risk, history: seq<Entry>)
    requires IsHistory(history) && RuledInOrder(history) && NoStrayReads(history)
    requires history[|history| - 1].Called?
    ensures var n := |history| - 1;
            var c := history[n];
            Replay(risk, history) == Whole(risk, Replay(risk, history[..n]), c.call, c.fetched, c.began, c.now)
  {
    var n := |history| - 1;
    var c := history[n];
    var a := Replay(risk, history[..n]);
    var snapshot := Replay(risk, history[..c.mark]).engine;
    if IsRuling(history, n) {
      RuledOnTheAccountIff(risk, history, n);
      SameDayEngine(risk, history, n);
      RulingIsWhole(risk, snapshot, a, c.call.request, c.fetched, c.began, c.now);
    } else {
      assert history[..n][..c.mark] == history[..c.mark];
      LooksAreReads(risk, history[..n], c.mark);
      ReadsKeepTheBook(snapshot, Window(history[..n], c.mark));
      UnruledIsWhole(risk, snapshot, a, c.call, c.fetched, c.began, c.now);
    }
  }

  lemma SameDayEngine(risk: Risk, history: seq<Entry>, j: nat)
    requires IsHistory(history) && RuledInOrder(history) && NoStrayReads(history) && IsRuling(history, j)
    ensures Replay(risk, history[..j]).engine == Replay(risk, history[..history[j].mark]).engine
  {
    var c := history[j];
    var before := history[..j];
    var snapshot := Replay(risk, history[..c.mark]).engine;
    assert before[..c.mark] == history[..c.mark] && history[..c.mark][c.mark - 1] == Looked(c.began);
    assert OnlyLooks(before, c.mark);
    LooksAreReads(risk, before, c.mark);
    var nows := Window(before, c.mark);
    assert forall i :: 0 <= i < |nows| ==> nows[i] == history[c.mark + i].now;
    if nows == [] {
      assert Reads(nows) == [];
    } else {
      AfterReads(snapshot, nows);
    }
  }

  lemma PrefixIsInOrder(history: seq<Entry>, n: nat)
    requires RuledInOrder(history) && NoStrayReads(history) && n <= |history|
    ensures RuledInOrder(history[..n]) && NoStrayReads(history[..n])
  {
    forall j | 0 <= j < n && IsRuling(history[..n], j)
      ensures forall i :: history[..n][j].mark <= i < j && history[..n][i].Looked? ==>
                Date(history[..n][i].now) == Date(history[..n][j].began)
    {
      assert IsRuling(history, j);
    }
  }

  lemma {:induction false} HistoryIsSerial(risk: Risk, history: seq<Entry>)
    requires IsHistory(history) && RuledInOrder(history) && NoStrayReads(history)
    ensures Replay(risk, history) == Serial(risk, history)
  {
    var n := |history| - 1;
    if n > 0 {
      PrefixIsInOrder(history, n);
      if !history[n].Started? {
        HistoryIsSerial(risk, history[..n]);
      }
      if history[n].Called? {
        CallIsWhole(risk, history);
      }
    }
  }

  /**
    So a run in which no read of another date falls inside a submission leaves the account
    exactly where the same calls leave it one by one, each in one piece.
   */
  lemma EveryRunIsSerial(risk: Risk, blank: Engine, events: seq<Event>)
    requires NoStrayReads(Reached(risk, blank, events).history)
    ensures var s := Reached(risk, blank, events);
            IsHistory(s.history) && s.account == Serial(risk, s.history)
  {
    ReachedInv(risk, blank, events);
    HistoryIsSerial(risk, Reached(risk, blank, events).history);
  }

  /**
    A read that does fall inside one can split it: ruled on a braked day and refused, the order
    lands on a session that no longer is. In one piece, on the account it changed, it fills.
   */
  lemma AStrayReadSplitsACall(risk: Risk, s: State, w: nat, reader: nat, f: Fetched, now: Time, terms: Position)
    requires Inv(risk, s) && reader != w && f.listed
    requires TaskOf(s, reader).Reading? && TaskOf(s, w).Ruling?
    requires var t := s.tasks[w];
             && LockedOn(t.snapshot, Date(t.began)) && Date(s.tasks[reader].began) != Date(t.began)
             && OtherwiseFills(s.account.engine, Place(t.request.id, t.request.symbol, Some(terms)))
    requires forall v: View :: risk(s.tasks[w].request, f, v) == if MayEnter(v.account) then Approved(Some(terms)) else Refused
    ensures var t := s.tasks[w];
            var after := Next(risk, s, ReadEnds(reader));
            && Next(risk, after, Mutate(w, f, now)).account.engine.book.positions == s.account.engine.book.positions
            && Whole(risk, after.account, Submit(t.request), f, t.began, now).engine.book.positions
               == s.account.engine.book.positions + [terms]
  {
    var t := s.tasks[w];
    var after := Next(risk, s, ReadEnds(reader));
    assert after.tasks[w] == t;
    var renewed := Rolled(after.account.engine, t.began);
    assert renewed.session.value == NewSession(renewed.config, Date(t.began));
    assert MayEnter(renewed) && renewed.book == s.account.engine.book;
  }

  // ------------------------------------------------------------------
  // Retries
  // ------------------------------------------------------------------

  /** In every run a submission whose id can still be replayed changes nothing but the day's session. */
  lemma ARetryIsAnswered(risk: Risk, blank: Engine, events: seq<Event>, j: nat)
    requires var h := Reached(risk, blank, events).history;
             0 < j < |h| && h[0] == Started(blank) && h[j].Called? && h[j].call.Submit?
             && h[j].call.request.id in Replay(risk, h[..j]).engine.book.index
    ensures var h := Reached(risk, blank, events).history;
            var before := Replay(risk, h[..j]);
            Replay(risk, h[..j + 1]) == before.(engine := Rolled(before.engine, h[j].began))
  {
    ReachedInv(risk, blank, events);
    var h := Reached(risk, blank, events).history;
    var c := h[j];
    var snapshot := Replay(risk, h[..c.mark]).engine;
    assert h[..j][..c.mark] == h[..c.mark] && h[..j + 1][..j] == h[..j] && h[..j + 1][..c.mark] == h[..c.mark];
    assert OnlyLooks(h[..j], c.mark);
    LooksAreReads(risk, h[..j], c.mark);
    ReadsKeepTheBook(snapshot, Window(h[..j], c.mark));
  }

  // ------------------------------------------------------------------
  // Without the lock
  // ------------------------------------------------------------------

  /** The service as it would be if taking the lock never waited. */
  function NextUnlocked(risk: Risk, s: State, e: Event): State {
    if e.Acquire? then Next(risk, s.(holder := None), e) else Next(risk, s, e)
  }

  function RunUnlocked(risk: Risk, s: State, events: seq<Event>): State
    decreases |events|
  {
    if events == [] then s else RunUnlocked(risk, NextUnlocked(risk, s, events[0]), events[1..])
  }

  /** Every account there is, in memory, stored or on its way there, is within the limits. */
  predicate AllWithinLimits(s: State) {
    && WithinLimits(s.account.engine)
    && (s.stored.row.Some? ==> WithinLimits(s.stored.row.value))
    && (forall w <- s.tasks :: s.tasks[w].Saving? ==> WithinLimits(s.tasks[w].document))
  }

  lemma RuledWithinLimits(risk: Risk, snapshot: Engine, a: Account, q: Request, f: Fetched, began: Time)
    requires WithinLimits(a.engine)
    ensures WithinLimits(Ruled(risk, snapshot, a, q, f, began).engine)
  {
    var v := risk(q, f, View(snapshot, a.engine.book.emergencyStopped, LastEntry(a, q.symbol), began));
    if v.Refused? {
      CallWithinLimits(a.engine, Refuse(q.id), began);
    } else {
      CallWithinLimits(a.engine, Place(q.id, q.symbol, v.terms), began);
    }
  }

  lemma DirectWithinLimits(a: Account, call: Call, f: Fetched, began: Time, now: Time)
    requires !call.Submit? && WithinLimits(a.engine)
    ensures WithinLimits(Direct(a, call, f, began, now).engine)
  {
    match call
    case Manage => CallWithinLimits(a.engine, Tick(f.marks), began);
    case Close(symbol, minted) => CallWithinLimits(a.engine, ClosePosition(minted, symbol, f.mark), now);
    case StartOver(balance) => CallWithinLimits(a.engine, Reset(balance), now);
    case Halt(engaged) => CallWithinLimits(a.engine, EmergencyStop(engaged), now);
  }

  lemma MutateWithinLimits(risk: Risk, s: State, w: nat, f: Fetched, now: Time)
    requires AllWithinLimits(s)
    ensures AllWithinLimits(MutateStep(risk, s, w, f, now))
  {
    var t := TaskOf(s, w);
    if t.Holding? && !t.call.Submit? {
      DirectWithinLimits(s.account, t.call, f, t.began, now);
    } else if t.Asking? {
      CallWithinLimits(s.account.engine, Place(t.request.id, t.request.symbol, None), t.began);
    } else if t.Ruling? {
      RuledWithinLimits(risk, t.snapshot, s.account, t.request, f, t.began);
    }
  }

  lemma EventWithinLimits(risk: Risk, s: State, e: Event)
    requires AllWithinLimits(s) && (e.Restart? ==> WithinLimits(e.blank))
    ensures AllWithinLimits(NextUnlocked(risk, s, e))
  {
    if e.Mutate? {
      MutateWithinLimits(risk, s, e.task, e.fetched, e.now);
    }
  }

  /**
    What the lock is documented to prevent, a symbol opened twice by two submissions that both
    found it closed, the engine's gate prevents on its own: with the lock or without it, no
    interleaving has two positions in one symbol, or more of them or more exposure than allowed.
   */
  lemma {:induction false} TheGateNeedsNoLock(risk: Risk, s: State, events: seq<Event>)
    requires AllWithinLimits(s) && forall e <- events :: e.Restart? ==> WithinLimits(e.blank)
    ensures AllWithinLimits(Run(risk, s, events)) && AllWithinLimits(RunUnlocked(risk, s, events))
    decreases |events|
  {
    if events != [] {
      assert events[0] in events;
      EventWithinLimits(risk, s, events[0]);
      assert Next(risk, s, events[0]) == s || Next(risk, s, events[0]) == NextUnlocked(risk, s, events[0]);
      TheGateNeedsNoLock(risk, Next(risk, s, events[0]), events[1..]);
      TheGateNeedsNoLock(risk, NextUnlocked(risk, s, events[0]), events[1..]);
    }
  }

  lemma FirstUnlocked(risk: Risk, s: State, e: Event, rest: seq<Event>)
    ensures RunUnlocked(risk, s, [e] + rest) == RunUnlocked(risk, NextUnlocked(risk, s, e), rest)
  {
    assert ([e] + rest)[1..] == rest;
  }

  /** Approves the same position for everyone, unless the symbol is open. */
  function OneAtATime(p: Position): Risk {
    (q: Request, f: Fetched, v: View) => if IsOpen(v.account.book.positions, q.symbol) then Refused else Approved(Some(p))
  }

  /** A submission and its retry, both past the lookup before either is recorded. */
  function BothPastTheLookup(q: Request, now: Time): seq<Event> {
    [Begin(0, Submit(q))] + ([Begin(1, Submit(q))] + ([Acquire(0, now)] + ([Acquire(1, now)]
    + ([Check(0)] + ([Check(1)] + [])))))
  }

  lemma BothAreAsking(blank: Engine, q: Request, p: Position, now: Time)
    requires q.id !in blank.book.index
    ensures var s := RunUnlocked(OneAtATime(p), Boot(blank), BothPastTheLookup(q, now));
            && s.account == Account(blank, map[])
            && s.tasks == map[0 := Asking(q, 0, now), 1 := Asking(q, 1, now)]
  {
    var risk := OneAtATime(p);
    var s0 := Boot(blank);
    var s1 := NextUnlocked(risk, s0, Begin(0, Submit(q)));
    var s2 := NextUnlocked(risk, s1, Begin(1, Submit(q)));
    var s3 := NextUnlocked(risk, s2, Acquire(0, now));
    var s4 := NextUnlocked(risk, s3, Acquire(1, now));
    var s5 := NextUnlocked(risk, s4, Check(0));
    FirstUnlocked(risk, s5, Check(1), []);
    FirstUnlocked(risk, s4, Check(0), [Check(1)] + []);
    FirstUnlocked(risk, s3, Acquire(1, now), [Check(0)] + ([Check(1)] + []));
    FirstUnlocked(risk, s2, Acquire(0, now), [Acquire(1, now)] + ([Check(0)] + ([Check(1)] + [])));
    FirstUnlocked(risk, s1, Begin(1, Submit(q)), [Acquire(0, now)] + ([Acquire(1, now)] + ([Check(0)] + ([Check(1)] + []))));
    FirstUnlocked(risk, s0, Begin(0, Submit(q)),
                  [Begin(1, Submit(q))] + ([Acquire(0, now)] + ([Acquire(1, now)] + ([Check(0)] + ([Check(1)] + [])))));
  }

  /**
    What it does prevent: without it, a submission fills and its retry, ruled on afterwards, is
    refused because the symbol is open, and recorded over it. The position is there, and every
    later retry is told that the order was refused.
   */
  lemma WithoutTheLockAFillIsOverwritten(blank: Engine, q: Request, p: Position, f: Fetched, now: Time)
    requires f.listed && blank.session.None? && blank.book.log == [] && blank.config.maxOrderLog >= 2
    requires OtherwiseFills(blank, Place(q.id, q.symbol, Some(p)))
    ensures var risk := OneAtATime(p);
            var s := RunUnlocked(risk, Boot(blank), BothPastTheLookup(q, now));
            var t := NextUnlocked(risk, NextUnlocked(risk, s, Snapshot(0)), Mutate(0, f, now));
            var u := NextUnlocked(risk, NextUnlocked(risk, t, Snapshot(1)), Mutate(1, f, now));
            && q.id in t.account.engine.book.index && t.account.engine.book.index[q.id]
            && IsOpen(u.account.engine.book.positions, q.symbol)
            && q.id in u.account.engine.book.index && !u.account.engine.book.index[q.id]
  {
    var risk := OneAtATime(p);
    BothAreAsking(blank, q, p, now);
    var s := RunUnlocked(risk, Boot(blank), BothPastTheLookup(q, now));
    var t := NextUnlocked(risk, NextUnlocked(risk, s, Snapshot(0)), Mutate(0, f, now));
    var e := t.account.engine;
    assert e == Opened(Rolled(blank, now), q.id, p);
    assert e.book.log == [Order(q.id, true)] && e.book.positions == blank.book.positions + [p];
    assert e.book.positions[|blank.book.positions|] == p;
    assert t.tasks[1] == Asking(q, 1, now);
    var u := NextUnlocked(risk, NextUnlocked(risk, t, Snapshot(1)), Mutate(1, f, now));
    assert u.account.engine == Rejected(Rolled(e, now), q.id);
  }

  // ------------------------------------------------------------------
  // Honest durability
  // ------------------------------------------------------------------

  /** Since the last call only reads have touched the engine. */
  lemma {:induction false} OnlyReadsSince(risk: Risk, history: seq<Entry>)
    requires IsHistory(history)
    ensures Replay(risk, history).engine == AllTouched(Settled(risk, history), Reads(Since(history).1))
  {
    var n := |history| - 1;
    if history[n].Looked? {
      OnlyReadsSince(risk, history[..n]);
      OneMoreRead(Settled(risk, history), Since(history[..n]).1, history[n].now);
    } else {
      assert Reads([]) == [];
    }
  }

  lemma CarriedHasSession(risk: Risk, snapshot: Engine, a: Account, call: Call, f: Fetched, began: Time, now: Time)
    ensures Carried(risk, snapshot, a, call, f, began, now).engine.session.Some?
  {
  }

  lemma {:induction false} SettledHasSession(risk: Risk, history: seq<Entry>)
    requires IsHistory(history) && HasCalled(history)
    ensures Settled(risk, history).session.Some?
  {
    var n := |history| - 1;
    if history[n].Looked? {
      SettledHasSession(risk, history[..n]);
    } else {
      var c := history[n];
      CarriedHasSession(risk, Replay(risk, history[..MarkOf(c, n)]).engine, Replay(risk, history[..n]),
                        c.call, c.fetched, c.began, c.now);
    }
  }

  /** The reads since the last call left the session that was stored. */
  predicate ReadsLeftNoTrace(stored: Engine, nows: seq<Time>)
    requires stored.session.Some?
  {
    || (forall k :: 0 <= k < |nows| ==> Date(nows[k]) == stored.session.value.date)
    || stored.session.value == NewSession(stored.config, Date(nows[|nows| - 1]))
  }

  /**
    Once a write has completed, whenever the lock is free and the account claims to be durable,
    the stored book is the account's. The stored session is the account's exactly when no read
    since began on another date, or the session was still new anyway.
   */
  lemma DurableMeansStored(risk: Risk, blank: Engine, events: seq<Event>)
    requires var s := Reached(risk, blank, events);
             s.holder.None? && s.stored.healthy && HasCalled(s.history)
    ensures var s := Reached(risk, blank, events);
            && s.stored.row.Some? && s.stored.row.value.session.Some?
            && s.stored.row.value.book == s.account.engine.book && s.stored.row.value.config == s.account.engine.config
            && (s.stored.row.value == s.account.engine <==> ReadsLeftNoTrace(s.stored.row.value, Since(s.history).1))
  {
    ReachedInv(risk, blank, events);
    var s := Reached(risk, blank, events);
    OnlyReadsSince(risk, s.history);
    SettledHasSession(risk, s.history);
    var nows := Since(s.history).1;
    if nows != [] {
      AfterReads(Settled(risk, s.history), nows);
    } else {
      assert Reads(nows) == [];
    }
  }

  lemma FirstThenRest(risk: Risk, s: State, e: Event, rest: seq<Event>)
    ensures Run(risk, s, [e] + rest) == Run(risk, Next(risk, s, e), rest)
  {
    assert ([e] + rest)[1..] == rest;
  }

  /** A call that lands, and a read that begins the next day. */
  function HaltThenRead(): seq<Event> {
    [Begin(0, Halt(false))] + ([Acquire(0, 0)] + ([Mutate(0, NOTHING_FETCHED, 0)] + ([SaveEnds(0, Landed)]
    + ([BeginRead(1, DAY)] + ([ReadEnds(1)] + [])))))
  }

  /** A read of the account is enough to make the claim false of the session. */
  lemma AReadUnsettlesADurableAccount(risk: Risk, blank: Engine)
    requires blank.session.None?
    ensures var s := Reached(risk, blank, HaltThenRead());
            s.holder.None? && s.stored.healthy && s.stored.row.Some? && s.stored.row.value != s.account.engine
  {
    var s0 := Boot(blank);
    var s1 := Next(risk, s0, Begin(0, Halt(false)));
    var s2 := Next(risk, s1, Acquire(0, 0));
    var s3 := Next(risk, s2, Mutate(0, NOTHING_FETCHED, 0));
    var s4 := Next(risk, s3, SaveEnds(0, Landed));
    var s5 := Next(risk, s4, BeginRead(1, DAY));
    var s6 := Next(risk, s5, ReadEnds(1));
    assert s4.stored.row == Some(s4.account.engine) && s4.account.engine.session.value.date == 0;
    assert s6.account.engine.session.value.date == 1;
    FirstThenRest(risk, s5, ReadEnds(1), []);
    FirstThenRest(risk, s4, BeginRead(1, DAY), [ReadEnds(1)] + []);
    FirstThenRest(risk, s3, SaveEnds(0, Landed), [BeginRead(1, DAY)] + ([ReadEnds(1)] + []));
    FirstThenRest(risk, s2, Mutate(0, NOTHING_FETCHED, 0),
                  [SaveEnds(0, Landed)] + ([BeginRead(1, DAY)] + ([ReadEnds(1)] + [])));
    FirstThenRest(risk, s1, Acquire(0, 0),
                  [Mutate(0, NOTHING_FETCHED, 0)] + ([SaveEnds(0, Landed)] + ([BeginRead(1, DAY)] + ([ReadEnds(1)] + []))));
    FirstThenRest(risk, s0, Begin(0, Halt(false)),
                  [Acquire(0, 0)] + ([Mutate(0, NOTHING_FETCHED, 0)] + ([SaveEnds(0, Landed)]
                  + ([BeginRead(1, DAY)] + ([ReadEnds(1)] + [])))));
  }

  // ------------------------------------------------------------------
  // Restarts
  // ------------------------------------------------------------------

  /** A restart finds the account as it stood between two calls, its index read back from the log, or starts a new one. */
  lemma RestartRestoresBetweenCalls(risk: Risk, blank: Engine, events: seq<Event>, next: Engine, answer: ReadOutcome)
    ensures var s := Reached(risk, blank, events);
            var t := Next(risk, s, Restart(next, answer));
            IsHistory(s.history) &&
            if s.stored.row.Some? && answer.Answered?
            then t.account.engine == Restored(s.stored.row.value)
                 && BetweenCalls(risk, s.history, s.stored.row.value) && t.stored.healthy
            else t.account.engine == next && (answer.Unreachable? ==> !t.stored.healthy)
  {
    ReachedInv(risk, blank, events);
  }

  /** Every account there is has an index that its log gives back. */
  predicate AllIndexed(s: State) {
    && Indexed(s.account.engine.book) && LogFits(s.account.engine)
    && (s.stored.row.Some? ==> Indexed(s.stored.row.value.book) && LogFits(s.stored.row.value))
    && (forall w <- s.tasks :: s.tasks[w].Saving? ==>
          Indexed(s.tasks[w].document.book) && LogFits(s.tasks[w].document))
  }

  /** The id the engine mints for a close is not one the log holds, as it can be if a caller chose the same. */
  predicate MintsFreshIds(s: State, e: Event) {
    e.Mutate? && TaskOf(s, e.task).Holding? && s.tasks[e.task].call.Close? ==>
      !Mentions(s.account.engine.book.log, s.tasks[e.task].call.minted)
  }

  predicate AllMintFreshIds(risk: Risk, s: State, events: seq<Event>)
    decreases |events|
  {
    events == [] || (MintsFreshIds(s, events[0]) && AllMintFreshIds(risk, Next(risk, s, events[0]), events[1..]))
  }

  /** A call keeps the index unless it records an order under an id the log holds. */
  lemma CallKeepsIndex(e: Engine, m: Mutation, now: Time)
    requires Indexed(e.book) && LogFits(e)
    requires m.Refuse? || m.ClosePosition? ==> !Mentions(e.book.log, m.id)
    ensures Indexed(Apply(e, m, now).book) && LogFits(Apply(e, m, now))
  {
    if m.Reset? {
      assert IndexOf([]) == map[];
    } else {
      var recorded := RecordedBy(e, PaperEngine.Mutated(m, now));
      TouchRecords(e, PaperEngine.Mutated(m, now));
      if recorded != [] {
        RecordingKeepsTheIndex(e.book, e.config.maxOrderLog, recorded[0].id, recorded[0].filled);
        assert recorded == [recorded[0]];
      } else {
        assert e.book.log + [] == e.book.log;
      }
    }
  }

  lemma RuledKeepsIndex(risk: Risk, snapshot: Engine, a: Account, q: Request, f: Fetched, began: Time)
    requires Indexed(a.engine.book) && LogFits(a.engine) && q.id !in a.engine.book.index
    ensures var after := Ruled(risk, snapshot, a, q, f, began).engine; Indexed(after.book) && LogFits(after)
  {
    var v := risk(q, f, View(snapshot, a.engine.book.emergencyStopped, LastEntry(a, q.symbol), began));
    if v.Refused? {
      CallKeepsIndex(a.engine, Refuse(q.id), began);
    } else {
      CallKeepsIndex(a.engine, Place(q.id, q.symbol, v.terms), began);
    }
  }

  lemma DirectKeepsIndex(a: Account, call: Call, f: Fetched, began: Time, now: Time)
    requires !call.Submit? && Indexed(a.engine.book) && LogFits(a.engine)
    requires call.Close? ==> !Mentions(a.engine.book.log, call.minted)
    ensures var after := Direct(a, call, f, began, now).engine; Indexed(after.book) && LogFits(after)
  {
    match call
    case Manage => CallKeepsIndex(a.engine, Tick(f.marks), began);
    case Close(symbol, minted) => CallKeepsIndex(a.engine, ClosePosition(minted, symbol, f.mark), now);
    case StartOver(balance) => CallKeepsIndex(a.engine, Reset(balance), now);
    case Halt(engaged) => CallKeepsIndex(a.engine, EmergencyStop(engaged), now);
  }

  lemma MutateKeepsIndex(risk: Risk, s: State, w: nat, f: Fetched, now: Time)
    requires Inv(risk, s) && AllIndexed(s) && MintsFreshIds(s, Mutate(w, f, now))
    ensures AllIndexed(MutateStep(risk, s, w, f, now))
  {
    var t := TaskOf(s, w);
    if t.Holding? && !t.call.Submit? {
      DirectKeepsIndex(s.account, t.call, f, t.began, now);
    } else if t.Asking? {
      CallKeepsIndex(s.account.engine, Place(t.request.id, t.request.symbol, None), t.began);
    } else if t.Ruling? {
      assert TaskAgrees(risk, s, s.tasks[w]);
      LooksAreReads(risk, s.history, t.mark);
      ReadsKeepTheBook(t.snapshot, Window(s.history, t.mark));
      RuledKeepsIndex(risk, t.snapshot, s.account, t.request, f, t.began);
    }
  }

  lemma RestoredIsIndexed(e: Engine)
    requires Indexed(e.book)
    ensures Restored(e) == e
  {
  }

  lemma EventKeepsIndex(risk: Risk, s: State, e: Event)
    requires Inv(risk, s) && AllIndexed(s) && MintsFreshIds(s, e)
    requires e.Restart? ==> Indexed(e.blank.book) && LogFits(e.blank)
    ensures AllIndexed(Next(risk, s, e))
  {
    if e.Mutate? {
      MutateKeepsIndex(risk, s, e.task, e.fetched, e.now);
    } else if e.Restart? {
      if s.stored.row.Some? {
        RestoredIsIndexed(s.stored.row.value);
      }
    }
  }

  lemma {:induction false} RunKeepsIndex(risk: Risk, s: State, events: seq<Event>)
    requires Inv(risk, s) && AllIndexed(s) && AllMintFreshIds(risk, s, events)
    requires forall e <- events :: e.Restart? ==> Indexed(e.blank.book) && LogFits(e.blank)
    ensures AllIndexed(Run(risk, s, events))
    decreases |events|
  {
    if events != [] {
      assert events[0] in events;
      EventKeeps(risk, s, events[0]);
      EventKeepsIndex(risk, s, events[0]);
      RunKeepsIndex(risk, Next(risk, s, events[0]), events[1..]);
    }
  }

  /**
    So what a durable, idle account promises is kept: a crash and a restart lose nothing of its
    book, the index included as far as the log gives it back. It gives all of it back unless a
    close was recorded under an id that a caller had chosen and the log still held.
   */
  lemma DurableBooksSurviveARestart(risk: Risk, blank: Engine, events: seq<Event>, next: Engine)
    requires var s := Reached(risk, blank, events);
             s.holder.None? && s.stored.healthy && HasCalled(s.history)
    ensures var s := Reached(risk, blank, events);
            var t := Next(risk, s, Restart(next, Answered));
            && t.account.engine.book.(index := map[]) == s.account.engine.book.(index := map[])
            && (t.account.engine.book == s.account.engine.book
                <==> s.account.engine.book.index == IndexOf(s.account.engine.book.log))
            && (Indexed(blank.book) && LogFits(blank) && AllMintFreshIds(risk, Boot(blank), events)
                && (forall e <- events :: e.Restart? ==> Indexed(e.blank.book) && LogFits(e.blank))
                ==> t.account.engine.book == s.account.engine.book)
  {
    DurableMeansStored(risk, blank, events);
    if Indexed(blank.book) && LogFits(blank) && AllMintFreshIds(risk, Boot(blank), events)
       && forall e <- events :: e.Restart? ==> Indexed(e.blank.book) && LogFits(e.blank)
    {
      ReachedInv(risk, blank, []);
      RunKeepsIndex(risk, Boot(blank), events);
    }
  }

  // ------------------------------------------------------------------
  // A stale read lifts the day's brake
  // ------------------------------------------------------------------

  /** What a submission goes through when nobody else is about. */
  function SubmitAlone(risk: Risk, s: State, w: nat, q: Request, f: Fetched, now: Time): State {
    Next(risk, Next(risk, Next(risk, Next(risk, Next(risk, s, Begin(w, Submit(q))), Acquire(w, now)), Check(w)),
                    Snapshot(w)), Mutate(w, f, now))
  }

  lemma SubmitAloneRules(risk: Risk, s: State, w: nat, q: Request, f: Fetched, now: Time)
    requires s.holder.None? && w !in s.tasks && f.listed && q.id !in s.account.engine.book.index
    ensures SubmitAlone(risk, s, w, q, f, now).account
            == var seen := s.account.(engine := Rolled(s.account.engine, now));
               Ruled(risk, seen.engine, seen, q, f, now)
  {
  }

  /** Whatever day a read began on, its end may come after the brake of another day, and lifts it. */
  lemma AStaleReadLiftsTheBrake(risk: Risk, s: State, reader: nat, writer: nat, q: Request, terms: Position,
                                f: Fetched, now: Time)
    requires s.holder.None? && reader != writer && writer !in s.tasks && f.listed
    requires TaskOf(s, reader).Reading? && Date(s.tasks[reader].began) != Date(now)
    requires LockedOn(s.account.engine, Date(now))
    requires OtherwiseFills(s.account.engine, Place(q.id, q.symbol, Some(terms)))
    requires forall v: View :: risk(q, f, v) == if MayEnter(v.account) then Approved(Some(terms)) else Refused
    ensures var braked := SubmitAlone(risk, s, writer, q, f, now);
            var lifted := SubmitAlone(risk, Next(risk, s, ReadEnds(reader)), writer, q, f, now);
            && braked.account.engine.book.positions == s.account.engine.book.positions
            && lifted.account.engine.book.positions == s.account.engine.book.positions + [terms]
  {
    SubmitAloneRules(risk, s, writer, q, f, now);
    var after := Next(risk, s, ReadEnds(reader));
    SubmitAloneRules(risk, after, writer, q, f, now);
    var renewed := Rolled(after.account.engine, now);
    assert MayEnter(renewed) && renewed.book == s.account.engine.book;
  }

  // ------------------------------------------------------------------
  // What each call does to the account
  // ------------------------------------------------------------------

  /** The lock's holder is at the point where it changes the account. */
  predicate Changes(t: Task, f: Fetched) {
    (t.Holding? && !t.call.Submit?) || (t.Asking? && !f.listed) || (t.Ruling? && f.listed)
  }

  /**
    The one engine call that carries a call out: managing and submitting are dated when they
    began, closing and the switches when the waiting was over; what the venue does not list is
    submitted without a position, and what the risk engine refuses is refused.
   */
  function EngineCall(risk: Risk, s: State, t: Task, f: Fetched, now: Time): (Mutation, Time)
    requires Changes(t, f)
  {
    match t
    case Holding(call, _, began) =>
      (match call
       case Manage => (Tick(f.marks), began)
       case Close(symbol, minted) => (ClosePosition(minted, symbol, f.mark), now)
       case StartOver(balance) => (Reset(balance), now)
       case Halt(engaged) => (EmergencyStop(engaged), now))
    case Asking(q, _, began) => (Place(q.id, q.symbol, None), began)
    case Ruling(q, _, began, snapshot, _) =>
      var a := s.account;
      var last := if q.symbol in a.lastEntry then Some(a.lastEntry[q.symbol]) else None;
      (match risk(q, f, View(snapshot, a.engine.book.emergencyStopped, last, began))
       case Refused => (Refuse(q.id), began)
       case Approved(terms) => (Place(q.id, q.symbol, terms), began))
  }

  /** No call has come between the lookup of a submission that is being ruled on and now. */
  lemma IdIsStillNew(risk: Risk, s: State, w: nat)
    requires Inv(risk, s)
    ensures TaskOf(s, w).Ruling? ==> s.tasks[w].request.id !in s.account.engine.book.index
  {
    var t := TaskOf(s, w);
    if t.Ruling? {
      assert TaskAgrees(risk, s, s.tasks[w]);
      LooksAreReads(risk, s.history, t.mark);
      ReadsKeepTheBook(t.snapshot, Window(s.history, t.mark));
    }
  }

  lemma MutateIsOneEngineCall(risk: Risk, s: State, w: nat, f: Fetched, now: Time)
    requires Changes(TaskOf(s, w), f)
    requires TaskOf(s, w).Ruling? ==> s.tasks[w].request.id !in s.account.engine.book.index
    ensures var t := Next(risk, s, Mutate(w, f, now));
            var (m, at) := EngineCall(risk, s, s.tasks[w], f, now);
            && w in s.tasks && t.account.engine == Apply(s.account.engine, m, at)
            && t.tasks == s.tasks[w := Saving(t.account.engine)] && t.stored == s.stored
            && t.account.lastEntry == (if Fills(s.account.engine, m, at) then s.account.lastEntry[m.symbol := at]
                                       else s.account.lastEntry)
  {
  }

  /**
    In a reached state the change is that engine call on the account as it stands, and is on its
    way to the store; and a symbol's last entry becomes the start of a submission that fills.
   */
  lemma EachCallIsOneEngineCall(risk: Risk, blank: Engine, events: seq<Event>, w: nat, f: Fetched, now: Time)
    requires Changes(TaskOf(Reached(risk, blank, events), w), f)
    ensures var s := Reached(risk, blank, events);
            var t := Next(risk, s, Mutate(w, f, now));
            var (m, at) := EngineCall(risk, s, s.tasks[w], f, now);
            && w in s.tasks && t.account.engine == Apply(s.account.engine, m, at)
            && t.tasks == s.tasks[w := Saving(t.account.engine)] && t.stored == s.stored
            && t.account.lastEntry == (if Fills(s.account.engine, m, at) then s.account.lastEntry[m.symbol := at]
                                       else s.account.lastEntry)
  {
    ReachedInv(risk, blank, events);
    IdIsStillNew(risk, Reached(risk, blank, events), w);
    MutateIsOneEngineCall(risk, Reached(risk, blank, events), w, f, now);
  }
}
