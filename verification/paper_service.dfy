/**
  The paper service: any number of tasks, one write lock, and a snapshot store whose
  writes may fail. A write takes the lock, waits for prices, changes the engine in one
  synchronous step and writes the whole state back before it lets the lock go; a read
  takes no lock at all.

  A submission waits in between as well: it looks the id up, waits for the listing and the
  price, takes a snapshot of the account, waits for the order store, and then has the risk
  engine rule on the snapshot. The risk engine is pure, and any function here.
 */
module PaperService {
  import opened Common
  import opened PaperEngine

  // ------------------------------------------------------------------
  // The snapshot store
  // ------------------------------------------------------------------

  /** How a write ended: committed, not committed, or committed with the answer lost. */
  datatype WriteOutcome = Landed | Lost | LandedUnheard

  datatype ReadOutcome = Answered | Unreachable | Unreadable

  datatype Stored = Stored(row: Option<Engine>, healthy: bool)

  /** A document holds the order log and not the index, which is read back from the log. */
  function Restored(e: Engine): Engine {
    e.(book := e.book.(index := IndexOf(e.book.log)))
  }

  function AfterSave(s: Stored, state: Engine, outcome: WriteOutcome): Stored {
    Stored(if outcome.Lost? then s.row else Some(state), outcome.Landed?)
  }

  function Loaded(s: Stored, outcome: ReadOutcome): Option<Engine> {
    if outcome.Answered? && s.row.Some? then Some(Restored(s.row.value)) else None
  }

  /** A document that cannot be read is the document's fault, not the database's. */
  function AfterLoad(s: Stored, outcome: ReadOutcome): Stored {
    if outcome.Unreachable? then s.(healthy := false) else s
  }

  class SnapshotStore {
    var row: Option<Engine>
    var healthy: bool
    var lastError: Option<string>

    function Contents(): Stored
      reads this
    {
      Stored(row, healthy)
    }

    constructor (existing: Option<Engine>)
      ensures Contents() == Stored(existing, true) && lastError.None?
    {
      row, healthy, lastError := existing, true, None;
    }

    /** What the account may claim: only while writes are landing. */
    predicate Durable()
      reads this
    {
      healthy
    }

    method Degrade(detail: string)
      modifies this`healthy, this`lastError
      ensures !Durable() && lastError == Some(detail)
    {
      healthy, lastError := false, Some(detail);
    }

    method Save(state: Engine, outcome: WriteOutcome) returns (landed: bool)
      modifies this
      ensures Contents() == AfterSave(old(Contents()), state, outcome)
      ensures row == if outcome.Lost? then old(row) else Some(state)
      ensures landed == outcome.Landed? == Durable() && (lastError.None? <==> landed)
    {
      if !outcome.Lost? {
        row := Some(state);
      }
      if !outcome.Landed? {
        Degrade("snapshot could not be written");
        return false;
      }
      healthy, lastError := true, None;
      landed := true;
    }

    method Load(outcome: ReadOutcome) returns (state: Option<Engine>)
      modifies this`healthy, this`lastError
      ensures state == Loaded(old(Contents()), outcome) && Contents() == AfterLoad(old(Contents()), outcome)
      ensures Durable() <==> old(Durable()) && !outcome.Unreachable?
      ensures state.Some? <==> outcome.Answered? && row.Some?
      ensures state.Some? ==> state == Some(row.value.(book := row.value.book.(index := IndexOf(row.value.book.log))))
    {
      if outcome.Unreachable? {
        Degrade("snapshot could not be read");
        return None;
      }
      if outcome.Unreadable? || row.None? {
        return None;
      }
      state := Some(Restored(row.value));
    }
  }

  // ------------------------------------------------------------------
  // Calls and rulings
  // ------------------------------------------------------------------

  datatype Request = Request(
    id: OrderId,
    symbol: Symbol,
    isLong: bool,
    margin: Option<Money>,
    quantity: Option<Money>,
    leverage: int,
    stopPercent: Option<int>,
    targetPercent: Option<int>,
    trailPercent: Option<int>,
    cooldown: nat)

  /** A close carries the id the engine mints for it. */
  datatype Call =
    | Manage
    | Submit(request: Request)
    | Close(symbol: Symbol, minted: OrderId)
    | StartOver(balance: Money)
    | Halt(engaged: bool)

  /** What the waits of a call brought back: usable prices, the listing, the volatility, the order store's answer. */
  datatype Fetched = Fetched(
    marks: map<Symbol, Mark>,
    listed: bool,
    mark: Option<Mark>,
    volatility: Option<int>,
    pending: bool)

  const NOTHING_FETCHED := Fetched(map[], false, None, None, false)

  /** What the risk engine is shown: the snapshot, and two things read when it rules. */
  datatype View = View(account: Engine, emergencyStopped: bool, lastEntry: Option<Time>, now: Time)

  /** An approval comes with the position its size comes to at the venue's filters, if it comes to one. */
  datatype Verdict = Refused | Approved(terms: Option<Position>)

  type Risk = (Request, Fetched, View) -> Verdict

  /** The engine, and when each symbol was last entered, which no snapshot keeps. */
  datatype Account = Account(engine: Engine, lastEntry: map<Symbol, Time>)

  function LastEntry(a: Account, symbol: Symbol): Option<Time> {
    if symbol in a.lastEntry then Some(a.lastEntry[symbol]) else None
  }

  /** The outcome is accepted: the order filled, or is the replay of one that did. */
  predicate Accepted(e: Engine, m: Mutation, now: Time)
    requires m.Place?
  {
    Fills(e, m, now) || (m.id in e.book.index && e.book.index[m.id])
  }

  /** Submit exactly what was approved, on the account as it now stands. */
  function Submitted(a: Account, q: Request, terms: Option<Position>, began: Time): Account {
    var m := Place(q.id, q.symbol, terms);
    Account(Apply(a.engine, m, began),
            if Accepted(a.engine, m, began) then a.lastEntry[q.symbol := began] else a.lastEntry)
  }

  /** Rule on the snapshot, and carry the ruling out on the account as it now stands. */
  function Ruled(risk: Risk, snapshot: Engine, a: Account, q: Request, f: Fetched, began: Time): Account {
    match risk(q, f, View(snapshot, a.engine.book.emergencyStopped, LastEntry(a, q.symbol), began))
    case Refused => a.(engine := Apply(a.engine, Refuse(q.id), began))
    case Approved(terms) => Submitted(a, q, terms, began)
  }

  /** An instrument the venue does not list is refused by the engine itself. */
  function Unlisted(a: Account, q: Request, began: Time): Account {
    a.(engine := Apply(a.engine, Place(q.id, q.symbol, None), began))
  }

  /** The calls other than a submission; two take their instant before they wait, the others after. */
  function Direct(a: Account, call: Call, f: Fetched, began: Time, now: Time): Account
    requires !call.Submit?
  {
    match call
    case Manage => a.(engine := Apply(a.engine, Tick(f.marks), began))
    case Close(symbol, minted) => a.(engine := Apply(a.engine, ClosePosition(minted, symbol, f.mark), now))
    case StartOver(balance) => a.(engine := Apply(a.engine, Reset(balance), now))
    case Halt(engaged) => a.(engine := Apply(a.engine, EmergencyStop(engaged), now))
  }

  /** What a call comes to on account `a` when its lookup and its ruling see `snapshot`. */
  function Carried(risk: Risk, snapshot: Engine, a: Account, call: Call, f: Fetched, began: Time, now: Time): Account {
    if !call.Submit? then Direct(a, call, f, began, now)
    else
      var q := call.request;
      if q.id in snapshot.book.index then a.(engine := Rolled(a.engine, began))
      else if !f.listed then Unlisted(a, q, began)
      else Ruled(risk, snapshot, a, q, f, began)
  }

  /** The call in one piece: lookup, snapshot, ruling and change with nothing in between. */
  function Whole(risk: Risk, a: Account, call: Call, f: Fetched, began: Time, now: Time): Account {
    var seen := if call.Submit? then a.(engine := Rolled(a.engine, began)) else a;
    Carried(risk, seen.engine, seen, call, f, began, now)
  }

  // ------------------------------------------------------------------
  // The tasks
  // ------------------------------------------------------------------

  datatype Task =
    | Waiting(call: Call)
    | Holding(call: Call, ticket: nat, began: Time)              // holds the lock, waits for prices
    | Asking(request: Request, ticket: nat, began: Time)         // not a retry; waits for listing and price
    | Ruling(request: Request, ticket: nat, began: Time, snapshot: Engine, mark: nat)
    | Saving(document: Engine)                                   // still holds the lock
    | Reading(began: Time)
    | Done

  /**
    What has touched the account: starts, reads, and calls with their place in lock order. A
    call ruled on the account as it stood after the first `mark` entries.
   */
  datatype Entry =
    | Started(engine: Engine)
    | Called(ticket: nat, call: Call, fetched: Fetched, began: Time, now: Time, mark: nat)
    | Looked(now: Time)

  datatype State = State(
    account: Account,
    stored: Stored,
    holder: Option<nat>,
    tickets: nat,
    tasks: map<nat, Task>,
    history: seq<Entry>)

  function Boot(blank: Engine): State {
    State(Account(blank, map[]), Stored(None, true), None, 0, map[], [Started(blank)])
  }

  datatype Event =
    | Begin(task: nat, call: Call)
    | BeginRead(task: nat, now: Time)
    | Acquire(task: nat, now: Time)
    | Check(task: nat)                                 // a submission looks its id up
    | Snapshot(task: nat)                              // and reads the account it will be ruled on
    | Mutate(task: nat, fetched: Fetched, now: Time)
    | SaveEnds(task: nat, outcome: WriteOutcome)
    | Abort(task: nat)                                 // an exception before anything changed
    | ReadEnds(task: nat)
    | Restart(blank: Engine, answer: ReadOutcome)

  function TaskOf(s: State, w: nat): Task {
    if w in s.tasks then s.tasks[w] else Done
  }

  function Look(s: State, now: Time): State {
    s.(account := s.account.(engine := Rolled(s.account.engine, now)), history := s.history + [Looked(now)])
  }

  /** The call's change is made and its document taken; the write is under way. */
  function Change(s: State, w: nat, after: Account, entry: Entry): State {
    s.(account := after, history := s.history + [entry], tasks := s.tasks[w := Saving(after.engine)])
  }

  function CheckStep(s: State, w: nat): State
    requires TaskOf(s, w).Holding? && s.tasks[w].call.Submit?
  {
    var t := s.tasks[w];
    if t.call.request.id in s.account.engine.book.index then
      Change(s, w, s.account.(engine := Rolled(s.account.engine, t.began)),
             Called(t.ticket, t.call, NOTHING_FETCHED, t.began, t.began, |s.history|))
    else s.(tasks := s.tasks[w := Asking(t.call.request, t.ticket, t.began)])
  }

  function SnapshotStep(s: State, w: nat): State
    requires TaskOf(s, w).Asking?
  {
    var t := s.tasks[w];
    var seen := Look(s, t.began);
    seen.(tasks := s.tasks[w := Ruling(t.request, t.ticket, t.began, seen.account.engine, |seen.history|)])
  }

  function MutateStep(risk: Risk, s: State, w: nat, f: Fetched, now: Time): State {
    var t := TaskOf(s, w);
    if t.Holding? && !t.call.Submit? then
      Change(s, w, Direct(s.account, t.call, f, t.began, now), Called(t.ticket, t.call, f, t.began, now, |s.history|))
    else if t.Asking? && !f.listed then
      Change(s, w, Unlisted(s.account, t.request, t.began),
             Called(t.ticket, Submit(t.request), f, t.began, now, |s.history|))
    else if t.Ruling? && f.listed then
      Change(s, w, Ruled(risk, t.snapshot, s.account, t.request, f, t.began),
             Called(t.ticket, Submit(t.request), f, t.began, now, t.mark))
    else s
  }

  function Next(risk: Risk, s: State, e: Event): State {
    match e
    case Begin(w, call) => if w in s.tasks then s else s.(tasks := s.tasks[w := Waiting(call)])
    case BeginRead(w, now) => if w in s.tasks then s else s.(tasks := s.tasks[w := Reading(now)])
    case Acquire(w, now) =>
      if !TaskOf(s, w).Waiting? || s.holder.Some? then s
      else s.(holder := Some(w), tickets := s.tickets + 1,
              tasks := s.tasks[w := Holding(s.tasks[w].call, s.tickets, now)])
    case Check(w) => if TaskOf(s, w).Holding? && s.tasks[w].call.Submit? then CheckStep(s, w) else s
    case Snapshot(w) => if TaskOf(s, w).Asking? then SnapshotStep(s, w) else s
    case Mutate(w, f, now) => MutateStep(risk, s, w, f, now)
    case SaveEnds(w, outcome) =>
      if !TaskOf(s, w).Saving? then s
      else s.(stored := AfterSave(s.stored, s.tasks[w].document, outcome), holder := None,
              tasks := s.tasks[w := Done])
    case Abort(w) =>
      if !HoldsLock(TaskOf(s, w)) || s.tasks[w].Saving? then s
      else s.(holder := None, tasks := s.tasks[w := Done])
    case ReadEnds(w) =>
      if !TaskOf(s, w).Reading? then s else Look(s, s.tasks[w].began).(tasks := s.tasks[w := Done])
    case Restart(blank, outcome) =>
      var loaded := Loaded(s.stored, outcome);
      var engine := if loaded.Some? then loaded.value else blank;
      State(Account(engine, map[]), AfterLoad(Stored(s.stored.row, true), outcome), None, s.tickets, map[],
            s.history + [Started(engine)])
  }

  function Run(risk: Risk, s: State, events: seq<Event>): State
    decreases |events|
  {
    if events == [] then s else Run(risk, Next(risk, s, events[0]), events[1..])
  }

  // ------------------------------------------------------------------
  // Histories
  // ------------------------------------------------------------------

  predicate IsHistory(history: seq<Entry>) {
    history != [] && history[0].Started?
  }

  /** Where the account stood that a call was ruled on. */
  function MarkOf(entry: Entry, n: nat): (k: nat)
    requires entry.Called? && n > 0
    ensures 0 < k <= n
  {
    if 0 < entry.mark <= n then entry.mark else n
  }

  /** The account a history leads to, one entry after another. */
  function Replay(risk: Risk, history: seq<Entry>): Account
    requires IsHistory(history)
  {
    var n := |history| - 1;
    match history[n]
    case Started(engine) => Account(engine, map[])
    case Called(_, call, fetched, began, now, _) =>
      Carried(risk, Replay(risk, history[..MarkOf(history[n], n)]).engine, Replay(risk, history[..n]),
              call, fetched, began, now)
    case Looked(now) =>
      var before := Replay(risk, history[..n]);
      before.(engine := Rolled(before.engine, now))
  }

  predicate OnlyLooks(history: seq<Entry>, from: nat) {
    forall i :: from <= i < |history| ==> history[i].Looked?
  }

  /** Between what a call was ruled on and what it changed only reads took place. */
  predicate RuledInOrder(history: seq<Entry>) {
    forall j :: 0 <= j < |history| && history[j].Called? ==>
      var c := history[j];
      && 0 < c.mark <= j && (forall i :: c.mark <= i < j ==> history[i].Looked?)
      && (c.call.Submit? && c.fetched.listed ==> history[c.mark - 1] == Looked(c.began))
  }

  /** The instants of the reads since the last call of this process, and whether there was one. */
  function Since(history: seq<Entry>): (nat, seq<Time>)
    ensures Since(history).0 <= |history|
  {
    if history == [] then (0, [])
    else
      var n := |history| - 1;
      if history[n].Looked? then
        var (k, nows) := Since(history[..n]);
        (k, nows + [history[n].now])
      else (|history|, [])
  }

  /** The last entry that is not a read is a call. */
  predicate HasCalled(history: seq<Entry>) {
    var k := Since(history).0;
    k > 0 && history[k - 1].Called?
  }

  /** The engine right after the last call or start. */
  function Settled(risk: Risk, history: seq<Entry>): Engine
    requires IsHistory(history)
    ensures Since(history).0 > 0 && Settled(risk, history) == Replay(risk, history[..Since(history).0]).engine
  {
    var n := |history| - 1;
    if history[n].Looked? then
      assert forall k :: 0 <= k <= n ==> history[..n][..k] == history[..k];
      Settled(risk, history[..n])
    else
      assert history[..|history|] == history;
      Replay(risk, history).engine
  }

  // ------------------------------------------------------------------
  // The invariant
  // ------------------------------------------------------------------

  predicate HoldsLock(t: Task) {
    t.Holding? || t.Asking? || t.Ruling? || t.Saving?
  }

  predicate LockAgrees(s: State) {
    && (s.holder.Some? ==> s.holder.value in s.tasks && HoldsLock(s.tasks[s.holder.value]))
    && (forall w <- s.tasks :: HoldsLock(s.tasks[w]) ==> s.holder == Some(w))
  }

  predicate HasTicket(t: Task) {
    t.Holding? || t.Asking? || t.Ruling?
  }

  /** Calls happen in the order in which the lock was taken. */
  predicate TicketsAgree(s: State) {
    && (forall i, j :: 0 <= i < j < |s.history| && s.history[i].Called? && s.history[j].Called? ==>
          s.history[i].ticket < s.history[j].ticket)
    && (forall i :: 0 <= i < |s.history| && s.history[i].Called? ==> s.history[i].ticket < s.tickets)
    && (forall w <- s.tasks :: HasTicket(s.tasks[w]) ==>
          s.tasks[w].ticket < s.tickets
          && forall i :: 0 <= i < |s.history| && s.history[i].Called? ==> s.history[i].ticket < s.tasks[w].ticket)
  }

  predicate HistoryAgrees(risk: Risk, s: State) {
    IsHistory(s.history) && s.account == Replay(risk, s.history)
  }

  /** What a submission saw is what the account still is, but for the session. */
  predicate TaskAgrees(risk: Risk, s: State, t: Task)
    requires IsHistory(s.history)
  {
    match t
    case Asking(q, _, _) => q.id !in s.account.engine.book.index
    case Ruling(q, _, began, snapshot, mark) =>
      && q.id !in snapshot.book.index
      && 0 < mark <= |s.history| && s.history[mark - 1] == Looked(began) && OnlyLooks(s.history, mark)
      && snapshot == Replay(risk, s.history[..mark]).engine
    case _ => true
  }

  predicate RulingsAgree(risk: Risk, s: State)
    requires IsHistory(s.history)
  {
    RuledInOrder(s.history) && forall w <- s.tasks :: TaskAgrees(risk, s, s.tasks[w])
  }

  /** What is stored, or on its way there, is the state between two calls. */
  predicate BetweenCalls(risk: Risk, history: seq<Entry>, e: Engine)
    requires IsHistory(history)
  {
    exists k :: 0 < k <= |history| && history[k - 1].Called? && e == Replay(risk, history[..k]).engine
  }

  predicate StoreAgrees(risk: Risk, s: State)
    requires HistoryAgrees(risk, s)
  {
    && (s.stored.row.Some? ==> BetweenCalls(risk, s.history, s.stored.row.value))
    && (forall w <- s.tasks :: s.tasks[w].Saving? ==>
          HasCalled(s.history) && s.tasks[w].document == Settled(risk, s.history))
    && (s.stored.healthy && HasCalled(s.history) && (s.holder.Some? ==> HasTicket(TaskOf(s, s.holder.value))) ==>
          s.stored.row == Some(Settled(risk, s.history)))
  }

  predicate Inv(risk: Risk, s: State) {
    LockAgrees(s) && TicketsAgree(s) && HistoryAgrees(risk, s) && RulingsAgree(risk, s) && StoreAgrees(risk, s)
  }

  // ------------------------------------------------------------------
  // Every event keeps it
  // ------------------------------------------------------------------

  lemma PrefixesStay(history: seq<Entry>, entry: Entry)
    ensures (history + [entry])[..|history|] == history
    ensures (history + [entry])[..|history| + 1] == history + [entry]
    ensures forall k :: 0 <= k <= |history| ==> (history + [entry])[..k] == history[..k]
  {
  }

  lemma BetweenCallsGrows(risk: Risk, history: seq<Entry>, entry: Entry, e: Engine)
    requires IsHistory(history)
    requires BetweenCalls(risk, history, e) || (entry.Called? && e == Replay(risk, history + [entry]).engine)
    ensures BetweenCalls(risk, history + [entry], e)
  {
    var longer := history + [entry];
    PrefixesStay(history, entry);
    if BetweenCalls(risk, history, e) {
      var k :| 0 < k <= |history| && history[k - 1].Called? && e == Replay(risk, history[..k]).engine;
      assert longer[k - 1].Called? && e == Replay(risk, longer[..k]).engine;
    } else {
      assert longer[|history|].Called? && e == Replay(risk, longer[..|history| + 1]).engine;
    }
  }

  lemma LookGrows(risk: Risk, history: seq<Entry>, now: Time)
    requires IsHistory(history)
    ensures var longer := history + [Looked(now)];
            && IsHistory(longer)
            && Settled(risk, longer) == Settled(risk, history) && HasCalled(longer) == HasCalled(history)
            && Replay(risk, longer) == var was := Replay(risk, history); was.(engine := Rolled(was.engine, now))
  {
    PrefixesStay(history, Looked(now));
  }

  lemma CallGrows(risk: Risk, history: seq<Entry>, c: Entry)
    requires IsHistory(history) && c.Called? && 0 < c.mark <= |history|
    ensures var longer := history + [c];
            && IsHistory(longer) && HasCalled(longer)
            && Settled(risk, longer) == Replay(risk, longer).engine
            && Replay(risk, longer) == Carried(risk, Replay(risk, history[..c.mark]).engine, Replay(risk, history),
                                               c.call, c.fetched, c.began, c.now)
  {
    PrefixesStay(history, c);
  }

  lemma StartGrows(risk: Risk, history: seq<Entry>, engine: Engine)
    requires IsHistory(history)
    ensures var longer := history + [Started(engine)];
            IsHistory(longer) && !HasCalled(longer) && Replay(risk, longer) == Account(engine, map[])
  {
  }

  lemma LookKeepsRulings(risk: Risk, s: State, now: Time)
    requires IsHistory(s.history) && RulingsAgree(risk, s)
    ensures RulingsAgree(risk, Look(s, now))
  {
    var t := Look(s, now);
    assert RuledInOrder(t.history);
    forall w <- t.tasks
      ensures TaskAgrees(risk, t, t.tasks[w])
    {
      assert TaskAgrees(risk, s, s.tasks[w]);
      if s.tasks[w].Ruling? {
        var k := s.tasks[w].mark;
        assert t.history[..k] == s.history[..k];
      }
    }
  }

  lemma LookKeepsStore(risk: Risk, s: State, now: Time)
    requires HistoryAgrees(risk, s) && StoreAgrees(risk, s)
    ensures HistoryAgrees(risk, Look(s, now)) && StoreAgrees(risk, Look(s, now))
  {
    LookGrows(risk, s.history, now);
    if s.stored.row.Some? {
      BetweenCallsGrows(risk, s.history, Looked(now), s.stored.row.value);
    }
  }

  lemma LookKeeps(risk: Risk, s: State, now: Time)
    requires Inv(risk, s)
    ensures Inv(risk, Look(s, now))
  {
    LookKeepsRulings(risk, s, now);
    LookKeepsStore(risk, s, now);
  }

  /** A task that holds no lock comes to its end. */
  lemma EndKeeps(risk: Risk, s: State, w: nat)
    requires Inv(risk, s) && w in s.tasks && !HoldsLock(s.tasks[w])
    ensures Inv(risk, s.(tasks := s.tasks[w := Done]))
  {
    var t := s.(tasks := s.tasks[w := Done]);
    assert LockAgrees(t) && TicketsAgree(t);
    assert forall v <- t.tasks :: TaskAgrees(risk, t, t.tasks[v]) by {
      forall v <- t.tasks ensures TaskAgrees(risk, t, t.tasks[v]) {
        assert v != w ==> TaskAgrees(risk, s, s.tasks[v]);
      }
    }
  }

  lemma ReadKeeps(risk: Risk, s: State, w: nat)
    requires Inv(risk, s) && TaskOf(s, w).Reading?
    ensures Inv(risk, Next(risk, s, ReadEnds(w)))
  {
    LookKeeps(risk, s, s.tasks[w].began);
    EndKeeps(risk, Look(s, s.tasks[w].began), w);
  }

  lemma SnapshotKeeps(risk: Risk, s: State, w: nat)
    requires Inv(risk, s) && TaskOf(s, w).Asking?
    ensures Inv(risk, SnapshotStep(s, w))
  {
    LookKeeps(risk, s, s.tasks[w].began);
    var t := SnapshotStep(s, w);
    assert t.history[..|t.history|] == t.history;
  }

  /** The entry says of the holder's call what the call does. */
  predicate Describes(risk: Risk, s: State, w: nat, after: Account, c: Entry)
    requires IsHistory(s.history)
  {
    && HasTicket(TaskOf(s, w)) && c.Called? && c.ticket == s.tasks[w].ticket
    && 0 < c.mark <= |s.history| && OnlyLooks(s.history, c.mark)
    && (c.call.Submit? && c.fetched.listed ==> s.history[c.mark - 1] == Looked(c.began))
    && after == Carried(risk, Replay(risk, s.history[..c.mark]).engine, s.account, c.call, c.fetched, c.began, c.now)
  }

  lemma ChangeKeepsOrder(risk: Risk, s: State, w: nat, after: Account, c: Entry)
    requires Inv(risk, s) && Describes(risk, s, w, after, c)
    ensures LockAgrees(Change(s, w, after, c)) && TicketsAgree(Change(s, w, after, c))
  {
  }

  lemma ChangeKeepsRulings(risk: Risk, s: State, w: nat, after: Account, c: Entry)
    requires LockAgrees(s) && HistoryAgrees(risk, s) && RulingsAgree(risk, s) && Describes(risk, s, w, after, c)
    ensures IsHistory(Change(s, w, after, c).history) && RulingsAgree(risk, Change(s, w, after, c))
  {
    var t := Change(s, w, after, c);
    assert IsHistory(t.history);
    assert forall v <- t.tasks :: v != w ==> !HoldsLock(t.tasks[v]);
    assert RuledInOrder(t.history);
  }

  lemma ChangeKeepsStore(risk: Risk, s: State, w: nat, after: Account, c: Entry)
    requires LockAgrees(s) && HistoryAgrees(risk, s) && StoreAgrees(risk, s) && Describes(risk, s, w, after, c)
    ensures HistoryAgrees(risk, Change(s, w, after, c)) && StoreAgrees(risk, Change(s, w, after, c))
  {
    var t := Change(s, w, after, c);
    CallGrows(risk, s.history, c);
    assert forall v <- t.tasks :: v != w ==> !HoldsLock(t.tasks[v]);
    if s.stored.row.Some? {
      BetweenCallsGrows(risk, s.history, c, s.stored.row.value);
    }
  }

  lemma ChangeKeeps(risk: Risk, s: State, w: nat, after: Account, c: Entry)
    requires Inv(risk, s) && Describes(risk, s, w, after, c)
    ensures Inv(risk, Change(s, w, after, c))
  {
    ChangeKeepsOrder(risk, s, w, after, c);
    ChangeKeepsRulings(risk, s, w, after, c);
    ChangeKeepsStore(risk, s, w, after, c);
  }

  lemma CheckKeeps(risk: Risk, s: State, w: nat)
    requires Inv(risk, s) && TaskOf(s, w).Holding? && s.tasks[w].call.Submit?
    ensures Inv(risk, CheckStep(s, w))
  {
    var t := s.tasks[w];
    if t.call.request.id in s.account.engine.book.index {
      assert s.history[..|s.history|] == s.history;
      ChangeKeeps(risk, s, w, s.account.(engine := Rolled(s.account.engine, t.began)),
                  Called(t.ticket, t.call, NOTHING_FETCHED, t.began, t.began, |s.history|));
    }
  }

  lemma MutateKeeps(risk: Risk, s: State, w: nat, f: Fetched, now: Time)
    requires Inv(risk, s)
    ensures Inv(risk, MutateStep(risk, s, w, f, now))
  {
    var t := TaskOf(s, w);
    assert s.history[..|s.history|] == s.history;
    if t.Holding? && !t.call.Submit? {
      ChangeKeeps(risk, s, w, Direct(s.account, t.call, f, t.began, now),
                  Called(t.ticket, t.call, f, t.began, now, |s.history|));
    } else if t.Asking? && !f.listed {
      assert TaskAgrees(risk, s, s.tasks[w]);
      ChangeKeeps(risk, s, w, Unlisted(s.account, t.request, t.began),
                  Called(t.ticket, Submit(t.request), f, t.began, now, |s.history|));
    } else if t.Ruling? && f.listed {
      assert TaskAgrees(risk, s, s.tasks[w]);
      ChangeKeeps(risk, s, w, Ruled(risk, t.snapshot, s.account, t.request, f, t.began),
                  Called(t.ticket, Submit(t.request), f, t.began, now, t.mark));
    }
  }

  /** The settled state is the state after some call, when there has been one since the start. */
  lemma SettledIsBetweenCalls(risk: Risk, history: seq<Entry>)
    requires IsHistory(history) && HasCalled(history)
    ensures BetweenCalls(risk, history, Settled(risk, history))
  {
    var k := Since(history).0;
    assert history[k - 1].Called? && Settled(risk, history) == Replay(risk, history[..k]).engine;
  }

  lemma SaveKeeps(risk: Risk, s: State, w: nat, outcome: WriteOutcome)
    requires Inv(risk, s)
    ensures Inv(risk, Next(risk, s, SaveEnds(w, outcome)))
  {
    if TaskOf(s, w).Saving? {
      SettledIsBetweenCalls(risk, s.history);
    }
  }

  lemma RestartKeeps(risk: Risk, s: State, blank: Engine, outcome: ReadOutcome)
    requires Inv(risk, s)
    ensures Inv(risk, Next(risk, s, Restart(blank, outcome)))
  {
    var loaded := Loaded(s.stored, outcome);
    var engine := if loaded.Some? then loaded.value else blank;
    StartGrows(risk, s.history, engine);
    if s.stored.row.Some? {
      BetweenCallsGrows(risk, s.history, Started(engine), s.stored.row.value);
    }
  }

  predicate OnlyMovesTasks(e: Event) {
    e.Begin? || e.BeginRead? || e.Acquire? || e.Abort?
  }

  lemma TaskMovesInOrder(risk: Risk, s: State, e: Event)
    requires LockAgrees(s) && TicketsAgree(s) && OnlyMovesTasks(e)
    ensures LockAgrees(Next(risk, s, e)) && TicketsAgree(Next(risk, s, e))
  {
  }

  lemma TaskMoveKeepsRulings(risk: Risk, s: State, e: Event)
    requires IsHistory(s.history) && RulingsAgree(risk, s) && OnlyMovesTasks(e)
    ensures IsHistory(Next(risk, s, e).history) && RulingsAgree(risk, Next(risk, s, e))
  {
  }

  lemma LockKeeps(risk: Risk, s: State, e: Event)
    requires Inv(risk, s) && OnlyMovesTasks(e)
    ensures Inv(risk, Next(risk, s, e))
  {
    TaskMovesInOrder(risk, s, e);
    TaskMoveKeepsRulings(risk, s, e);
  }

  lemma EventKeeps(risk: Risk, s: State, e: Event)
    requires Inv(risk, s)
    ensures Inv(risk, Next(risk, s, e))
  {
    if e.Check? {
      if TaskOf(s, e.task).Holding? && s.tasks[e.task].call.Submit? {
        CheckKeeps(risk, s, e.task);
      }
    } else if e.Snapshot? {
      if TaskOf(s, e.task).Asking? {
        SnapshotKeeps(risk, s, e.task);
      }
    } else if e.ReadEnds? {
      if TaskOf(s, e.task).Reading? {
        ReadKeeps(risk, s, e.task);
      }
    } else if e.Mutate? {
      MutateKeeps(risk, s, e.task, e.fetched, e.now);
    } else if e.SaveEnds? {
      SaveKeeps(risk, s, e.task, e.outcome);
    } else if e.Restart? {
      RestartKeeps(risk, s, e.blank, e.answer);
    } else {
      LockKeeps(risk, s, e);
    }
  }

  lemma {:induction false} RunKeeps(risk: Risk, s: State, events: seq<Event>)
    requires Inv(risk, s)
    ensures Inv(risk, Run(risk, s, events))
    decreases |events|
  {
    if events != [] {
      EventKeeps(risk, s, events[0]);
      RunKeeps(risk, Next(risk, s, events[0]), events[1..]);
    }
  }

  function Reached(risk: Risk, blank: Engine, events: seq<Event>): State {
    Run(risk, Boot(blank), events)
  }

  lemma ReachedInv(risk: Risk, blank: Engine, events: seq<Event>)
    ensures Inv(risk, Reached(risk, blank, events))
  {
    RunKeeps(risk, Boot(blank), events);
  }
}
