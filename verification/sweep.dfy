/**
  Start-up recovery and the reconciliation sweep, over the stored rows.

  The sweep asks the venue about every sent, open order first and applies the answers
  afterwards, one locked transaction per order. Before each of them other transactions may
  have committed on any row; `meanwhile` holds them, turn by turn: engine calls, new orders,
  and the one write `submit` makes under no row lock. A turn loads its row, decides and
  writes; whichever of the three raises ends the sweep where it stands.
 */
module Sweep {
  import opened Common
  import opened Orders
  import opened Lifecycle
  import opened OrderStore
  import opened StoreTheorems

  /**
    A transaction of somebody else: an engine call, or `submit` inserting an order or putting
    back the record it re-read. It writes only its own order, and only before it stamps it.
   */
  datatype Committed = Mutates(id: OrderId, op: Op) | Submits(record: OrderRecord) {
    function Target(): OrderId {
      match this
      case Mutates(id, _) => id
      case Submits(record) => record.orderId
    }
  }

  type Commits = seq<Committed>

  datatype SweepReport = SweepReport(checked: nat, resolved: nat, unreachable: nat, resetSuspected: bool)

  datatype RecoveryReport = RecoveryReport(
    interrupted: seq<OrderId>,
    neverSubmitted: seq<OrderId>,
    alreadyUnresolved: seq<OrderId>,
    unreadable: seq<OrderId>)
  {
    function Blocking(): nat {
      |interrupted| + |alreadyUnresolved| + |unreadable|
    }
  }

  predicate OneRowEach(ids: seq<OrderId>) {
    forall i, j :: 0 <= i < j < |ids| ==> ids[i] != ids[j]
  }

  /** The record a row loads as. */
  function RecordAt(t: Tables, id: OrderId): Option<OrderRecord> {
    if id in t.orders then Hydrate(t, id) else None
  }

  function AfterCommit(t: Tables, c: Committed): Tables {
    match c
    case Mutates(id, op) => Call(t, id, op)
    case Submits(record) =>
      if record.orderId in t.orders && t.orders[record.orderId].ReachedVenue() then t else Put(t, record)
  }

  function AllCommitted(t: Tables, commits: Commits): Tables
    decreases |commits|
  {
    if commits == [] then t else AllCommitted(AfterCommit(t, commits[0]), commits[1..])
  }

  function Ask(answers: map<OrderId, Answer>, id: OrderId): Answer {
    if id in answers then answers[id] else Unreachable
  }

  /** What others commit between the turns before and turn `k`. */
  function Meanwhile(meanwhile: seq<Commits>, k: nat): Commits {
    if k < |meanwhile| then meanwhile[k] else []
  }

  // ------------------------------------------------------------------
  // What the sweep does, as a function of the tables
  // ------------------------------------------------------------------

  predicate IsCandidate(t: Tables, id: OrderId) {
    var r := RecordAt(t, id);
    r.Some? && r.value.ReachedVenue() && !IsTerminal(r.value.state)
  }

  function Candidates(t: Tables, created: seq<OrderId>): (ids: seq<OrderId>)
    ensures forall id :: id in ids <==> id in created && IsCandidate(t, id)
    ensures OneRowEach(created) ==> OneRowEach(ids)
  {
    if created == [] then []
    else
      var n := |created| - 1;
      assert created == created[..n] + [created[n]];
      Candidates(t, created[..n]) + if IsCandidate(t, created[n]) then [created[n]] else []
  }

  /** How many of these orders the venue gave this kind of answer about. */
  function Count(ids: seq<OrderId>, answers: map<OrderId, Answer>, kind: Answer -> bool): (n: nat)
    ensures n <= |ids|
  {
    if ids == [] then 0
    else Count(ids[..|ids| - 1], answers, kind) + if kind(Ask(answers, ids[|ids| - 1])) then 1 else 0
  }

  function IsUnreachable(a: Answer): bool {
    a.Unreachable?
  }

  function IsAbsent(a: Answer): bool {
    a.Absent?
  }

  predicate ResetSuspected(ids: seq<OrderId>, answers: map<OrderId, Answer>) {
    var vanished := Count(ids, answers, IsAbsent);
    vanished >= 2 && vanished == |ids| - Count(ids, answers, IsUnreachable)
  }

  predicate Settles(r: OrderRecord, a: Answer) {
    !a.Unreachable? && IsTerminal(r.state)
  }

  /** One order's turn: the tables it finds, and what its transaction comes to. */
  datatype Turn =
    | Raises(found: Tables, id: OrderId)
    | Completes(found: Tables, after: Tables, settles: bool)

  function TakeTurn(found: Tables, id: OrderId, a: Answer, now: Time): Turn {
    var stored := Stores(found, id, Reconcile(a, now));
    if stored.None? then Raises(found, id)
    else
      var after := Call(found, id, Reconcile(a, now));
      Completes(found, after, Settles(stored.value, a))
  }

  /** The orders of a sweep, the answers about them, and what goes on beside it. */
  datatype Sweeping = Sweeping(ids: seq<OrderId>, answers: map<OrderId, Answer>, meanwhile: seq<Commits>, now: Time)

  /** Turn `k`, after what others committed before it. */
  function Turns(w: Sweeping): (nat, Tables) -> Turn {
    (k: nat, t: Tables) =>
      var found := AllCommitted(t, Meanwhile(w.meanwhile, k));
      if k < |w.ids| then TakeTurn(found, w.ids[k], Ask(w.answers, w.ids[k]), w.now)
      else Completes(found, found, false)
  }

  /** The first `n` orders take their turns until one raises; count those that ended terminal. */
  function Settle(t: Tables, n: nat, turn: (nat, Tables) -> Turn): (Tables, Result<nat, OrderId>) {
    if n == 0 then (t, Ok(0))
    else
      var (before, count) := Settle(t, n - 1, turn);
      if count.Err? then (before, count)
      else
        match turn(n - 1, before)
        case Raises(found, id) => (found, Err(id))
        case Completes(_, after, settles) => (after, Ok(count.value + if settles then 1 else 0))
  }

  /** The first `n` steps of a loop over the rows. */
  function Folded(t: Tables, n: nat, step: (nat, Tables) -> Tables): Tables {
    if n == 0 then t else step(n - 1, Folded(t, n - 1, step))
  }

  /** A wholesale disappearance is written down against each order it took, and resolves nothing. */
  function Reports(w: Sweeping, vanished: nat): (nat, Tables) -> Tables {
    (k: nat, t: Tables) =>
      var found := AllCommitted(t, Meanwhile(w.meanwhile, k));
      if k < |w.ids| && Ask(w.answers, w.ids[k]).Absent?
      then Noted(found, w.ids[k], VanishedTogether(vanished), w.now) else found
  }

  function Swept(t: Tables, created: seq<OrderId>, answers: map<OrderId, Answer>, meanwhile: seq<Commits>, now: Time)
    : (Tables, Result<SweepReport, OrderId>)
  {
    var ids := Candidates(t, created);
    var w := Sweeping(ids, answers, meanwhile, now);
    var unreachable := Count(ids, answers, IsUnreachable);
    if ResetSuspected(ids, answers) then
      (Folded(t, |ids|, Reports(w, Count(ids, answers, IsAbsent))), Ok(SweepReport(|ids|, 0, unreachable, true)))
    else
      var (after, count) := Settle(t, |ids|, Turns(w));
      (after, match count
              case Err(id) => Err(id)
              case Ok(resolved) => Ok(SweepReport(|ids|, resolved, unreachable, false)))
  }

  // ------------------------------------------------------------------
  // What recovery does, as a function of the tables
  // ------------------------------------------------------------------

  /** What recovery makes of an order. */
  datatype Fate = Settled | AlreadyUnresolved | NeverSubmitted | Interrupted | Damaged

  function FateOf(r: OrderRecord): Fate {
    if IsTerminal(r.state) then Settled
    else if r.IsUnreconciled() then AlreadyUnresolved
    else if !r.ReachedVenue() then NeverSubmitted
    else Interrupted
  }

  /** Only open rows are looked at; one that does not load is damaged. */
  function FateAt(t: Tables, id: OrderId): Option<Fate> {
    if id !in t.orders then None
    else if IsTerminal(t.orders[id].state) then Some(Settled)
    else if Hydrate(t, id).None? then Some(Damaged)
    else Some(FateOf(t.orders[id]))
  }

  function Fates(t: Tables): OrderId -> Option<Fate> {
    (id: OrderId) => FateAt(t, id)
  }

  /** Recovery's first loop over the rows: what was in flight when they were read becomes UNKNOWN. */
  function Moves(scan: Tables, ids: seq<OrderId>, now: Time): (nat, Tables) -> Tables {
    (k: nat, t: Tables) =>
      if k < |ids| && FateAt(scan, ids[k]) == Some(Interrupted) then Call(t, ids[k], MarkUnknown(now)) else t
  }

  /** Its second loop: one piece of evidence against each row that did not load. */
  function Marks(scan: Tables, ids: seq<OrderId>, now: Time): (nat, Tables) -> Tables {
    (k: nat, t: Tables) =>
      if k < |ids| && FateAt(scan, ids[k]) == Some(Damaged) then Noted(t, ids[k], CouldNotBeLoaded, now) else t
  }

  function Recovered(t: Tables, created: seq<OrderId>, now: Time): Tables {
    Folded(Folded(t, |created|, Moves(t, created, now)), |created|, Marks(t, created, now))
  }

  /** The order goes into the report under its fate; a settled one is not reported. */
  function Filed(report: RecoveryReport, id: OrderId, fate: Option<Fate>): RecoveryReport {
    match fate
    case Some(Interrupted) => report.(interrupted := report.interrupted + [id])
    case Some(NeverSubmitted) => report.(neverSubmitted := report.neverSubmitted + [id])
    case Some(AlreadyUnresolved) => report.(alreadyUnresolved := report.alreadyUnresolved + [id])
    case Some(Damaged) => report.(unreadable := report.unreadable + [id])
    case _ => report
  }

  /** The report on the first `n` orders, in row order. */
  function Report(fates: OrderId -> Option<Fate>, ids: seq<OrderId>, n: nat): RecoveryReport
    requires n <= |ids|
  {
    if n == 0 then RecoveryReport([], [], [], []) else Filed(Report(fates, ids, n - 1), ids[n - 1], fates(ids[n - 1]))
  }

  // ------------------------------------------------------------------
  // The service
  // ------------------------------------------------------------------

  class OrderDesk {
    var tables: Tables
    /** Row order. */
    var created: seq<OrderId>

    ghost predicate Ready()
      reads this
    {
      OneRowEach(created) && forall id :: id in created <==> id in tables.orders
    }

    constructor ()
      ensures Ready() && tables == Tables(map[], map[], map[])
    {
      tables, created := Tables(map[], map[], map[]), [];
    }

    method ReconcileAll(answers: map<OrderId, Answer>, meanwhile: seq<Commits>, now: Time)
      returns (r: Result<SweepReport, OrderId>)
      requires Ready()
      modifies this`tables
      ensures (tables, r) == Swept(old(tables), created, answers, meanwhile, now)
    {
      var candidates := ScanCandidates();
      var w := Sweeping(candidates, answers, meanwhile, now);
      var unreachable, vanished := Query(candidates, answers);
      if vanished >= 2 && vanished == |candidates| - unreachable {
        ReportReset(|candidates|, Reports(w, vanished));
        r := Ok(SweepReport(|candidates|, 0, unreachable, true));
      } else {
        var count := ApplyAnswers(|candidates|, Turns(w));
        r := match count
             case Err(id) => Err(id)
             case Ok(resolved) => Ok(SweepReport(|candidates|, resolved, unreachable, false));
      }
    }

    method ScanCandidates() returns (candidates: seq<OrderId>)
      ensures candidates == Candidates(tables, created)
    {
      candidates := [];
      for i := 0 to |created|
        invariant candidates == Candidates(tables, created[..i])
      {
        assert created[..i + 1][..i] == created[..i];
        if IsCandidate(tables, created[i]) {
          candidates := candidates + [created[i]];
        }
      }
      assert created[..|created|] == created;
    }

    /** One locked transaction per order; the first that raises ends the sweep. */
    method ApplyAnswers(n: nat, turn: (nat, Tables) -> Turn) returns (count: Result<nat, OrderId>)
      modifies this`tables
      ensures (tables, count) == Settle(old(tables), n, turn)
    {
      ghost var was := tables;
      var resolved := 0;
      for k := 0 to n
        invariant Settle(was, k, turn) == (tables, Ok(resolved))
      {
        var t := turn(k, tables);
        if t.Raises? {
          tables := t.found;
          SettleStopped(was, k + 1, n, turn);
          return Err(t.id);
        }
        tables := t.after;
        if t.settles {
          resolved := resolved + 1;
        }
      }
      count := Ok(resolved);
    }

    method Query(ids: seq<OrderId>, answers: map<OrderId, Answer>) returns (unreachable: nat, vanished: nat)
      ensures unreachable == Count(ids, answers, IsUnreachable) && vanished == Count(ids, answers, IsAbsent)
    {
      unreachable, vanished := 0, 0;
      for i := 0 to |ids|
        invariant unreachable == Count(ids[..i], answers, IsUnreachable)
        invariant vanished == Count(ids[..i], answers, IsAbsent)
      {
        assert ids[..i + 1][..i] == ids[..i];
        match Ask(answers, ids[i]) {
          case Unreachable => unreachable := unreachable + 1;
          case Absent => vanished := vanished + 1;
          case Found(_) =>
        }
      }
      assert ids[..|ids|] == ids;
    }

    method ReportReset(n: nat, report: (nat, Tables) -> Tables)
      modifies this`tables
      ensures tables == Folded(old(tables), n, report)
    {
      ghost var was := tables;
      for k := 0 to n
        invariant tables == Folded(was, k, report)
      {
        tables := report(k, tables);
      }
    }

    /** Move what was in flight to UNKNOWN; report the rest. Contacts nobody. */
    method Recover(now: Time) returns (report: RecoveryReport)
      modifies this`tables
      ensures tables == Recovered(old(tables), created, now)
      ensures report == Report(Fates(old(tables)), created, |created|)
    {
      var scan := tables;
      report := MoveInFlight(Fates(scan), Moves(scan, created, now));
      RecordDamaged(Marks(scan, created, now));
    }

    method MoveInFlight(fates: OrderId -> Option<Fate>, move: (nat, Tables) -> Tables) returns (report: RecoveryReport)
      modifies this`tables
      ensures (tables, report) == (Folded(old(tables), |created|, move), Report(fates, created, |created|))
    {
      ghost var was := tables;
      report := RecoveryReport([], [], [], []);
      for i := 0 to |created|
        invariant (tables, report) == (Folded(was, i, move), Report(fates, created, i))
      {
        tables, report := move(i, tables), Filed(report, created[i], fates(created[i]));
      }
    }

    method RecordDamaged(mark: (nat, Tables) -> Tables)
      modifies this`tables
      ensures tables == Folded(old(tables), |created|, mark)
    {
      ghost var was := tables;
      for i := 0 to |created|
        invariant tables == Folded(was, i, mark)
      {
        tables := mark(i, tables);
      }
    }
  }

  /** Nothing happens after the turn that raises. */
  lemma {:induction false} SettleStopped(t: Tables, k: nat, n: nat, turn: (nat, Tables) -> Turn)
    requires k <= n && Settle(t, k, turn).1.Err?
    ensures Settle(t, n, turn) == Settle(t, k, turn)
    decreases n
  {
    if k < n {
      SettleStopped(t, k, n - 1, turn);
    }
  }
}
