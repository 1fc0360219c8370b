/** Which writes leave every stored order loadable, and what loading gives back. */
module StoreTheorems {
  import opened Common
  import opened Orders
  import opened Lifecycle
  import opened OrderStore

  predicate ValidFills(fills: seq<OrderFill>) {
    forall f <- fills :: ValidFill(f)
  }

  // ------------------------------------------------------------------
  // One write
  // ------------------------------------------------------------------

  /** The stored quantities of the ids the record reuses add up to what the record says of them. */
  predicate ReusedQuantitiesAgree(stored: seq<OrderFill>, record: seq<OrderFill>) {
    FillTotal(Pick(stored, Ids(record), true)) == FillTotal(Pick(record, Ids(stored), true))
  }

  lemma SyncKeepsSomething(stored: seq<OrderFill>, record: seq<OrderFill>)
    requires record != []
    ensures SyncFills(stored, record) != []
  {
    var f := record[0];
    if f.fillId in Ids(stored) {
      PickMembers(stored, Ids(record), true);
      var g :| g in stored && g.fillId == f.fillId;
      assert g in Pick(stored, Ids(record), true);
    } else {
      PickMembers(record, Ids(stored), false);
      assert f in Pick(record, Ids(stored), false);
    }
  }

  lemma SyncedTotal(stored: seq<OrderFill>, record: seq<OrderFill>)
    ensures FillTotal(SyncFills(stored, record)) == FillTotal(record)
            <==> ReusedQuantitiesAgree(stored, record)
  {
    PickSplitsTotal(record, Ids(stored));
    FillTotalAppend(Pick(stored, Ids(record), true), Pick(record, Ids(stored), false));
  }

  lemma JoinedIsValidIff(t: Tables, id: OrderId)
    requires Consistent(t) && id in t.orders && Valid(t.orders[id]) && ValidFills(t.fills[id])
    ensures Valid(Joined(t, id))
            <==> t.fills[id] == [] || FillTotal(t.fills[id]) == t.orders[id].filledQuantity
  {
    SortFillsKeeps(t.fills[id]);
    var sorted := SortFills(t.fills[id]);
    assert |sorted| == |multiset(sorted)| == |multiset(t.fills[id])| == |t.fills[id]|;
    forall i | 0 <= i < |sorted|
      ensures ValidFill(sorted[i])
    {
      assert sorted[i] in multiset(sorted);
    }
  }

  lemma SyncedFillsAreValid(stored: seq<OrderFill>, record: seq<OrderFill>)
    requires ValidFills(stored) && ValidFills(record)
    ensures ValidFills(SyncFills(stored, record))
  {
    PickMembers(stored, Ids(record), true);
    PickMembers(record, Ids(stored), false);
  }

  lemma {:induction false} PickNothing(fills: seq<OrderFill>)
    ensures Pick(fills, {}, true) == []
  {
    if fills != [] {
      PickNothing(fills[..|fills| - 1]);
    }
  }

  /** A valid record written over stored fills loads again iff the reused quantities agree. */
  lemma WriteLoadsIff(t: Tables, r: OrderRecord)
    requires Consistent(t) && Valid(r) && WriteError(t, r).None?
    requires ValidFills(StoredFills(t, r.orderId))
    ensures Consistent(Written(t, r))
    ensures Hydrate(Written(t, r), r.orderId).Some?
            <==> r.fills == [] || ReusedQuantitiesAgree(StoredFills(t, r.orderId), r.fills)
  {
    WrittenIsConsistent(t, r);
    var stored := StoredFills(t, r.orderId);
    SyncedFillsAreValid(stored, r.fills);
    JoinedIsValidIff(Written(t, r), r.orderId);
    if r.fills == [] {
      PickNothing(stored);
      assert Ids(r.fills) == {};
      assert SyncFills(stored, r.fills) == [];
    } else {
      SyncKeepsSomething(stored, r.fills);
      SyncedTotal(stored, r.fills);
    }
  }

  // ------------------------------------------------------------------
  // What loading gives back
  // ------------------------------------------------------------------

  /** A fill id names one execution for good: a reused id carries the content already stored. */
  predicate ReusedFillsUnchanged(stored: seq<OrderFill>, record: seq<OrderFill>) {
    forall f <- record, g <- stored :: f.fillId == g.fillId ==> f == g
  }

  lemma {:induction false} DistinctCountsOnce(s: seq<OrderFill>, f: OrderFill)
    requires Distinct(s)
    ensures multiset(s)[f] == if f in s then 1 else 0
  {
    if s != [] {
      DistinctCountsOnce(s[1..], f);
      assert s == [s[0]] + s[1..];
      assert f == s[0] ==> f !in s[1..];
    }
  }

  lemma SameMembersSameMultiset(a: seq<OrderFill>, b: seq<OrderFill>)
    requires Distinct(a) && Distinct(b)
    requires forall f :: f in a <==> f in b
    ensures multiset(a) == multiset(b)
  {
    forall f
      ensures multiset(a)[f] == multiset(b)[f]
    {
      DistinctCountsOnce(a, f);
      DistinctCountsOnce(b, f);
    }
  }

  lemma SyncIsTheRecord(stored: seq<OrderFill>, record: seq<OrderFill>)
    requires Distinct(stored) && Distinct(record) && ReusedFillsUnchanged(stored, record)
    ensures Distinct(SyncFills(stored, record))
    ensures multiset(SyncFills(stored, record)) == multiset(record)
    ensures FillTotal(SyncFills(stored, record)) == FillTotal(record)
  {
    PickMembers(stored, Ids(record), true);
    PickMembers(record, Ids(stored), false);
    var kept, added := Pick(stored, Ids(record), true), Pick(record, Ids(stored), false);
    var sync := kept + added;
    assert Distinct(sync) by {
      forall i, j | 0 <= i < j < |sync|
        ensures sync[i].fillId != sync[j].fillId
      {
        if i < |kept| && |kept| <= j {
          assert kept[i] in stored && added[j - |kept|] in record;
          assert kept[i].fillId in Ids(stored);
        }
      }
    }
    forall f
      ensures f in sync <==> f in record
    {
      if f in record && f.fillId in Ids(stored) {
        var g :| g in stored && g.fillId == f.fillId;
        assert f == g && f.fillId in Ids(record);
      }
      if f in kept {
        var g :| g in record && g.fillId == f.fillId;
        assert f == g;
      }
    }
    SameMembersSameMultiset(sync, record);
    SameMultisetSameTotal(sync, record);
  }

  function Without(s: seq<OrderFill>, i: nat): seq<OrderFill>
    requires i < |s|
  {
    s[..i] + s[i + 1..]
  }

  lemma TotalWithOneMore(a: seq<OrderFill>, f: OrderFill, b: seq<OrderFill>)
    ensures FillTotal(a + [f] + b) == f.quantity + FillTotal(a + b)
  {
    FillTotalAppend(a + [f], b);
    FillTotalAppend(a, [f]);
    FillTotalAppend(a, b);
    assert [f][1..] == [];
  }

  lemma {:induction false} WithoutOneTotal(s: seq<OrderFill>, i: nat)
    requires i < |s|
    ensures FillTotal(s) == s[i].quantity + FillTotal(Without(s, i))
  {
    assert s == s[..i] + [s[i]] + s[i + 1..];
    TotalWithOneMore(s[..i], s[i], s[i + 1..]);
  }

  lemma WithoutOneMembers(s: seq<OrderFill>, i: nat)
    requires i < |s|
    ensures multiset(Without(s, i)) == multiset(s) - multiset{s[i]}
  {
    assert s == s[..i] + [s[i]] + s[i + 1..];
  }

  lemma {:induction false} SameMultisetSameTotal(a: seq<OrderFill>, b: seq<OrderFill>)
    requires multiset(a) == multiset(b)
    ensures FillTotal(a) == FillTotal(b)
    decreases |a|
  {
    if a == [] {
      assert |b| == |multiset(b)| == |multiset(a)|;
    } else {
      assert a[0] in multiset(b);
      var i :| 0 <= i < |b| && b[i] == a[0];
      WithoutOneTotal(a, 0);
      WithoutOneTotal(b, i);
      WithoutOneMembers(a, 0);
      WithoutOneMembers(b, i);
      SameMultisetSameTotal(Without(a, 0), Without(b, i));
    }
  }

  /** A write whose reused fills are unchanged. */
  predicate CleanWrite(t: Tables, r: OrderRecord) {
    Valid(r) && Distinct(r.fills) && ReusedFillsUnchanged(StoredFills(t, r.orderId), r.fills)
  }

  /** Evidence stored and evidence written are both there to load. */
  lemma EvidenceIsLoaded(was: seq<OrderDiscrepancy>, record: seq<OrderDiscrepancy>)
    ensures var loaded := SortDiscrepancies(SyncDiscrepancies(was, record));
            && (forall d <- record :: (d.observedAt, d.detail) in Seen(loaded))
            && (forall d <- was :: d in loaded)
  {
    var rows := SyncDiscrepancies(was, record);
    var loaded := SortDiscrepancies(rows);
    SortDiscrepanciesKeeps(rows);
    UnseenMembers(record, Seen(was));
    forall d <- rows
      ensures d in loaded
    {
      assert d in multiset(rows);
    }
    forall d <- record
      ensures (d.observedAt, d.detail) in Seen(loaded)
    {
      if (d.observedAt, d.detail) in Seen(was) {
        var e :| e in was && (e.observedAt, e.detail) == (d.observedAt, d.detail);
        assert e in loaded;
      } else {
        assert d in loaded;
      }
    }
  }

  lemma FillsAreLoaded(t: Tables, r: OrderRecord)
    requires Consistent(t) && CleanWrite(t, r) && WriteError(t, r).None?
    ensures Consistent(Written(t, r)) && Hydrate(Written(t, r), r.orderId).Some?
    ensures multiset(Hydrate(Written(t, r), r.orderId).value.fills) == multiset(r.fills)
  {
    WrittenIsConsistent(t, r);
    var sync := SyncFills(StoredFills(t, r.orderId), r.fills);
    SyncIsTheRecord(StoredFills(t, r.orderId), r.fills);
    assert ValidFills(sync) by {
      forall f <- sync ensures ValidFill(f) { assert f in multiset(r.fills); }
    }
    assert |sync| == |multiset(sync)| == |r.fills|;
    JoinedIsValidIff(Written(t, r), r.orderId);
    SortFillsKeeps(sync);
  }

  /** Loading returns the record last written, its fills up to order, with every piece of evidence. */
  lemma LoadReturnsWhatWasWritten(t: Tables, r: OrderRecord)
    requires Consistent(t) && CleanWrite(t, r) && WriteError(t, r).None?
    ensures Consistent(Written(t, r)) && Hydrate(Written(t, r), r.orderId).Some?
    ensures var h := Hydrate(Written(t, r), r.orderId).value;
            && h == r.(fills := h.fills, discrepancies := h.discrepancies)
            && multiset(h.fills) == multiset(r.fills)
            && (forall d <- r.discrepancies :: (d.observedAt, d.detail) in Seen(h.discrepancies))
            && (forall d <- StoredDiscrepancies(t, r.orderId) :: d in h.discrepancies)
  {
    FillsAreLoaded(t, r);
    EvidenceIsLoaded(StoredDiscrepancies(t, r.orderId), r.discrepancies);
  }

  // ------------------------------------------------------------------
  // Any sequence of writes
  // ------------------------------------------------------------------

  /** Insert the record, or replace the row that already has its id. */
  function Put(t: Tables, r: OrderRecord): Tables {
    if r.orderId in t.orders then Replace(t, r).0 else Insert(t, r).0
  }

  function PutAll(t: Tables, writes: seq<OrderRecord>): Tables
    decreases |writes|
  {
    if writes == [] then t else PutAll(Put(t, writes[0]), writes[1..])
  }

  predicate CleanRun(t: Tables, writes: seq<OrderRecord>)
    decreases |writes|
  {
    writes == [] || (CleanWrite(t, writes[0]) && CleanRun(Put(t, writes[0]), writes[1..]))
  }

  /** Evidence is append-only: old rows stay where they were. */
  predicate EvidenceOnlyGrows(t: Tables, u: Tables) {
    forall id <- t.discrepancies :: id in u.discrepancies && t.discrepancies[id] <= u.discrepancies[id]
  }

  lemma OtherRowsUntouched(t: Tables, r: OrderRecord, id: OrderId)
    requires Consistent(t) && WriteError(t, r).None? && id in t.orders && id != r.orderId
    ensures Consistent(Written(t, r)) && Hydrate(Written(t, r), id) == Hydrate(t, id)
  {
    WrittenIsConsistent(t, r);
    assert Joined(Written(t, r), id) == Joined(t, id);
  }

  lemma OnlyTheWrittenRowMatters(t: Tables, r: OrderRecord)
    requires Consistent(t) && AllLoad(t) && WriteError(t, r).None?
    ensures Consistent(Written(t, r))
    ensures AllLoad(Written(t, r)) <==> Hydrate(Written(t, r), r.orderId).Some?
  {
    WrittenIsConsistent(t, r);
    var u := Written(t, r);
    forall id <- u.orders | id != r.orderId
      ensures Hydrate(u, id).Some?
    {
      OtherRowsUntouched(t, r, id);
    }
  }

  lemma WriteKeepsEvidence(t: Tables, r: OrderRecord)
    requires Consistent(t)
    ensures EvidenceOnlyGrows(t, Written(t, r))
  {
  }

  lemma PutKeepsLoading(t: Tables, r: OrderRecord)
    requires Consistent(t) && AllLoad(t) && CleanWrite(t, r)
    ensures Consistent(Put(t, r)) && AllLoad(Put(t, r)) && EvidenceOnlyGrows(t, Put(t, r))
  {
    if WriteError(t, r).None? {
      LoadReturnsWhatWasWritten(t, r);
      OnlyTheWrittenRowMatters(t, r);
      WriteKeepsEvidence(t, r);
      assert Put(t, r) == Written(t, r);
    } else {
      assert Put(t, r) == t;
    }
  }

  /** Every row stays loadable over every clean run, and no evidence is ever lost. */
  lemma {:induction false} EveryRowStaysLoadable(t: Tables, writes: seq<OrderRecord>)
    requires Consistent(t) && AllLoad(t) && CleanRun(t, writes)
    ensures Consistent(PutAll(t, writes)) && AllLoad(PutAll(t, writes))
    ensures EvidenceOnlyGrows(t, PutAll(t, writes))
    decreases |writes|
  {
    if writes != [] {
      PutKeepsLoading(t, writes[0]);
      EveryRowStaysLoadable(Put(t, writes[0]), writes[1..]);
    }
  }

  // ------------------------------------------------------------------
  // The engine's own writes
  // ------------------------------------------------------------------

  /** A fill message applied a second time: its id is already stored. */
  predicate ReplaysAStoredFill(t: Tables, r: OrderRecord, op: Op) {
    && op.ApplyFill?
    && op.fill.fillId in Ids(StoredFills(t, r.orderId))
    && r.filledQuantity + op.fill.quantity <= r.quantity
  }

  lemma SortKeepsIds(s: seq<OrderFill>)
    ensures Ids(SortFills(s)) == Ids(s) && (SortFills(s) == [] <==> s == [])
    ensures forall f :: f in SortFills(s) <==> f in s
  {
    SortFillsKeeps(s);
    forall f
      ensures f in SortFills(s) <==> f in s
    {
      assert f in multiset(SortFills(s)) <==> f in multiset(s);
    }
    assert |SortFills(s)| == |multiset(SortFills(s))| == |multiset(s)| == |s|;
  }

  /** Rewriting a loaded record with the same fills stores the same rows. */
  lemma RewritingSameFills(stored: seq<OrderFill>)
    ensures ReusedQuantitiesAgree(stored, SortFills(stored))
  {
    SortKeepsIds(stored);
    SortFillsKeeps(stored);
    PickEverything(stored, Ids(stored));
    PickEverything(SortFills(stored), Ids(stored));
  }

  lemma AddingOneFill(stored: seq<OrderFill>, sorted: seq<OrderFill>, f: OrderFill)
    requires f.quantity > 0 && Ids(sorted) == Ids(stored) && FillTotal(sorted) == FillTotal(stored)
    ensures ReusedQuantitiesAgree(stored, sorted + [f]) <==> f.fillId !in Ids(stored)
  {
    var record := sorted + [f];
    assert Ids(stored) <= Ids(record) by {
      forall id <- Ids(sorted) ensures id in Ids(record) {
        var g :| g in sorted && g.fillId == id;
        assert g in record;
      }
    }
    PickEverything(stored, Ids(record));
    PickEverything(sorted, Ids(stored));
    assert record[..|record| - 1] == sorted && record[|record| - 1] == f;
    FillTotalAppend(sorted, [f]);
    assert FillTotal([f]) == f.quantity + FillTotal([]);
    assert sorted + [] == sorted;
  }

  /** A first fill on an empty list is stored as it is. */
  lemma FirstFill(f: OrderFill)
    ensures SyncFills([], [f]) == [f] && FillTotal([f]) == f.quantity
  {
    assert [f][..0] == [];
    assert Pick([f], {}, false) == Pick([], {}, false) + [f];
    assert FillTotal([f]) == f.quantity + FillTotal([]);
    assert Ids([]) == {};
  }

  lemma LoadedRecordFacts(t: Tables, id: OrderId)
    requires Consistent(t) && id in t.orders && Hydrate(t, id).Some?
    ensures var r := Hydrate(t, id).value;
            && r.orderId == id && Valid(r) && ValidFills(t.fills[id]) && r.fills == SortFills(t.fills[id])
            && Ids(r.fills) == Ids(t.fills[id]) && FillTotal(r.fills) == FillTotal(t.fills[id])
            && (r.fills == [] <==> t.fills[id] == [])
  {
    SortKeepsIds(t.fills[id]);
    SortFillsKeeps(t.fills[id]);
    var r := Hydrate(t, id).value;
    forall f <- t.fills[id]
      ensures ValidFill(f)
    {
      assert f in r.fills;
    }
  }

  /** The fills a completed mutator writes: the loaded ones, none, or one more. */
  lemma WrittenFills(r: OrderRecord, op: Op)
    requires Step(r, op).Ok?
    ensures var w := Step(r, op).value;
            && w.orderId == r.orderId && w.clientOrderId == r.clientOrderId
            && (if op.ApplyFill? && r.filledQuantity + op.fill.quantity <= r.quantity
                then w.fills == r.fills + [op.fill]
                else w.fills == r.fills || w.fills == [])
  {
  }

  lemma OneMoreFillLoadsIff(t: Tables, id: OrderId, op: Op)
    requires Consistent(t) && id in t.orders && Hydrate(t, id).Some? && WellFormedOp(op) && op.ApplyFill?
    requires var r := Hydrate(t, id).value;
             && r.filledQuantity + op.fill.quantity <= r.quantity
             && Step(r, op).Ok? && WriteError(t, Step(r, op).value).None?
    ensures var r := Hydrate(t, id).value;
            var u := Written(t, Step(r, op).value);
            Consistent(u)
            && (Hydrate(u, id).Some? <==> !FillsAnAdoptedTotal(r, op) && !ReplaysAStoredFill(t, r, op))
  {
    var r := Hydrate(t, id).value;
    var w := Step(r, op).value;
    LoadedRecordFacts(t, id);
    WrittenFills(r, op);
    WrittenRecordIsValidIff(r, op);
    WrittenIsConsistent(t, w);
    if FillsAnAdoptedTotal(r, op) {
      OnlyFillNeverLoads(t, w, op.fill);
    } else {
      AddingOneFill(t.fills[id], r.fills, op.fill);
      WriteLoadsIff(t, w);
    }
  }

  lemma OnlyFillNeverLoads(t: Tables, w: OrderRecord, f: OrderFill)
    requires Consistent(t) && WriteError(t, w).None? && w.orderId in t.orders
    requires t.fills[w.orderId] == [] && w.fills == [f] && w.filledQuantity != f.quantity
    ensures Consistent(Written(t, w)) && Hydrate(Written(t, w), w.orderId).None?
  {
    WrittenIsConsistent(t, w);
    FirstFill(f);
    assert Written(t, w).fills[w.orderId] == [f];
    assert SortFills([f]) == InsertFill(f, SortFills([]));
  }

  /** A mutator that adds no fill writes over the stored ones, or over none. */
  lemma OtherMutatorsLoadIff(t: Tables, id: OrderId, op: Op)
    requires Consistent(t) && id in t.orders && Hydrate(t, id).Some? && WellFormedOp(op)
    requires var r := Hydrate(t, id).value;
             && Step(r, op).Ok? && WriteError(t, Step(r, op).value).None?
             && (op.ApplyFill? ==> r.filledQuantity + op.fill.quantity > r.quantity)
    ensures var u := Written(t, Step(Hydrate(t, id).value, op).value);
            Consistent(u) && Hydrate(u, id).Some?
  {
    var r := Hydrate(t, id).value;
    var w := Step(r, op).value;
    LoadedRecordFacts(t, id);
    WrittenFills(r, op);
    WrittenRecordIsValidIff(r, op);
    RewritingSameFills(t.fills[id]);
    WriteLoadsIff(t, w);
  }

  lemma WrittenKeepsKeys(t: Tables, id: OrderId, op: Op)
    requires Consistent(t) && id in t.orders && Hydrate(t, id).Some?
    requires Step(Hydrate(t, id).value, op).Ok?
    ensures Hydrate(t, id).value.orderId == id
    ensures Written(t, Step(Hydrate(t, id).value, op).value).orders.Keys == t.orders.Keys
  {
    LoadedRecordFacts(t, id);
    WrittenFills(Hydrate(t, id).value, op);
  }

  /**
    A completed engine mutator leaves its order loadable, with exactly two exceptions: a local
    fill landing on a total adopted from the venue, and a fill id applied twice.
   */
  lemma EngineWriteLoadsIff(t: Tables, id: OrderId, op: Op)
    requires Consistent(t) && id in t.orders && Hydrate(t, id).Some? && WellFormedOp(op)
    requires var r := Hydrate(t, id).value; Step(r, op).Ok? && WriteError(t, Step(r, op).value).None?
    ensures var r := Hydrate(t, id).value;
            var u := Written(t, Step(r, op).value);
            && Consistent(u) && r.orderId == id && u.orders.Keys == t.orders.Keys
            && (Hydrate(u, id).Some? <==> !FillsAnAdoptedTotal(r, op) && !ReplaysAStoredFill(t, r, op))
  {
    var r := Hydrate(t, id).value;
    WrittenKeepsKeys(t, id, op);
    if op.ApplyFill? && r.filledQuantity + op.fill.quantity <= r.quantity {
      OneMoreFillLoadsIff(t, id, op);
    } else {
      OtherMutatorsLoadIff(t, id, op);
    }
  }

  /** The record one engine call stores, unless loading, deciding or writing raises. */
  function Stores(t: Tables, id: OrderId, op: Op): Option<OrderRecord> {
    if id !in t.orders || Hydrate(t, id).None? then None
    else
      match Step(Hydrate(t, id).value, op)
      case Err(_) => None
      case Ok(w) => if WriteError(t, w).Some? then None else Some(w)
  }

  /** One engine call on a stored order; anything raised rolls the transaction back. */
  function Call(t: Tables, id: OrderId, op: Op): Tables {
    match Stores(t, id, op)
    case None => t
    case Some(w) => Written(t, w)
  }

  /** The call completes, and is one of the two that leave their order unreadable. */
  predicate Damages(t: Tables, id: OrderId, op: Op) {
    && Stores(t, id, op).Some?
    && var r := Hydrate(t, id).value;
       FillsAnAdoptedTotal(r, op) || ReplaysAStoredFill(t, r, op)
  }

  lemma StoresLoadsIff(t: Tables, id: OrderId, op: Op)
    requires Consistent(t) && WellFormedOp(op) && Stores(t, id, op).Some?
    ensures var w := Stores(t, id, op).value;
            && w.orderId == id && WriteError(t, w).None? && Consistent(Written(t, w))
            && (Hydrate(Written(t, w), id).Some? <==> !Damages(t, id, op))
  {
    LoadedRecordFacts(t, id);
    WrittenFills(Hydrate(t, id).value, op);
    EngineWriteLoadsIff(t, id, op);
  }

  lemma CallLoadsIff(t: Tables, id: OrderId, op: Op)
    requires Consistent(t) && AllLoad(t) && WellFormedOp(op)
    ensures Consistent(Call(t, id, op))
    ensures AllLoad(Call(t, id, op)) <==> !Damages(t, id, op)
  {
    var stored := Stores(t, id, op);
    if stored.Some? {
      StoresLoadsIff(t, id, op);
      OnlyTheWrittenRowMatters(t, stored.value);
    }
  }

  predicate AllLoadThroughout(t: Tables, calls: seq<(OrderId, Op)>)
    decreases |calls|
  {
    AllLoad(t) && (calls == [] || AllLoadThroughout(Call(t, calls[0].0, calls[0].1), calls[1..]))
  }

  predicate NothingDamaged(t: Tables, calls: seq<(OrderId, Op)>)
    decreases |calls|
  {
    calls == []
    || (!Damages(t, calls[0].0, calls[0].1) && NothingDamaged(Call(t, calls[0].0, calls[0].1), calls[1..]))
  }

  /** Over any sequence of engine calls: every order stays loadable iff no call is one of the two. */
  lemma {:induction false} EngineRunsLoadIff(t: Tables, calls: seq<(OrderId, Op)>)
    requires Consistent(t) && AllLoad(t) && forall c <- calls :: WellFormedOp(c.1)
    ensures AllLoadThroughout(t, calls) <==> NothingDamaged(t, calls)
    decreases |calls|
  {
    if calls != [] {
      CallLoadsIff(t, calls[0].0, calls[0].1);
      if !Damages(t, calls[0].0, calls[0].1) {
        EngineRunsLoadIff(Call(t, calls[0].0, calls[0].1), calls[1..]);
      }
    }
  }

  // ------------------------------------------------------------------
  // Why stale rows must be deleted
  // ------------------------------------------------------------------

  /** The rejected reading of "fills are append-only": stored rows are never removed. */
  function AppendOnlyFills(stored: seq<OrderFill>, record: seq<OrderFill>): seq<OrderFill> {
    stored + Pick(record, Ids(stored), false)
  }

  /**
    Under it, adopting a venue total (which drops the local fills) loads again only when the
    dropped fills happened to add up to the adopted total already.
   */
  lemma AppendOnlyBreaksAdoption(t: Tables, r: OrderRecord)
    requires Consistent(t) && r.orderId in t.orders && Valid(r) && r.fills == []
    requires ValidFills(t.fills[r.orderId]) && t.fills[r.orderId] != []
    requires WriteError(t, r).None?
    ensures var id := r.orderId;
            var u := Written(t, r).(fills := t.fills[id := AppendOnlyFills(t.fills[id], r.fills)]);
            Consistent(u)
            && (Hydrate(u, id).Some? <==> FillTotal(t.fills[id]) == r.filledQuantity)
            && Hydrate(Written(t, r), id).Some?
  {
    var id := r.orderId;
    WriteLoadsIff(t, r);
    assert AppendOnlyFills(t.fills[id], []) == t.fills[id];
    assert t.fills[id := t.fills[id]] == t.fills;
    KeptFillsAreConsistent(t, r);
    JoinedIsValidIff(Written(t, r).(fills := t.fills), id);
  }

  /** The columns of a record over the fill rows that were there. */
  lemma KeptFillsAreConsistent(t: Tables, r: OrderRecord)
    requires Consistent(t) && r.orderId in t.orders && WriteError(t, r).None?
    ensures Consistent(Written(t, r).(fills := t.fills))
  {
    WrittenIsConsistent(t, r);
  }
}
