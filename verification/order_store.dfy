/**
  Durable order rows: one row of columns per order, its fill rows and its
  discrepancy rows. Writing a record replaces the columns, drops fill rows the
  record no longer carries, adds the ones it gained and only ever appends evidence.
  Loading joins the three back together and validates the result.
 */
module OrderStore {
  import opened Common
  import opened Orders
  import opened Lifecycle

  // ------------------------------------------------------------------
  // Tables as a value
  // ------------------------------------------------------------------

  datatype Tables = Tables(
    orders: map<OrderId, OrderRecord>,
    fills: map<OrderId, seq<OrderFill>>,
    discrepancies: map<OrderId, seq<OrderDiscrepancy>>)

  datatype StoreError =
    | NoSuchOrder
    | DuplicateClientOrderId
    | OrderIdInUse
    | IntegrityViolation

  /** The order row: every column of the record and none of its children. */
  function Columns(r: OrderRecord): OrderRecord {
    r.(fills := [], discrepancies := [])
  }

  predicate Consistent(t: Tables) {
    && t.fills.Keys == t.orders.Keys == t.discrepancies.Keys
    && (forall id <- t.orders :: t.orders[id].orderId == id && t.orders[id] == Columns(t.orders[id]))
    && (forall id <- t.orders :: Distinct(t.fills[id]))
    && (forall a <- t.orders, b <- t.orders ::
          t.orders[a].clientOrderId == t.orders[b].clientOrderId ==> a == b)
  }

  // ------------------------------------------------------------------
  // Fill rows
  // ------------------------------------------------------------------

  function Ids(fills: seq<OrderFill>): set<FillId> {
    set f <- fills :: f.fillId
  }

  /** UNIQUE (order_id, fill_id). */
  predicate Distinct(fills: seq<OrderFill>) {
    forall i, j :: 0 <= i < j < |fills| ==> fills[i].fillId != fills[j].fillId
  }

  /** The fills whose id is in `ids`, or is not, in order. */
  function Pick(fills: seq<OrderFill>, ids: set<FillId>, inside: bool): seq<OrderFill> {
    if fills == [] then []
    else
      var last := fills[|fills| - 1];
      Pick(fills[..|fills| - 1], ids, inside) + (if (last.fillId in ids) == inside then [last] else [])
  }

  /** Stale rows removed, missing rows added, shared ids left as they were stored. */
  function SyncFills(stored: seq<OrderFill>, record: seq<OrderFill>): seq<OrderFill> {
    Pick(stored, Ids(record), true) + Pick(record, Ids(stored), false)
  }

  lemma {:induction false} PickMembers(fills: seq<OrderFill>, ids: set<FillId>, inside: bool)
    ensures forall f :: f in Pick(fills, ids, inside) <==> f in fills && (f.fillId in ids) == inside
    ensures Distinct(fills) ==> Distinct(Pick(fills, ids, inside))
  {
    if fills != [] {
      var n := |fills| - 1;
      PickMembers(fills[..n], ids, inside);
      var p := Pick(fills[..n], ids, inside);
      assert fills == fills[..n] + [fills[n]];
      if Distinct(fills) {
        assert forall i :: 0 <= i < |p| ==> p[i] in fills[..n];
      }
    }
  }

  lemma {:induction false} PickSplitsTotal(fills: seq<OrderFill>, ids: set<FillId>)
    ensures FillTotal(Pick(fills, ids, true)) + FillTotal(Pick(fills, ids, false)) == FillTotal(fills)
  {
    if fills != [] {
      var n := |fills| - 1;
      var one := [fills[n]];
      PickSplitsTotal(fills[..n], ids);
      FillTotalAppend(fills[..n], one);
      FillTotalAppend(Pick(fills[..n], ids, true), one);
      FillTotalAppend(Pick(fills[..n], ids, false), one);
      assert fills == fills[..n] + one;
      assert FillTotal([]) == 0;
      assert Pick(fills[..n], ids, true) + [] == Pick(fills[..n], ids, true);
      assert Pick(fills[..n], ids, false) + [] == Pick(fills[..n], ids, false);
    }
  }

  lemma {:induction false} PickEverything(fills: seq<OrderFill>, ids: set<FillId>)
    requires Ids(fills) <= ids
    ensures Pick(fills, ids, true) == fills && Pick(fills, ids, false) == []
  {
    if fills != [] {
      var n := |fills| - 1;
      assert fills == fills[..n] + [fills[n]];
      assert forall f <- fills[..n] :: f in fills;
      assert forall f <- fills :: f.fillId in Ids(fills);
      PickEverything(fills[..n], ids);
    }
  }

  // ------------------------------------------------------------------
  // Discrepancy rows
  // ------------------------------------------------------------------

  function Seen(stored: seq<OrderDiscrepancy>): set<(Time, Evidence)> {
    set d <- stored :: (d.observedAt, d.detail)
  }

  function Unseen(record: seq<OrderDiscrepancy>, seen: set<(Time, Evidence)>): seq<OrderDiscrepancy> {
    if record == [] then []
    else
      var last := record[|record| - 1];
      Unseen(record[..|record| - 1], seen)
      + (if (last.observedAt, last.detail) in seen then [] else [last])
  }

  function SyncDiscrepancies(stored: seq<OrderDiscrepancy>, record: seq<OrderDiscrepancy>): seq<OrderDiscrepancy> {
    stored + Unseen(record, Seen(stored))
  }

  lemma {:induction false} UnseenMembers(record: seq<OrderDiscrepancy>, seen: set<(Time, Evidence)>)
    ensures forall d :: d in Unseen(record, seen) <==> d in record && (d.observedAt, d.detail) !in seen
  {
    if record != [] {
      UnseenMembers(record[..|record| - 1], seen);
      assert record == record[..|record| - 1] + [record[|record| - 1]];
    }
  }

  // ------------------------------------------------------------------
  // Loading
  // ------------------------------------------------------------------

  /** ORDER BY filled_at, fill_id. */
  predicate FillBefore(a: OrderFill, b: OrderFill) {
    a.filledAt < b.filledAt || (a.filledAt == b.filledAt && StringLeq(a.fillId.text, b.fillId.text))
  }

  function InsertFill(f: OrderFill, sorted: seq<OrderFill>): seq<OrderFill> {
    if sorted == [] || FillBefore(f, sorted[0]) then [f] + sorted
    else [sorted[0]] + InsertFill(f, sorted[1..])
  }

  function SortFills(fills: seq<OrderFill>): seq<OrderFill> {
    if fills == [] then [] else InsertFill(fills[0], SortFills(fills[1..]))
  }

  /** ORDER BY observed_at. */
  function InsertDiscrepancy(d: OrderDiscrepancy, sorted: seq<OrderDiscrepancy>): seq<OrderDiscrepancy> {
    if sorted == [] || d.observedAt <= sorted[0].observedAt then [d] + sorted
    else [sorted[0]] + InsertDiscrepancy(d, sorted[1..])
  }

  function SortDiscrepancies(ds: seq<OrderDiscrepancy>): seq<OrderDiscrepancy> {
    if ds == [] then [] else InsertDiscrepancy(ds[0], SortDiscrepancies(ds[1..]))
  }

  lemma {:induction false} InsertFillKeeps(f: OrderFill, s: seq<OrderFill>)
    ensures multiset(InsertFill(f, s)) == multiset{f} + multiset(s)
    ensures FillTotal(InsertFill(f, s)) == f.quantity + FillTotal(s)
  {
    if s == [] || FillBefore(f, s[0]) {
      assert ([f] + s)[1..] == s;
    } else {
      InsertFillKeeps(f, s[1..]);
      assert s == [s[0]] + s[1..];
      assert ([s[0]] + InsertFill(f, s[1..]))[1..] == InsertFill(f, s[1..]);
    }
  }

  /** Sorting neither loses a row nor changes the total the validator adds up. */
  lemma {:induction false} SortFillsKeeps(s: seq<OrderFill>)
    ensures multiset(SortFills(s)) == multiset(s) && FillTotal(SortFills(s)) == FillTotal(s)
  {
    if s != [] {
      SortFillsKeeps(s[1..]);
      InsertFillKeeps(s[0], SortFills(s[1..]));
      assert s == [s[0]] + s[1..];
    }
  }

  lemma {:induction false} InsertDiscrepancyKeeps(d: OrderDiscrepancy, s: seq<OrderDiscrepancy>)
    ensures multiset(InsertDiscrepancy(d, s)) == multiset{d} + multiset(s)
  {
    if s != [] && d.observedAt > s[0].observedAt {
      InsertDiscrepancyKeeps(d, s[1..]);
      assert s == [s[0]] + s[1..];
    }
  }

  lemma {:induction false} SortDiscrepanciesKeeps(s: seq<OrderDiscrepancy>)
    ensures multiset(SortDiscrepancies(s)) == multiset(s)
  {
    if s != [] {
      SortDiscrepanciesKeeps(s[1..]);
      InsertDiscrepancyKeeps(s[0], SortDiscrepancies(s[1..]));
      assert s == [s[0]] + s[1..];
    }
  }

  /** The join, before validation. */
  function Joined(t: Tables, id: OrderId): OrderRecord
    requires id in t.orders
  {
    t.orders[id].(fills := SortFills(StoredFills(t, id)),
                  discrepancies := SortDiscrepancies(StoredDiscrepancies(t, id)))
  }

  /** Build the record from its rows, or raise (None) when the validator refuses it. */
  function Hydrate(t: Tables, id: OrderId): Option<OrderRecord>
    requires id in t.orders
  {
    var r := Joined(t, id);
    if Valid(r) then Some(r) else None
  }

  predicate AllLoad(t: Tables) {
    forall id <- t.orders :: Hydrate(t, id).Some?
  }

  // ------------------------------------------------------------------
  // Writing, as a function of the tables
  // ------------------------------------------------------------------

  /** Another row already carries this client order id or this venue order id. */
  predicate ClientIdTaken(t: Tables, r: OrderRecord) {
    exists id <- t.orders :: id != r.orderId && t.orders[id].clientOrderId == r.clientOrderId
  }

  predicate VenueIdTaken(t: Tables, r: OrderRecord) {
    r.venueOrderId.Some?
    && exists id <- t.orders :: id != r.orderId && t.orders[id].venueOrderId == r.venueOrderId
  }

  function StoredFills(t: Tables, id: OrderId): seq<OrderFill> {
    if id in t.fills then t.fills[id] else []
  }

  function StoredDiscrepancies(t: Tables, id: OrderId): seq<OrderDiscrepancy> {
    if id in t.discrepancies then t.discrepancies[id] else []
  }

  function Written(t: Tables, r: OrderRecord): Tables {
    var id := r.orderId;
    Tables(t.orders[id := Columns(r)],
           t.fills[id := SyncFills(StoredFills(t, id), r.fills)],
           t.discrepancies[id := SyncDiscrepancies(StoredDiscrepancies(t, id), r.discrepancies)])
  }

  /** The error of writing this record, if the constraints refuse it. */
  function WriteError(t: Tables, r: OrderRecord): Option<StoreError> {
    if ClientIdTaken(t, r) then Some(DuplicateClientOrderId)
    else if VenueIdTaken(t, r) || !Distinct(SyncFills(StoredFills(t, r.orderId), r.fills)) then
      Some(IntegrityViolation)
    else None
  }

  function Insert(t: Tables, r: OrderRecord): (Tables, Result<OrderRecord, StoreError>) {
    if r.orderId in t.orders then (t, Err(OrderIdInUse))
    else
      match WriteError(t, r)
      case Some(e) => (t, Err(e))
      case None => (Written(t, r), Ok(r))
  }

  function Replace(t: Tables, r: OrderRecord): (Tables, Result<OrderRecord, StoreError>) {
    if r.orderId !in t.orders then (t, Err(NoSuchOrder))
    else
      match WriteError(t, r)
      case Some(e) => (t, Err(e))
      case None => (Written(t, r), Ok(r))
  }

  /** One more piece of evidence, written past the record mapping under the row's own state. */
  function Noted(t: Tables, id: OrderId, evidence: Evidence, now: Time): Tables {
    if id !in t.orders then t
    else t.(discrepancies := t.discrepancies[id :=
              StoredDiscrepancies(t, id) + [OrderDiscrepancy(now, evidence, t.orders[id].state)]])
  }

  lemma WrittenIsConsistent(t: Tables, r: OrderRecord)
    requires Consistent(t) && WriteError(t, r).None?
    ensures Consistent(Written(t, r))
  {
  }

  // ------------------------------------------------------------------
  // The loops
  // ------------------------------------------------------------------

  /** Delete the stored rows the record no longer carries, then add the ones it gained. */
  method SyncFillRows(stored: seq<OrderFill>, record: seq<OrderFill>) returns (rows: seq<OrderFill>)
    ensures rows == SyncFills(stored, record)
  {
    var intended := set f <- record :: f.fillId;
    var storedIds := set f <- stored :: f.fillId;
    rows := [];
    for i := 0 to |stored|
      invariant rows == Pick(stored[..i], intended, true)
    {
      assert stored[..i + 1][..i] == stored[..i];
      if stored[i].fillId in intended {
        rows := rows + [stored[i]];
      }
    }
    assert stored[..|stored|] == stored;
    var kept := rows;
    for j := 0 to |record|
      invariant rows == kept + Pick(record[..j], storedIds, false)
    {
      assert record[..j + 1][..j] == record[..j];
      if record[j].fillId !in storedIds {
        rows := rows + [record[j]];
      }
    }
    assert record[..|record|] == record;
  }

  /** Append the evidence not already stored; nothing is rewritten. */
  method AppendEvidence(stored: seq<OrderDiscrepancy>, record: seq<OrderDiscrepancy>)
    returns (rows: seq<OrderDiscrepancy>)
    ensures rows == SyncDiscrepancies(stored, record)
  {
    var seen := set d <- stored :: (d.observedAt, d.detail);
    rows := stored;
    for k := 0 to |record|
      invariant rows == stored + Unseen(record[..k], seen)
    {
      assert record[..k + 1][..k] == record[..k];
      if (record[k].observedAt, record[k].detail) !in seen {
        rows := rows + [record[k]];
      }
    }
    assert record[..|record|] == record;
  }

  predicate IsOpen(t: Tables, id: OrderId) {
    id in t.orders && !IsTerminal(t.orders[id].state)
  }

  /** Every open row is reported, loaded or by name, and nothing else is. */
  predicate IsScan(t: Tables, ids: seq<OrderId>, records: seq<OrderRecord>, unreadable: seq<OrderId>) {
    && (forall id <- ids :: IsOpen(t, id) ==>
          if Hydrate(t, id).Some? then Hydrate(t, id).value in records else id in unreadable)
    && (forall r <- records :: r.orderId in ids && IsOpen(t, r.orderId) && Hydrate(t, r.orderId) == Some(r))
    && (forall id <- unreadable :: id in ids && IsOpen(t, id) && Hydrate(t, id).None?)
  }

  function IdsOf(records: seq<OrderRecord>): seq<OrderId> {
    seq(|records|, i requires 0 <= i < |records| => records[i].orderId)
  }

  /** `a` is what is left of `b` when some of its elements are dropped. */
  predicate IsSubsequence(a: seq<OrderId>, b: seq<OrderId>)
    decreases |b|
  {
    if b == [] then a == []
    else
      var n := |b| - 1;
      IsSubsequence(a, b[..n]) || (a != [] && a[|a| - 1] == b[n] && IsSubsequence(a[..|a| - 1], b[..n]))
  }

  lemma SubsequenceGrows(a: seq<OrderId>, b: seq<OrderId>, id: OrderId)
    requires IsSubsequence(a, b)
    ensures IsSubsequence(a, b + [id]) && IsSubsequence(a + [id], b + [id])
  {
    assert (b + [id])[..|b|] == b && (a + [id])[..|a|] == a;
  }

  /** Hydrate each row on its own, so one bad row cannot hide the good ones. */
  method ScanRows(t: Tables, ids: seq<OrderId>) returns (records: seq<OrderRecord>, unreadable: seq<OrderId>)
    requires Consistent(t) && forall id <- ids :: id in t.orders
    ensures IsScan(t, ids, records, unreadable)
    ensures IsSubsequence(IdsOf(records), ids) && IsSubsequence(unreadable, ids)
  {
    records, unreadable := [], [];
    for i := 0 to |ids|
      invariant IsScan(t, ids[..i], records, unreadable)
      invariant IsSubsequence(IdsOf(records), ids[..i]) && IsSubsequence(unreadable, ids[..i])
    {
      SubsequenceGrows(IdsOf(records), ids[..i], ids[i]);
      SubsequenceGrows(unreadable, ids[..i], ids[i]);
      var id := ids[i];
      assert ids[..i + 1] == ids[..i] + [id];
      if !IsTerminal(t.orders[id].state) {
        var loaded := Hydrate(t, id);
        if loaded.Some? {
          records := records + [loaded.value];
          assert IdsOf(records) == IdsOf(records[..|records| - 1]) + [id];
        } else {
          unreadable := unreadable + [id];
        }
      }
    }
    assert ids[..|ids|] == ids;
  }

  // ------------------------------------------------------------------
  // The repository object
  // ------------------------------------------------------------------

  class OrderRepository {
    var orders: map<OrderId, OrderRecord>
    var fills: map<OrderId, seq<OrderFill>>
    var discrepancies: map<OrderId, seq<OrderDiscrepancy>>
    /** Row order: the order in which rows were created. */
    var created: seq<OrderId>

    ghost predicate Ready()
      reads this
    {
      && Consistent(Snapshot())
      && (forall i, j :: 0 <= i < j < |created| ==> created[i] != created[j])
      && (forall id :: id in created <==> id in orders)
    }

    function Snapshot(): Tables
      reads this
    {
      Tables(orders, fills, discrepancies)
    }

    constructor ()
      ensures Ready() && Snapshot() == Tables(map[], map[], map[]) && created == []
    {
      orders, fills, discrepancies, created := map[], map[], map[], [];
    }

    method Add(record: OrderRecord) returns (r: Result<OrderRecord, StoreError>)
      requires Ready()
      modifies this
      ensures Ready()
      ensures (Snapshot(), r) == Insert(old(Snapshot()), record)
      ensures created == old(created) + if r.Ok? then [record.orderId] else []
    {
      if record.orderId in orders {
        return Err(OrderIdInUse);
      }
      r := Write(record);
      if r.Ok? {
        created := created + [record.orderId];
      }
    }

    method Update(record: OrderRecord) returns (r: Result<OrderRecord, StoreError>)
      requires Ready()
      modifies this
      ensures Ready() && created == old(created)
      ensures (Snapshot(), r) == Replace(old(Snapshot()), record)
    {
      if record.orderId !in orders {
        return Err(NoSuchOrder);
      }
      r := Write(record);
    }

    /** One transaction: set the columns, reconcile the children, or roll everything back. */
    method Write(record: OrderRecord) returns (r: Result<OrderRecord, StoreError>)
      requires Consistent(Snapshot())
      modifies this`orders, this`fills, this`discrepancies
      ensures Consistent(Snapshot())
      ensures r == (match WriteError(old(Snapshot()), record) case Some(e) => Err(e) case None => Ok(record))
      ensures Snapshot() == if r.Ok? then Written(old(Snapshot()), record) else old(Snapshot())
    {
      ghost var was := Snapshot();
      var orders0, fills0, discrepancies0 := orders, fills, discrepancies;
      if ClientIdTaken(Snapshot(), record) {
        return Err(DuplicateClientOrderId);
      }
      if VenueIdTaken(Snapshot(), record) {
        return Err(IntegrityViolation);
      }
      orders := orders[record.orderId := Columns(record)];
      WriteChildren(record);
      if !Distinct(fills[record.orderId]) {
        orders, fills, discrepancies := orders0, fills0, discrepancies0;
        return Err(IntegrityViolation);
      }
      WrittenIsConsistent(was, record);
      r := Ok(record);
    }

    /** The children of one order, in the caller's transaction. */
    method WriteChildren(record: OrderRecord)
      modifies this`fills, this`discrepancies
      ensures fills == old(fills)[record.orderId :=
                SyncFills(StoredFills(old(Snapshot()), record.orderId), record.fills)]
      ensures discrepancies == old(discrepancies)[record.orderId :=
                SyncDiscrepancies(StoredDiscrepancies(old(Snapshot()), record.orderId), record.discrepancies)]
    {
      var id := record.orderId;
      var rows := SyncFillRows(StoredFills(Snapshot(), id), record.fills);
      var evidence := AppendEvidence(StoredDiscrepancies(Snapshot(), id), record.discrepancies);
      fills := fills[id := rows];
      discrepancies := discrepancies[id := evidence];
    }

    /** Evidence for a row that cannot be loaded, written past the record mapping. */
    method RecordUnreadable(id: OrderId, detail: Evidence, now: Time) returns (r: Result<(), StoreError>)
      requires Ready()
      modifies this`discrepancies
      ensures Ready()
      ensures r.Ok? <==> id in orders
      ensures Snapshot() == Noted(old(Snapshot()), id, detail, now)
    {
      if id !in orders {
        return Err(NoSuchOrder);
      }
      discrepancies := discrepancies[id := discrepancies[id] + [OrderDiscrepancy(now, detail, orders[id].state)]];
      r := Ok(());
    }

    /** The recovery sweep's read. */
    method ScanOpen() returns (records: seq<OrderRecord>, unreadable: seq<OrderId>)
      requires Ready()
      ensures IsScan(Snapshot(), created, records, unreadable)
      ensures IsSubsequence(IdsOf(records), created) && IsSubsequence(unreadable, created)
    {
      records, unreadable := ScanRows(Snapshot(), created);
    }
  }
}
