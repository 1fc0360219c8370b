/** What the order store holds after a write, row by row, and what it refuses. */
module StoreContents {
  import opened Common
  import opened Orders
  import opened OrderStore
  import opened StoreTheorems

  // ------------------------------------------------------------------
  // The order in which children are loaded
  // ------------------------------------------------------------------

  predicate FillsInOrder(s: seq<OrderFill>) {
    forall i, j :: 0 <= i < j < |s| ==>
      s[i].filledAt < s[j].filledAt
      || (s[i].filledAt == s[j].filledAt && StringLeq(s[i].fillId.text, s[j].fillId.text))
  }

  predicate EvidenceInOrder(s: seq<OrderDiscrepancy>) {
    forall i, j :: 0 <= i < j < |s| ==> s[i].observedAt <= s[j].observedAt
  }

  lemma BeforeIsTransitive(a: OrderFill, b: OrderFill, c: OrderFill)
    requires FillBefore(a, b) && FillBefore(b, c)
    ensures FillBefore(a, c)
  {
    if a.filledAt == b.filledAt == c.filledAt {
      StringLeqTransitive(a.fillId.text, b.fillId.text, c.fillId.text);
    }
  }

  lemma {:induction false} InsertFillInOrder(f: OrderFill, s: seq<OrderFill>)
    requires FillsInOrder(s)
    ensures FillsInOrder(InsertFill(f, s))
  {
    if s != [] && FillBefore(f, s[0]) {
      forall j | 0 <= j < |s|
        ensures FillBefore(f, s[j])
      {
        if j > 0 {
          BeforeIsTransitive(f, s[0], s[j]);
        }
      }
    } else if s != [] {
      StringLeqTotal(f.fillId.text, s[0].fillId.text);
      InsertFillInOrder(f, s[1..]);
      InsertFillKeeps(f, s[1..]);
      var rest := InsertFill(f, s[1..]);
      forall j | 0 <= j < |rest|
        ensures FillBefore(s[0], rest[j])
      {
        assert rest[j] in multiset(rest);
        if rest[j] != f {
          var k :| 0 <= k < |s[1..]| && s[1..][k] == rest[j];
          assert s[k + 1] == rest[j];
        }
      }
    }
  }

  lemma {:induction false} SortedFills(s: seq<OrderFill>)
    ensures FillsInOrder(SortFills(s))
  {
    if s != [] {
      SortedFills(s[1..]);
      InsertFillInOrder(s[0], SortFills(s[1..]));
    }
  }

  lemma {:induction false} InsertDiscrepancyInOrder(d: OrderDiscrepancy, s: seq<OrderDiscrepancy>)
    requires EvidenceInOrder(s)
    ensures EvidenceInOrder(InsertDiscrepancy(d, s))
  {
    if s != [] && d.observedAt > s[0].observedAt {
      InsertDiscrepancyInOrder(d, s[1..]);
      InsertDiscrepancyKeeps(d, s[1..]);
      var rest := InsertDiscrepancy(d, s[1..]);
      forall j | 0 <= j < |rest|
        ensures s[0].observedAt <= rest[j].observedAt
      {
        assert rest[j] in multiset(rest);
        if rest[j] != d {
          var k :| 0 <= k < |s[1..]| && s[1..][k] == rest[j];
          assert s[k + 1] == rest[j];
        }
      }
    }
  }

  lemma {:induction false} SortedEvidence(s: seq<OrderDiscrepancy>)
    ensures EvidenceInOrder(SortDiscrepancies(s))
  {
    if s != [] {
      SortedEvidence(s[1..]);
      InsertDiscrepancyInOrder(s[0], SortDiscrepancies(s[1..]));
    }
  }

  /** A record is loaded with exactly its child rows, the fills by time and id and the evidence by time. */
  lemma LoadedInOrder(t: Tables, id: OrderId)
    requires id in t.orders && Hydrate(t, id).Some?
    ensures var r := Hydrate(t, id).value;
            && FillsInOrder(r.fills) && multiset(r.fills) == multiset(StoredFills(t, id))
            && EvidenceInOrder(r.discrepancies) && multiset(r.discrepancies) == multiset(StoredDiscrepancies(t, id))
            && r == t.orders[id].(fills := r.fills, discrepancies := r.discrepancies)
  {
    SortedFills(StoredFills(t, id));
    SortFillsKeeps(StoredFills(t, id));
    SortedEvidence(StoredDiscrepancies(t, id));
    SortDiscrepanciesKeeps(StoredDiscrepancies(t, id));
  }

  // ------------------------------------------------------------------
  // The rows a write leaves
  // ------------------------------------------------------------------

  /** A fill row is there afterwards if it was and the record still carries its id, or the record brings a new id. */
  lemma FillRowsAfter(t: Tables, r: OrderRecord, f: OrderFill)
    ensures f in StoredFills(Written(t, r), r.orderId)
            <==> (f in StoredFills(t, r.orderId) && exists g <- r.fills :: g.fillId == f.fillId)
                 || (f in r.fills && forall g <- StoredFills(t, r.orderId) :: g.fillId != f.fillId)
  {
    var stored := StoredFills(t, r.orderId);
    PickMembers(stored, Ids(r.fills), true);
    PickMembers(r.fills, Ids(stored), false);
  }

  predicate IsSeen(stored: seq<OrderDiscrepancy>, d: OrderDiscrepancy) {
    exists e <- stored :: e.observedAt == d.observedAt && e.detail == d.detail
  }

  lemma {:induction false} UnseenCount(record: seq<OrderDiscrepancy>, stored: seq<OrderDiscrepancy>, d: OrderDiscrepancy)
    ensures multiset(Unseen(record, Seen(stored)))[d] == if IsSeen(stored, d) then 0 else multiset(record)[d]
  {
    if record != [] {
      var n := |record| - 1;
      UnseenCount(record[..n], stored, d);
      assert record == record[..n] + [record[n]];
      var x := record[n];
      assert (x.observedAt, x.detail) in Seen(stored) <==> IsSeen(stored, x);
    }
  }

  /** Evidence is only added, at the end, and what was stored already is not added again. */
  lemma EvidenceAfter(t: Tables, r: OrderRecord, d: OrderDiscrepancy)
    ensures var was, now := StoredDiscrepancies(t, r.orderId), StoredDiscrepancies(Written(t, r), r.orderId);
            && was <= now
            && multiset(now[|was|..])[d] == if IsSeen(was, d) then 0 else multiset(r.discrepancies)[d]
  {
    var was := StoredDiscrepancies(t, r.orderId);
    UnseenCount(r.discrepancies, was, d);
    assert (was + Unseen(r.discrepancies, Seen(was)))[|was|..] == Unseen(r.discrepancies, Seen(was));
  }

  /** The row itself carries every column of the record, and no other order's rows change. */
  lemma RowsAfter(t: Tables, r: OrderRecord, other: OrderId)
    ensures r.orderId in Written(t, r).orders && Written(t, r).orders[r.orderId] == r.(fills := [], discrepancies := [])
    ensures other != r.orderId ==>
              && (other in Written(t, r).orders <==> other in t.orders)
              && (other in t.orders ==> Written(t, r).orders[other] == t.orders[other])
              && StoredFills(Written(t, r), other) == StoredFills(t, other)
              && StoredDiscrepancies(Written(t, r), other) == StoredDiscrepancies(t, other)
  {
  }

  // ------------------------------------------------------------------
  // What is refused
  // ------------------------------------------------------------------

  /** No two orders share a client id, none share the id the venue gave, and no order has a fill id twice. */
  predicate KeysAreUnique(t: Tables) {
    && (forall a <- t.orders, b <- t.orders :: a != b ==> t.orders[a].clientOrderId != t.orders[b].clientOrderId)
    && (forall a <- t.orders, b <- t.orders :: a != b && t.orders[a].venueOrderId.Some? ==>
          t.orders[a].venueOrderId != t.orders[b].venueOrderId)
    && (forall id <- t.orders :: Distinct(StoredFills(t, id)))
  }

  lemma AcceptedKeepsKeys(t: Tables, r: OrderRecord)
    requires KeysAreUnique(t) && WriteError(t, r).None?
    ensures KeysAreUnique(Written(t, r))
  {
    var u := Written(t, r);
    forall a <- u.orders
      ensures Distinct(StoredFills(u, a))
    {
      RowsAfter(t, r, a);
    }
    forall a <- u.orders, b <- u.orders | a != b
      ensures u.orders[a].clientOrderId != u.orders[b].clientOrderId
      ensures u.orders[a].venueOrderId.Some? ==> u.orders[a].venueOrderId != u.orders[b].venueOrderId
    {
      RowsAfter(t, r, a);
      RowsAfter(t, r, b);
    }
  }

  lemma RefusedBreaksKeys(t: Tables, r: OrderRecord)
    requires WriteError(t, r).Some?
    ensures !KeysAreUnique(Written(t, r))
  {
    var u := Written(t, r);
    if ClientIdTaken(t, r) {
      var id :| id in t.orders && id != r.orderId && t.orders[id].clientOrderId == r.clientOrderId;
      assert u.orders[id].clientOrderId == u.orders[r.orderId].clientOrderId;
    } else if VenueIdTaken(t, r) {
      var id :| id in t.orders && id != r.orderId && t.orders[id].venueOrderId == r.venueOrderId;
      assert u.orders[id].venueOrderId == u.orders[r.orderId].venueOrderId;
    } else {
      assert r.orderId in u.orders && !Distinct(StoredFills(u, r.orderId));
    }
  }

  /** A write is refused exactly when the tables with it in them would break one of the three constraints. */
  lemma RefusedIff(t: Tables, r: OrderRecord)
    requires Consistent(t) && KeysAreUnique(t)
    ensures WriteError(t, r).Some? <==> !KeysAreUnique(Written(t, r))
    ensures WriteError(t, r) == Some(DuplicateClientOrderId)
            <==> exists id <- t.orders :: id != r.orderId && t.orders[id].clientOrderId == r.clientOrderId
  {
    if WriteError(t, r).None? {
      AcceptedKeepsKeys(t, r);
    } else {
      RefusedBreaksKeys(t, r);
    }
  }

  function PutEach(t: Tables, writes: seq<OrderRecord>): Tables
    decreases |writes|
  {
    if writes == [] then t
    else PutEach(if writes[0].orderId in t.orders then Replace(t, writes[0]).0 else Insert(t, writes[0]).0, writes[1..])
  }

  /** So over any inserts and updates, refused ones included, the constraints hold. */
  lemma {:induction false} KeysStayUnique(t: Tables, writes: seq<OrderRecord>)
    requires Consistent(t) && KeysAreUnique(t)
    ensures Consistent(PutEach(t, writes)) && KeysAreUnique(PutEach(t, writes))
    decreases |writes|
  {
    if writes != [] {
      var r := writes[0];
      RefusedIff(t, r);
      if WriteError(t, r).None? {
        WrittenIsConsistent(t, r);
      }
      KeysStayUnique(if r.orderId in t.orders then Replace(t, r).0 else Insert(t, r).0, writes[1..]);
    }
  }
}
