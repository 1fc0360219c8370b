/** What the reports of the recovery and of the sweep count, in terms of the rows and the answers. */
module SweepReports {
  import opened Common
  import opened Orders
  import opened Lifecycle
  import opened Mutators
  import opened OrderStore
  import opened StoreTheorems
  import opened Sweep
  import opened SweepTheorems

  // ------------------------------------------------------------------
  // Recovery
  // ------------------------------------------------------------------

  predicate Loads(t: Tables, id: OrderId)
    requires id in t.orders
  {
    Hydrate(t, id).Some?
  }

  lemma FateMeans(t: Tables, id: OrderId)
    requires Sane(t) && id in t.orders
    ensures var fate, state := FateAt(t, id).value, t.orders[id].state;
            && (fate == Interrupted <==> Loads(t, id) && IsWorking(state))
            && (fate == NeverSubmitted <==> Loads(t, id) && state in {Created, Validating})
            && (fate == AlreadyUnresolved <==> Loads(t, id) && state in {Unknown, Reconciling})
            && (fate == Damaged <==> !Loads(t, id) && !IsTerminal(state))
  {
    assert Stamped(t.orders[id]);
    match t.orders[id].state {
      case Created | Validating | Unknown | Reconciling =>
      case Submitted | Accepted | PartiallyFilled | CancelRequested => assert IsWorking(t.orders[id].state);
      case Filled | Cancelled | Rejected | Expired =>
    }
  }

  predicate LeavesTheRow(row: OrderRecord, after: OrderRecord, loads: bool, now: Time) {
    after == if loads && IsWorking(row.state) then row.(state := Unknown, updatedAt := now) else row
  }

  lemma MovedRowIs(t: Tables, u: Tables, now: Time, id: OrderId)
    requires Sane(t) && IsRecovered(t, u, now) && id in t.orders
    ensures LeavesTheRow(t.orders[id], u.orders[id], Loads(t, id), now)
  {
    FateMeans(t, id);
    RecoveredRowIs(t, u, now, id);
  }

  lemma MarkIs(t: Tables, u: Tables, now: Time, id: OrderId)
    requires IsRecovered(t, u, now) && id in t.orders
    ensures StoredDiscrepancies(u, id)
            == StoredDiscrepancies(t, id) + MarkOn(FateAt(t, id), true, t.orders[id].state, now)
  {
  }

  lemma MarkMeans(fate: Option<Fate>, loads: bool, state: OrderState, now: Time)
    requires fate == Some(Damaged) <==> !loads && !IsTerminal(state)
    ensures MarkOn(fate, true, state, now)
            == if loads || IsTerminal(state) then [] else [OrderDiscrepancy(now, CouldNotBeLoaded, state)]
  {
  }

  lemma MarksAre(t: Tables, u: Tables, now: Time, id: OrderId)
    requires Sane(t) && IsRecovered(t, u, now) && id in t.orders
    ensures StoredDiscrepancies(u, id)
            == StoredDiscrepancies(t, id)
               + if Loads(t, id) || IsTerminal(t.orders[id].state) then []
                 else [OrderDiscrepancy(now, CouldNotBeLoaded, t.orders[id].state)]
  {
    MarkIs(t, u, now, id);
    FateMeans(t, id);
    MarkMeans(FateAt(t, id), Loads(t, id), t.orders[id].state, now);
  }

  /**
    After recovery every order that was working at the venue is UNKNOWN, and every other row is as
    it was. Fills stay, and the only evidence added is one piece against each open row that does
    not load.
   */
  lemma RecoveryLeaves(t: Tables, created: seq<OrderId>, now: Time, id: OrderId)
    requires Sane(t) && Lists(created, t) && id in t.orders
    ensures var u, row := Recovered(t, created, now), t.orders[id];
            && u.orders.Keys == t.orders.Keys && u.fills == t.fills
            && LeavesTheRow(row, u.orders[id], Loads(t, id), now)
            && StoredDiscrepancies(u, id)
               == StoredDiscrepancies(t, id)
                  + if Loads(t, id) || IsTerminal(row.state) then []
                    else [OrderDiscrepancy(now, CouldNotBeLoaded, row.state)]
  {
    RecoveredIs(t, created, now);
    MovedRowIs(t, Recovered(t, created, now), now, id);
    MarksAre(t, Recovered(t, created, now), now, id);
  }

  lemma {:induction false} ReportHolds(fates: OrderId -> Option<Fate>, ids: seq<OrderId>, n: nat)
    requires n <= |ids| && OneRowEach(ids)
    ensures var r := Report(fates, ids, n);
            forall id :: (id in r.interrupted <==> id in ids[..n] && fates(id) == Some(Interrupted))
                         && (id in r.neverSubmitted <==> id in ids[..n] && fates(id) == Some(NeverSubmitted))
                         && (id in r.alreadyUnresolved <==> id in ids[..n] && fates(id) == Some(AlreadyUnresolved))
                         && (id in r.unreadable <==> id in ids[..n] && fates(id) == Some(Damaged))
    ensures var r := Report(fates, ids, n);
            OneRowEach(r.interrupted) && OneRowEach(r.neverSubmitted) && OneRowEach(r.alreadyUnresolved)
            && OneRowEach(r.unreadable)
  {
    if n > 0 {
      ReportHolds(fates, ids, n - 1);
      assert ids[..n] == ids[..n - 1] + [ids[n - 1]];
      assert ids[n - 1] !in ids[..n - 1];
    }
  }

  /**
    The report names each order once: as interrupted what was working, as never submitted what had
    not left, as unresolved what was in doubt already, and as unreadable what does not load.
   */
  lemma RecoveryReports(t: Tables, created: seq<OrderId>, id: OrderId)
    requires Sane(t) && Lists(created, t) && id in t.orders
    ensures var r, state := Report(Fates(t), created, |created|), t.orders[id].state;
            && (id in r.interrupted <==> Loads(t, id) && IsWorking(state))
            && (id in r.neverSubmitted <==> Loads(t, id) && state in {Created, Validating})
            && (id in r.alreadyUnresolved <==> Loads(t, id) && state in {Unknown, Reconciling})
            && (id in r.unreadable <==> !Loads(t, id) && !IsTerminal(state))
            && OneRowEach(r.interrupted) && OneRowEach(r.neverSubmitted) && OneRowEach(r.alreadyUnresolved)
            && OneRowEach(r.unreadable)
  {
    assert created[..|created|] == created;
    ReportHolds(Fates(t), created, |created|);
    FateMeans(t, id);
  }

  // ------------------------------------------------------------------
  // The sweep
  // ------------------------------------------------------------------

  /** The places of the orders the venue gave this kind of answer about. */
  function Kinds(ids: seq<OrderId>, answers: map<OrderId, Answer>, kind: Answer -> bool): set<nat> {
    set k: nat | k < |ids| && kind(Ask(answers, ids[k]))
  }

  lemma OneMoreOfKind(ids: seq<OrderId>, answers: map<OrderId, Answer>, kind: Answer -> bool)
    requires ids != []
    ensures |Kinds(ids, answers, kind)|
            == |Kinds(ids[..|ids| - 1], answers, kind)| + if kind(Ask(answers, ids[|ids| - 1])) then 1 else 0
  {
    var n, before := |ids| - 1, Kinds(ids[..|ids| - 1], answers, kind);
    assert Kinds(ids, answers, kind) == if kind(Ask(answers, ids[n])) then before + {n} else before;
  }

  lemma {:induction false} CountIs(ids: seq<OrderId>, answers: map<OrderId, Answer>, kind: Answer -> bool)
    ensures Count(ids, answers, kind) == |Kinds(ids, answers, kind)|
  {
    if ids == [] {
      assert Kinds(ids, answers, kind) == {};
    } else {
      CountIs(ids[..|ids| - 1], answers, kind);
      OneMoreOfKind(ids, answers, kind);
    }
  }

  /** The sweep asks about the orders that load, were sent and are open, in row order. */
  lemma {:induction false} CandidatesInRowOrder(t: Tables, created: seq<OrderId>)
    ensures IsSubsequence(Candidates(t, created), created)
    ensures forall id :: id in Candidates(t, created)
                         <==> id in created && id in t.orders && Loads(t, id) && t.orders[id].submittedAt.Some?
                              && t.orders[id].state !in {Filled, Cancelled, Rejected, Expired}
  {
    if created != [] {
      var n := |created| - 1;
      assert created == created[..n] + [created[n]];
      CandidatesInRowOrder(t, created[..n]);
      var ids := Candidates(t, created[..n]);
      SubsequenceGrows(ids, created[..n], created[n]);
      assert ids + [] == ids;
    }
  }

  /** What the report of a finished sweep counts. */
  lemma SweepCounts(t: Tables, created: seq<OrderId>, answers: map<OrderId, Answer>, meanwhile: seq<Commits>, now: Time)
    requires Swept(t, created, answers, meanwhile, now).1.Ok?
    ensures var r, ids := Swept(t, created, answers, meanwhile, now).1.value, Candidates(t, created);
            var silent := set k: nat | k < |ids| && !(ids[k] in answers && !answers[ids[k]].Unreachable?);
            var gone := set k: nat | k < |ids| && ids[k] in answers && answers[ids[k]].Absent?;
            && r.checked == |ids| && r.unreachable == |silent|
            && (r.resetSuspected <==> |gone| >= 2 && forall k :: 0 <= k < |ids| ==>
                                        !(ids[k] in answers && answers[ids[k]].Found?))
            && (r.resetSuspected ==> r.resolved == 0)
  {
    var ids := Candidates(t, created);
    CountIs(ids, answers, IsUnreachable);
    CountIs(ids, answers, IsAbsent);
    ResetSuspectedIff(ids, answers);
    assert Kinds(ids, answers, IsUnreachable)
           == set k: nat | k < |ids| && !(ids[k] in answers && !answers[ids[k]].Unreachable?);
    assert Kinds(ids, answers, IsAbsent) == set k: nat | k < |ids| && ids[k] in answers && answers[ids[k]].Absent?;
    assert (forall id <- ids :: !Ask(answers, id).Found?)
           <==> forall k :: 0 <= k < |ids| ==> !(ids[k] in answers && answers[ids[k]].Found?);
  }
}
