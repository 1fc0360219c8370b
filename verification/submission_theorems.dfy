/** What every run of concurrent submissions guarantees, and what it does not. */
module SubmissionTheorems {
  import opened Common
  import opened Orders
  import opened Submission

  // ------------------------------------------------------------------
  // Over every run
  // ------------------------------------------------------------------

  /** However many workers, retries and crashes: the venue is given one order per id at most. */
  lemma AtMostOneSend(events: seq<Event>, c: ClientId)
    ensures Sends(Reached(events).history, c) <= 1
  {
    ReachedInv(events);
    assert Inv(Reached(events), c);
  }

  /** Nothing reaches the venue that was not first written down, stamped and bound to its approval. */
  lemma SentWasWrittenDown(events: seq<Event>, i: nat)
    requires i < |Reached(events).history| && Reached(events).history[i].Sent?
    ensures var s := Reached(events);
            var sent := s.history[i];
            var c := sent.record.clientOrderId;
            && sent.record.ReachedVenue() && Bound(sent.record, sent.approved)
            && c in s.rows && s.rows[c].ReachedVenue() && Bound(s.rows[c], sent.approved)
  {
    ReachedInv(events);
    var c := Reached(events).history[i].record.clientOrderId;
    assert Inv(Reached(events), c);
    assert IsSend(Reached(events).history[i], c);
  }

  /** So a row without a submission stamp proves the order has not left. */
  lemma NoStampMeansNotSent(events: seq<Event>, c: ClientId)
    requires c in Reached(events).rows && !Reached(events).rows[c].ReachedVenue()
    ensures Sends(Reached(events).history, c) == 0
  {
    ReachedInv(events);
    assert Inv(Reached(events), c);
    if Sends(Reached(events).history, c) != 0 {
      SomeSend(Reached(events).history, c);
    }
  }

  /** The insert race: one creator per stored order, every loser gets that order, a re-read finds it. */
  lemma OneCreatorPerOrder(events: seq<Event>, c: ClientId, w: nat)
    requires Works(Reached(events), w, c)
    ensures var s := Reached(events);
            && Inserts(s.history, c) == (if c in s.rows then 1 else 0)
            && (s.workers[w].pc.Rereading? ==> c in s.rows)
            && (s.workers[w].pc.Replayed? ==>
                  c in s.rows && s.workers[w].pc.winner.orderId == s.rows[c].orderId)
            && (Owns(s, w, c) ==> c in s.rows && s.workers[w].request.orderId == s.rows[c].orderId)
  {
    ReachedInv(events);
    assert Inv(Reached(events), c);
  }
}
