/** When a run of the multicast pipeline ends, and what its records say, under any loss. */
module TomStops {
  import opened Messages
  import opened Metrics
  import opened Ledger
  import Network
  import opened TomRun
  import opened TomSafety
  import opened TomProgress

  /** Every node has delivered every message after `r` rounds. */
  ghost predicate AllHave(c: Plan, r: nat)
    requires c.n > 0
  {
    forall j: nat, t: nat :: j < c.n && t < c.messages ==> (t, Msg(t)) in After(c, r).states[j].delivered
  }

  /** Every message has been announced after `r` rounds: some node has delivered it in the processing of a round. */
  ghost predicate AllAnnounced(c: Plan, r: nat)
    requires c.n > 0
  {
    forall t: nat :: t < c.messages ==> t in After(c, r).global
  }

  lemma DeliveredCounted(c: Plan, r: nat, j: nat)
    requires ValidPlan(c) && j < c.n
    ensures |After(c, r).states[j].delivered| >= c.messages
      <==> forall t: nat :: t < c.messages ==> (t, Msg(t)) in After(c, r).states[j].delivered
  {
    hide After;
    var list := After(c, r).states[j].delivered;
    TotalOrder(c, r, j, j);
    if |list| >= c.messages {
      forall t: nat | t < c.messages ensures (t, Msg(t)) in list {
        assert list[t] == (t, Msg(t));
      }
    } else {
      var t: nat := |list|;
      assert (t, Msg(t)) !in list;
    }
  }

  lemma DeliveredIsHad(c: Plan, r: nat)
    requires ValidPlan(c)
    ensures AllDelivered(After(c, r).states, c.messages) <==> AllHave(c, r)
  {
    hide After;
    forall j: nat | j < c.n
      ensures |After(c, r).states[j].delivered| >= c.messages
        <==> forall t: nat :: t < c.messages ==> (t, Msg(t)) in After(c, r).states[j].delivered
    {
      DeliveredCounted(c, r, j);
    }
  }

  lemma AnnouncedCounted(c: Plan, r: nat)
    requires ValidPlan(c)
    ensures |After(c, r).global| >= c.messages <==> AllAnnounced(c, r)
  {
    hide After;
    ReachableOk(c, r);
    ReachableBooks(c, r);
    var global := After(c, r).global;
    forall t | t in global ensures t < c.messages {
      var j :| 0 <= j < |After(c, r).states| && t < |After(c, r).states[j].delivered|;
      assert NodeOk(After(c, r).states[j], After(c, r).nextTerm);
      DeliveredWereSent(After(c, r).states[j], After(c, r).nextTerm);
    }
    Network.UptoSize(c.messages);
    assert global <= Network.Upto(c.messages);
    Network.SubsetSize(global, Network.Upto(c.messages));
    if |global| >= c.messages {
      SubsetIsAll(global, Network.Upto(c.messages));
    } else if AllAnnounced(c, r) {
      assert Network.Upto(c.messages) <= global;
      Network.SubsetSize(Network.Upto(c.messages), global);
    }
  }

  lemma FlagKept(c: Plan, sys: Sys, r: nat)
    requires |sys.states| == c.n > 0
    ensures Prepared(c, sys, r).0.stop == sys.stop
  {
    hide Deliver, Inserted, Gap, MinExpected, Repairs, PiggybackOf;
  }

  lemma {:induction false} FlagUntouched(c: Plan, sys: Sys, r: nat, pkt: Packet, k: nat)
    requires |sys.states| == c.n && k <= c.n
    ensures ProcessUpTo(c, sys, r, pkt, k).stop == sys.stop
  {
    hide Deliver, Stored, Ledger.Announced;
    if k > 0 {
      FlagUntouched(c, sys, r, pkt, k - 1);
    }
  }

  lemma StopsAfter(c: Plan, r: nat)
    requires ValidPlan(c)
    ensures var sys := After(c, r + 1);
      sys.stop <==>
        || After(c, r).stop || (AllDelivered(sys.states, c.messages) && r + 1 >= c.messages)
        || (|sys.global| >= c.messages && r > c.messages + c.drain + c.messages * 2) || r > c.messages * 20 + 500
  {
    hide Prepared, ProcessUpTo, NodeOk;
    var (sys, pkt) := Prepared(c, After(c, r), r);
    FlagKept(c, After(c, r), r);
    FlagUntouched(c, sys, r, pkt, c.n);
    ReachableOk(c, r + 1);
  }

  /**
    Round `q` ends with all messages published and delivered everywhere; or with all announced
    and the drain over; or the budget for repairs is used up.
   */
  ghost predicate Ends(c: Plan, q: nat)
    requires c.n > 0
  {
    || (AllHave(c, q + 1) && q + 1 >= c.messages)
    || (AllAnnounced(c, q + 1) && q > 3 * c.messages + c.drain)
    || q > 20 * c.messages + 500
  }

  /** Under any loss a run asks to stop exactly when some round has ended so. */
  lemma {:induction false} StopsExactly(c: Plan, r: nat)
    requires ValidPlan(c)
    ensures After(c, r).stop <==> exists q: nat :: q < r && Ends(c, q)
  {
    hide After, AllHave, AllDelivered, AllAnnounced;
    if r > 0 {
      StopsExactly(c, r - 1);
      StopsAfter(c, r - 1);
      DeliveredIsHad(c, r);
      AnnouncedCounted(c, r);
      assert Ends(c, r - 1) <==>
          || (AllHave(c, r) && r >= c.messages)
          || (AllAnnounced(c, r) && r - 1 > 3 * c.messages + c.drain) || r - 1 > 20 * c.messages + 500;
    } else {
      RunningAtStart(c);
    }
  }

  lemma RunningAtStart(c: Plan)
    requires c.n > 0
    ensures !After(c, 0).stop
  {
  }

  lemma LosslessEnds(c: Plan, q: nat)
    requires Lossless(c)
    ensures Ends(c, q) <==> q + 1 >= c.messages
  {
    hide After, AllAnnounced, AllHave;
    var states := After(c, q + 1).states;
    DeliveredIsHad(c, q + 1);
    forall j: nat | j < c.n ensures |states[j].delivered| == Made(c, q + 1) {
      LosslessDelivers(c, q + 1, j);
    }
    assert AllDelivered(states, c.messages) ==> |states[0].delivered| >= c.messages;
  }

  /** A lossless run of at least one message asks to stop after exactly as many rounds as messages. */
  lemma LosslessLength(c: Plan, r: nat)
    requires Lossless(c) && c.messages >= 1
    ensures After(c, r).stop <==> r >= c.messages
  {
    hide After, Ends;
    StopsExactly(c, r);
    forall q: nat ensures Ends(c, q) <==> q + 1 >= c.messages {
      LosslessEnds(c, q);
    }
    if r >= c.messages {
      assert Ends(c, c.messages - 1);
    }
  }

  // ---------------------------------------------------------------- what is recorded, and when

  /**
    In round `q` node `j` delivers message `t`, but not as its publisher, in the moment it
    publishes it: that it does in preparation.
   */
  ghost predicate Delivers(c: Plan, q: nat, j: nat, t: nat)
    requires c.n > 0
  {
    && j < c.n && j in c.parts(q)
    && |After(c, q).states[j].delivered| <= t < |After(c, q + 1).states[j].delivered|
    && !(j == q % c.n && t == q && |After(c, q).states[j].delivered| == t)
  }

  lemma DeliverNext(st: TomState)
    requires NextExpected(st) in st.store
    ensures |Deliver(st).delivered| > |st.delivered|
  {
    FewerWaiting(st);
    DeliveredGrows(DeliverOne(st));
  }

  lemma FloatDelivers(c: Plan, sys: Sys, r: nat)
    requires ValidPlan(c) && AllOk(c, sys, r) && Settled(sys.states[r % c.n])
    ensures var before, after := sys.states[r % c.n], Float(c, sys, r).sys.states[r % c.n];
      |after.delivered| == |before.delivered| + if r < c.messages && |before.delivered| == r then 1 else 0
  {
    hide Deliver, MinExpected, Repairs, NodeOk, Kept, Paired, Settled;
    var st := sys.states[r % c.n];
    assert NodeOk(st, sys.nextTerm);
    if r < c.messages {
      var st1 := Inserted(st, r, Msg(r));
      PublishDelivers(st, r);
      DeliveredGrows(st1);
      CountIsNext(st, sys.nextTerm);
      if |st.delivered| == r {
        DeliverNext(st1);
      }
    }
  }

  lemma PiggybackDeliversNot(c: Plan, sys: Sys, r: nat)
    requires |sys.states| == c.n > 0
    ensures Prepared(c, sys, r).0.states[r % c.n].delivered == Float(c, sys, r).sys.states[r % c.n].delivered
  {
    hide Float, Gap, PiggybackOf;
  }

  /** What the initiator has delivered when it has prepared: its own message besides, if that is the next. */
  lemma PreparedCount(c: Plan, r: nat)
    requires ValidPlan(c)
    ensures var before, after := After(c, r).states[r % c.n], Prepared(c, After(c, r), r).0.states[r % c.n];
      |after.delivered| == |before.delivered| + if r < c.messages && |before.delivered| == r then 1 else 0
  {
    hide After, Float, Prepared, Settled, AllOk;
    ReachableOk(c, r);
    FloatDelivers(c, After(c, r), r);
    PiggybackDeliversNot(c, After(c, r), r);
  }

  lemma AbsentDeliversNot(c: Plan, q: nat, j: nat, t: nat)
    requires c.n > 0 && j !in c.parts(q)
    ensures !Delivers(c, q, j, t)
  {
  }

  /** So the processing of a round delivers, at every participant, just that. */
  lemma ProcessedDelivers(c: Plan, q: nat, j: nat, t: nat)
    requires ValidPlan(c) && j < c.n && j in c.parts(q)
    ensures Delivers(c, q, j, t)
      <==> |Prepared(c, After(c, q), q).0.states[j].delivered| <= t < |After(c, q + 1).states[j].delivered|
  {
    hide After, Prepared;
    if j == q % c.n {
      PreparedCount(c, q);
      HalvesOk(c, q + 1, j);
      DeliveredWereSent(After(c, q + 1).states[j], After(c, q + 1).nextTerm);
    } else {
      OthersUntouched(c, After(c, q), q, j);
    }
  }

  ghost predicate DeliversSomewhere(c: Plan, q: nat, t: nat)
    requires c.n > 0
  {
    exists j: nat :: Delivers(c, q, j, t)
  }

  /** One turn: what the node newly delivers is announced, and that alone. */
  lemma TurnRecords(c: Plan, sys: Sys, r: nat, pkt: Packet, i: nat, rec: ProposalRecord)
    requires ValidPlan(c) && AllOk(c, sys, r + 1) && PacketOk(pkt, sys.nextTerm) && i < c.n
    ensures var sys', t := ProcessNode(c, sys, r, pkt, i), rec.proposalId;
      var delivers := i in c.parts(r) && |sys.states[i].delivered| <= t < |sys'.states[i].delivered|;
      && (t in sys'.global <==> t in sys.global || delivers)
      && (rec in sys'.records
          <==> rec in sys.records
               || (delivers && t !in sys.global && rec == Record(t, c.preparedAt(t), c.processedAt(r), Committed)))
  {
    hide Deliver, Stored, Announced, Kept, Paired, NodeOk, PacketOk;
    if i in c.parts(r) {
      var st, st' := sys.states[i], Deliver(Stored(sys.states[i], pkt));
      assert NodeOk(st, sys.nextTerm);
      StoredOk(st, pkt, sys.nextTerm);
      DeliverOk(Stored(st, pkt), sys.nextTerm);
      NewTerms(st, st', sys.nextTerm);
      DeliveredWereSent(st', sys.nextTerm);
      var newly := Terms(st'.delivered[|st.delivered|..]);
      AnnouncedRecords(sys.global, sys.records, newly, sys.starts, c.processedAt(r), rec);
    }
  }

  lemma {:induction false} TurnsRecord(c: Plan, r: nat, k: nat, rec: ProposalRecord)
    requires ValidPlan(c) && k <= c.n
    ensures var (sys, pkt) := Prepared(c, After(c, r), r);
      var sys', t := ProcessUpTo(c, sys, r, pkt, k), rec.proposalId;
      var delivers := exists j: nat :: j < k && Delivers(c, r, j, t);
      && (t in sys'.global <==> t in sys.global || delivers)
      && (rec in sys'.records
          <==> rec in sys.records
               || (delivers && t !in sys.global && rec == Record(t, c.preparedAt(t), c.processedAt(r), Committed)))
  {
    hide After, Prepared, ProcessNode, Deliver, Stored, NodeOk, PacketOk, Kept, Paired, Clocked, Settled, Delivers;
    var (sys, pkt) := Prepared(c, After(c, r), r);
    if k > 0 {
      TurnsRecord(c, r, k - 1, rec);
      ReachableOk(c, r);
      PreparedOk(c, After(c, r), r);
      ProcessUpToOk(c, sys, r, pkt, k - 1);
      var before := ProcessUpTo(c, sys, r, pkt, k - 1);
      TurnRecords(c, before, r, pkt, k - 1, rec);
      OthersWait(c, sys, r, pkt, k - 1, k - 1);
      TurnsTaken(c, sys, r, pkt, k, k - 1);
      RoundOfNode(c, r, k - 1);
      if k - 1 in c.parts(r) {
        ProcessedDelivers(c, r, k - 1, rec.proposalId);
      } else {
        AbsentDeliversNot(c, r, k - 1, rec.proposalId);
      }
      DeliversLast(c, r, k, rec.proposalId);
    }
  }

  lemma DeliversLast(c: Plan, r: nat, k: nat, t: nat)
    requires c.n > 0 && k > 0
    ensures (exists j: nat :: j < k && Delivers(c, r, j, t))
      <==> Delivers(c, r, k - 1, t) || exists j: nat :: j < k - 1 && Delivers(c, r, j, t)
  {
    hide Delivers;
  }

  lemma PreparedRecords(c: Plan, r: nat)
    requires ValidPlan(c)
    ensures var sys := Prepared(c, After(c, r), r).0;
      sys.global == After(c, r).global && sys.records == After(c, r).records
  {
    ReachableOk(c, r);
    PreparedDelivers(c, After(c, r), r);
  }

  lemma RecordsKept(c: Plan, r: nat)
    requires c.n > 0
    ensures var (sys, pkt) := Prepared(c, After(c, r), r);
      var sys' := ProcessUpTo(c, sys, r, pkt, c.n);
      After(c, r + 1).global == sys'.global && After(c, r + 1).records == sys'.records
  {
    hide Prepared, ProcessUpTo, ShouldStop;
  }

  lemma RoundRecords(c: Plan, r: nat, rec: ProposalRecord)
    requires ValidPlan(c)
    ensures var t := rec.proposalId;
      && (t in After(c, r + 1).global <==> t in After(c, r).global || DeliversSomewhere(c, r, t))
      && (rec in After(c, r + 1).records
          <==> rec in After(c, r).records
               || (t !in After(c, r).global && DeliversSomewhere(c, r, t)
                   && rec == Record(t, c.preparedAt(t), c.processedAt(r), Committed)))
  {
    hide After, Prepared, ProcessUpTo, Delivers;
    PreparedRecords(c, r);
    TurnsRecord(c, r, c.n, rec);
    RecordsKept(c, r);
    if DeliversSomewhere(c, r, rec.proposalId) {
      var j: nat :| Delivers(c, r, j, rec.proposalId);
      DeliversInRange(c, r, j, rec.proposalId);
    }
  }

  lemma DeliversInRange(c: Plan, q: nat, j: nat, t: nat)
    requires c.n > 0 && Delivers(c, q, j, t)
    ensures j < c.n
  {
  }

  /** Round `q` is the first in whose processing some node delivers message `t`. */
  ghost predicate FirstDelivers(c: Plan, q: nat, t: nat)
    requires c.n > 0
  {
    DeliversSomewhere(c, q, t) && forall p: nat :: p < q ==> !DeliversSomewhere(c, p, t)
  }

  /**
    Under any loss the records are exactly these: for every message that some node has delivered
    in the processing of a round, one, from the preparation of its own round to the processing
    of the first such round.
   */
  lemma {:induction false} RecordsExactly(c: Plan, r: nat, rec: ProposalRecord)
    requires ValidPlan(c)
    ensures var t := rec.proposalId;
      && (t in After(c, r).global <==> exists q: nat :: q < r && DeliversSomewhere(c, q, t))
      && (rec in After(c, r).records <==>
            exists q: nat :: q < r && FirstDelivers(c, q, t)
              && rec == Record(t, c.preparedAt(t), c.processedAt(q), Committed))
  {
    hide After, DeliversSomewhere;
    if r > 0 {
      RecordsExactly(c, r - 1, rec);
      RoundRecords(c, r - 1, rec);
      assert FirstDelivers(c, r - 1, rec.proposalId)
        <==> DeliversSomewhere(c, r - 1, rec.proposalId) && rec.proposalId !in After(c, r - 1).global;
    } else {
      NothingAtStart(c);
    }
  }

  lemma NothingAtStart(c: Plan)
    requires c.n > 0
    ensures After(c, 0).global == {} && After(c, 0).records == []
  {
  }
}
