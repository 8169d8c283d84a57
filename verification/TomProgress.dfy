/** What a round of the multicast pipeline achieves: reception, repair, and lossless runs. */
module TomProgress {
  import opened Messages
  import opened TomRun
  import opened TomSafety

  /** Messages published by the end of `r` rounds. */
  function Made(c: Plan, r: nat): nat {
    if r < c.messages then r else c.messages
  }

  // ---------------------------------------------------------------- a round reaches its participants

  /** The message of term `t`, and its genuine datum, is in the store. */
  predicate Holds(st: TomState, t: nat) {
    t in st.store && st.store[t] == Msg(t)
  }

  lemma {:induction false} OthersWait(c: Plan, sys: Sys, r: nat, pkt: Packet, k: nat, j: nat)
    requires |sys.states| == c.n && k <= j < c.n
    ensures ProcessUpTo(c, sys, r, pkt, k).states[j] == sys.states[j]
  {
    hide Deliver, Stored, Ledger.Announced, Requested;
    if k > 0 {
      OthersWait(c, sys, r, pkt, k - 1, j);
      OnlyOneMoves(c, ProcessUpTo(c, sys, r, pkt, k - 1), r, pkt, k - 1, j);
    }
  }

  lemma OnlyOneMoves(c: Plan, sys: Sys, r: nat, pkt: Packet, i: nat, j: nat)
    requires |sys.states| == c.n && i < c.n && j < c.n && j != i
    ensures ProcessNode(c, sys, r, pkt, i).states[j] == sys.states[j]
  {
    hide Deliver, Stored, Ledger.Announced;
  }

  /** After the turns of the first `k` nodes, the participants among them have stored the packet and delivered. */
  lemma {:induction false} TurnsTaken(c: Plan, sys: Sys, r: nat, pkt: Packet, k: nat, j: nat)
    requires |sys.states| == c.n && j < k <= c.n
    ensures ProcessUpTo(c, sys, r, pkt, k).states[j]
         == if j in c.parts(r) then Deliver(Stored(sys.states[j], pkt)) else sys.states[j]
  {
    hide Deliver, Stored, Ledger.Announced;
    var before := ProcessUpTo(c, sys, r, pkt, k - 1);
    if j < k - 1 {
      TurnsTaken(c, sys, r, pkt, k - 1, j);
      OnlyOneMoves(c, before, r, pkt, k - 1, j);
    } else {
      OthersWait(c, sys, r, pkt, k - 1, j);
      TurnOf(c, before, r, pkt, j);
    }
  }

  lemma TurnOf(c: Plan, sys: Sys, r: nat, pkt: Packet, i: nat)
    requires |sys.states| == c.n && i < c.n
    ensures ProcessNode(c, sys, r, pkt, i).states[i]
         == if i in c.parts(r) then Deliver(Stored(sys.states[i], pkt)) else sys.states[i]
  {
    hide Deliver, Stored, Ledger.Announced;
  }

  /** The state of node `j` after round `r`, from the two halves of the round. */
  lemma RoundOfNode(c: Plan, r: nat, j: nat)
    requires ValidPlan(c) && j < c.n
    ensures var (sys, pkt) := Prepared(c, After(c, r), r);
      After(c, r + 1).states[j] == if j in c.parts(r) then Deliver(Stored(sys.states[j], pkt)) else sys.states[j]
  {
    hide Prepared, ProcessUpTo, Deliver, Stored, ShouldStop;
    var (sys, pkt) := Prepared(c, After(c, r), r);
    TurnsTaken(c, sys, r, pkt, c.n, j);
  }

  /** Both halves of round `r` are in order. */
  lemma HalvesOk(c: Plan, r: nat, j: nat)
    requires ValidPlan(c) && j < c.n
    ensures After(c, r).nextTerm == Made(c, r)
    ensures var (sys, pkt) := Prepared(c, After(c, r), r);
      && PacketOk(pkt, sys.nextTerm) && NodeOk(sys.states[j], sys.nextTerm)
      && NodeOk(After(c, r).states[j], After(c, r).nextTerm) && Settled(After(c, r).states[j])
  {
    ReachableOk(c, r);
    PreparedOk(c, After(c, r), r);
    hide After, Prepared, NodeOk, Settled, PacketOk;
  }

  lemma StoredHolds(st: TomState, pkt: Packet, terms: nat)
    requires NodeOk(st, terms) && PacketOk(pkt, terms)
    ensures var st' := Deliver(Stored(st, pkt));
      && (pkt.hasMessage ==> Holds(st', pkt.currentTerm))
      && (pkt.pbTerm.Some? ==> Holds(st', pkt.pbTerm.value))
      && st.store.Keys <= st'.store.Keys && |st.delivered| <= |st'.delivered|
  {
    StoredOk(st, pkt, terms);
    DeliverOk(Stored(st, pkt), terms);
    hide Deliver;
  }

  /** Whatever a round floats, its participants hold afterwards: the message and the piggybacked one. */
  lemma ParticipantsHold(c: Plan, r: nat, j: nat)
    requires ValidPlan(c) && j < c.n && j in c.parts(r)
    ensures var pkt := Prepared(c, After(c, r), r).1;
      && (pkt.hasMessage ==> Holds(After(c, r + 1).states[j], pkt.currentTerm))
      && (pkt.pbTerm.Some? ==> Holds(After(c, r + 1).states[j], pkt.pbTerm.value))
  {
    hide Prepared, After, Deliver, Stored, NodeOk, PacketOk, Settled;
    HalvesOk(c, r, j);
    RoundOfNode(c, r, j);
    var (sys, pkt) := Prepared(c, After(c, r), r);
    StoredHolds(sys.states[j], pkt, sys.nextTerm);
  }

  /** A node that takes part in round `t < messages` holds message `t` after it. */
  lemma PublicationReaches(c: Plan, t: nat, j: nat)
    requires ValidPlan(c) && t < c.messages && j < c.n && j in c.parts(t)
    ensures Holds(After(c, t + 1).states[j], t)
  {
    ParticipantsHold(c, t, j);
    ReachableOk(c, t);
    hide After, Deliver, Inserted, Gap, PiggybackOf;
  }

  /** Stores only grow. */
  lemma StoresGrow(c: Plan, r: nat, j: nat)
    requires ValidPlan(c) && j < c.n
    ensures After(c, r).states[j].store.Keys <= After(c, r + 1).states[j].store.Keys
    ensures NextExpected(After(c, r).states[j]) <= NextExpected(After(c, r + 1).states[j])
  {
    hide Prepared, After, Deliver, Stored, NodeOk, PacketOk, Settled, AllOk, NextExpected;
    HalvesOk(c, r, j);
    HalvesOk(c, r, r % c.n);
    HalvesOk(c, r + 1, j);
    ReachableOk(c, r);
    RoundOfNode(c, r, j);
    PreparationKeeps(c, After(c, r), r, j);
    var (sys, pkt) := Prepared(c, After(c, r), r);
    StoredHolds(sys.states[j], pkt, sys.nextTerm);
    CountIsNext(After(c, r).states[j], After(c, r).nextTerm);
    CountIsNext(After(c, r + 1).states[j], After(c, r + 1).nextTerm);
  }

  lemma CountIsNext(st: TomState, terms: nat)
    requires NodeOk(st, terms)
    ensures NextExpected(st) == |st.delivered|
    ensures forall k: nat :: k < |st.delivered| ==> k in st.store
  {
  }

  lemma PreparationKeeps(c: Plan, sys: Sys, r: nat, j: nat)
    requires ValidPlan(c) && AllOk(c, sys, r) && Settled(sys.states[r % c.n]) && j < c.n
    ensures sys.states[j].store.Keys <= Prepared(c, sys, r).0.states[j].store.Keys
    ensures |sys.states[j].delivered| <= |Prepared(c, sys, r).0.states[j].delivered|
  {
    hide Deliver, Gap, MinExpected, Repairs, PiggybackOf, Kept, Paired, Settled, NodeOk;
    var i := r % c.n;
    if sys.published < c.messages {
      DeliveredGrows(Inserted(sys.states[i], sys.nextTerm, Msg(sys.nextTerm)));
    }
  }

  // ---------------------------------------------------------------- repair makes progress

  /** A node that sits a round out is left as it was. */
  lemma AbsentUnchanged(c: Plan, r: nat, j: nat)
    requires ValidPlan(c) && j < c.n && j !in c.parts(r)
    ensures After(c, r + 1).states[j] == After(c, r).states[j]
  {
    hide After, Prepared, Deliver, Stored;
    RoundOfNode(c, r, j);
    OthersUntouched(c, After(c, r), r, j);
  }

  lemma OthersUntouched(c: Plan, sys: Sys, r: nat, j: nat)
    requires |sys.states| == c.n > 0 && j < c.n && j != r % c.n
    ensures Prepared(c, sys, r).0.states[j] == sys.states[j]
  {
    hide Deliver, Gap, MinExpected, Repairs, PiggybackOf, Inserted;
  }

  /** A node that the repair round reaches is past the earliest undelivered term afterwards, if it takes part. */
  lemma RepairReaches(c: Plan, r: nat, j: nat)
    requires ValidPlan(c) && r >= c.messages && MinExpected(After(c, r).states) < c.messages
    requires j < c.n && j in c.parts(r)
    ensures NextExpected(After(c, r + 1).states[j]) > MinExpected(After(c, r).states)
  {
    hide After, Prepared, MinExpected, NodeOk, PacketOk, NextExpected;
    PacketsAreHonest(c, r);
    MinIsLeast(After(c, r).states);
    HalvesOk(c, r + 1, j);
    ParticipantsHold(c, r, j);
    StoresGrow(c, r, j);
  }

  /**
    A repair round moves the earliest term that some node has not delivered exactly if every
    node that waits for it takes part.
   */
  lemma RepairAdvances(c: Plan, r: nat)
    requires ValidPlan(c) && r >= c.messages && MinExpected(After(c, r).states) < c.messages
    ensures MinExpected(After(c, r).states) < MinExpected(After(c, r + 1).states)
      <==> forall j: nat :: j < c.n && NextExpected(After(c, r).states[j]) == MinExpected(After(c, r).states) ==>
             j in c.parts(r)
  {
    hide After, MinExpected, NextExpected;
    var need := MinExpected(After(c, r).states);
    MinIsLeast(After(c, r).states);
    MinIsLeast(After(c, r + 1).states);
    var least :| 0 <= least < c.n && MinExpected(After(c, r + 1).states) == NextExpected(After(c, r + 1).states[least]);
    StoresGrow(c, r, least);
    if least in c.parts(r) {
      RepairReaches(c, r, least);
    }
    forall j: nat | j < c.n && j !in c.parts(r)
      ensures NextExpected(After(c, r + 1).states[j]) == NextExpected(After(c, r).states[j])
    {
      AbsentUnchanged(c, r, j);
    }
  }

  // ---------------------------------------------------------------- lossless runs

  ghost predicate Lossless(c: Plan) {
    c.n >= 2 && forall r: nat, i: nat :: i < c.n ==> i in c.parts(r)
  }

  /** Without loss every node has delivered, after every round, all that was published. */
  lemma {:induction false} LosslessDelivers(c: Plan, r: nat, j: nat)
    requires Lossless(c) && j < c.n
    ensures |After(c, r).states[j].delivered| == Made(c, r)
    ensures forall t: nat :: t in After(c, r).states[j].store <==> t < Made(c, r)
  {
    hide NodeOk, RoundOf, Settled, NextExpected, PacketOk, Prepared;
    if r > 0 {
      LosslessDelivers(c, r - 1, j);
      StoresGrow(c, r - 1, j);
      HalvesOk(c, r, j);
      if r - 1 < c.messages {
        PublicationReaches(c, r - 1, j);
      }
      hide After;
      StoreIsPrefix(After(c, r - 1).states[j], After(c, r).states[j], After(c, r).nextTerm, Made(c, r - 1), Made(c, r));
    }
  }

  lemma StoreIsPrefix(before: TomState, st: TomState, terms: nat, k: nat, m: nat)
    requires NodeOk(st, terms) && Settled(st) && before.store.Keys <= st.store.Keys && k <= m <= k + 1
    requires (forall t: nat :: t in before.store <==> t < k) && (k < m ==> k in st.store) && terms <= m
    ensures |st.delivered| == m && forall t: nat :: t in st.store <==> t < m
  {
    forall t: nat | t < k ensures t in st.store {
      assert t in before.store.Keys;
    }
    DeliveredWereSent(st, terms);
    assert |st.delivered| !in st.store;
  }
}
