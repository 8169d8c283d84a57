/** What a round of the Paxos pipeline does for the nodes that take part in it: votes, data and recovery. */
module PaxosRecovery {
  import opened Wrappers
  import opened Bitmaps
  import opened Messages
  import opened Ledger
  import opened PaxosNode
  import opened PaxosRun
  import opened PaxosSafety

  // ---------------------------------------------------------------- the turn of each node

  lemma TurnOf(c: Plan, sys: Sys, r: nat, pkt: Packet, i: nat)
    requires |sys.states| == c.n && i < c.n
    ensures ProcessNode(c, sys, r, pkt, i).states
         == if i in c.parts(r) then sys.states[i := Received(sys.states[i], i, c.n, pkt)] else sys.states
  {
    hide Received, Absorbed, LearnCommits, Announced, Supply;
  }

  /** After the turns of the first `k` nodes, exactly the participants among them have received the packet. */
  lemma {:induction false} TurnsTaken(c: Plan, sys: Sys, r: nat, pkt: Packet, k: nat, j: nat)
    requires |sys.states| == c.n && k <= c.n && j < c.n
    ensures ProcessUpTo(c, sys, r, pkt, k).states[j]
         == if j < k && j in c.parts(r) then Received(sys.states[j], j, c.n, pkt) else sys.states[j]
  {
    hide Received, ProcessNode;
    if k > 0 {
      TurnsTaken(c, sys, r, pkt, k - 1, j);
      TurnOf(c, ProcessUpTo(c, sys, r, pkt, k - 1), r, pkt, k - 1);
    }
  }

  lemma RoundOfNode(c: Plan, r: nat, j: nat)
    requires ValidPlan(c) && j < c.n
    ensures var (sys, pkt) := Prepared(c, After(c, r), r);
      After(c, r + 1).states[j] == if j in c.parts(r) then Received(sys.states[j], j, c.n, pkt) else sys.states[j]
  {
    hide Prepared, ProcessUpTo, Received, ShouldStop;
    var (sys, pkt) := Prepared(c, After(c, r), r);
    TurnsTaken(c, sys, r, pkt, c.n, j);
  }

  // ---------------------------------------------------------------- proposals and votes

  ghost predicate KnowsTerm(st: PaxosState, t: nat) {
    InLog(st.log, t) || IsPending(st.pending, t)
  }

  lemma TakesProposal(st: PaxosState, t: nat, data: Data, bits: seq<bool>)
    ensures KnowsTerm(TakeProposal(st, t, data, bits), t)
    ensures forall u: nat :: KnowsTerm(st, u) ==> KnowsTerm(TakeProposal(st, t, data, bits), u)
  {
    var st' := TakeProposal(st, t, data, bits);
    if st' != st {
      assert st'.pending[|st.pending|].term == t;
      forall u: nat | IsPending(st.pending, u) ensures IsPending(st'.pending, u) {
        var k :| 0 <= k < |st.pending| && st.pending[k].term == u;
        assert st'.pending[k].term == u;
      }
    }
  }

  lemma MergingKnows(st: PaxosState, t: nat, bits: seq<bool>, u: nat)
    ensures KnowsTerm(st.(pending := MergedVotes(st.pending, t, bits)), u) <==> KnowsTerm(st, u)
  {
    var merged := MergedVotes(st.pending, t, bits);
    assert forall k :: 0 <= k < |merged| ==> merged[k].term == st.pending[k].term;
    if IsPending(st.pending, u) {
      var k :| 0 <= k < |st.pending| && st.pending[k].term == u;
      assert merged[k].term == u;
    }
  }

  /** A participant knows the packet's proposal afterwards, and the piggybacked one. */
  lemma ReceivedKnows(st: PaxosState, i: nat, n: nat, pkt: Packet)
    ensures pkt.data != Empty ==> KnowsTerm(Received(st, i, n, pkt), pkt.currentTerm)
    ensures pkt.pbTerm.Some? ==> KnowsTerm(Received(st, i, n, pkt), pkt.pbTerm.value)
  {
    hide InLog, IsPending, MergedVotes, OneBit, LearnCommits;
    var t := pkt.currentTerm;
    var st1 := NoteTerm(LearnCommits(st, pkt).0, t);
    var st2 := if pkt.data != Empty then TakeProposal(st1, t, pkt.data, pkt.bits) else st1;
    TakesProposal(st1, t, pkt.data, pkt.bits);
    MergingKnows(st2, t, pkt.bits, t);
    MergingKnows(st2.(pending := MergedVotes(st2.pending, t, pkt.bits)), t, OneBit(n, i), t);
    if pkt.pbTerm.Some? {
      TakesProposal(Absorbed(st, i, n, pkt), pkt.pbTerm.value, pkt.pbData, OneBit(n, i));
    }
  }

  /** Whoever takes part in round `t` knows the term proposed in it: pending, or committed already. */
  lemma ProposalReaches(c: Plan, t: nat, j: nat)
    requires ValidPlan(c) && t < c.proposals && j < c.n && j in c.parts(t)
    ensures KnowsTerm(After(c, t + 1).states[j], t)
  {
    ReachableOk(c, t);
    RoundOfNode(c, t, j);
    var (sys, pkt) := Prepared(c, After(c, t), t);
    assert pkt.data != Empty && pkt.currentTerm == t;
    hide Prepared, After, Received;
    ReceivedKnows(sys.states[j], j, c.n, pkt);
  }

  // ---------------------------------------------------------------- recovery

  /**
    A proposal recovered by piggyback enters with the receiver's vote alone, which
    is no quorum.
   */
  lemma PiggybackIsNoQuorum(st: PaxosState, i: nat, n: nat, pkt: Packet)
    requires n >= 2 && i < n && pkt.pbTerm.Some? && !KnowsTerm(Absorbed(st, i, n, pkt), pkt.pbTerm.value)
    ensures var t, pending := pkt.pbTerm.value, Received(st, i, n, pkt).pending;
      var pos := Position(pending, t);
      && pos.Some? && pending[pos.value] == Pending(t, pkt.pbData, OneBit(n, i))
      && Votes(OneBit(n, i)) == 1 && !QuorumReached(pending, t)
  {
    var t, before := pkt.pbTerm.value, Absorbed(st, i, n, pkt);
    var pending := Received(st, i, n, pkt).pending;
    hide Absorbed;
    assert pending == before.pending + [Pending(t, pkt.pbData, OneBit(n, i))];
    PositionAt(pending, |before.pending|);
    VotersCounted(OneBit(n, i));
    assert Voters(OneBit(n, i)) == {i};
  }

  /** Can node `i` supply the term the packet asks for? */
  predicate CanSupply(c: Plan, sys: Sys, r: nat, pkt: Packet, i: nat)
    requires |sys.states| == c.n && i < c.n
  {
    i in c.parts(r) && pkt.nack > 0 && Supply(Absorbed(sys.states[i], i, c.n, pkt), pkt.nack).Some?
  }

  /** The request is answered exactly when some participant can supply the term, and with the right data. */
  lemma {:induction false} NackAnswered(c: Plan, sys: Sys, r: nat, pkt: Packet, k: nat)
    requires ValidPlan(c) && AllOk(c, sys, r + 1) && PacketOk(c.n, pkt, r, sys.termCounter) && k <= c.n
    ensures var sys' := ProcessUpTo(c, sys, r, pkt, k);
      if exists i: nat :: i < k && CanSupply(c, sys, r, pkt, i)
      then sys'.pbTerm == Some(pkt.nack) && sys'.pbData == Tx(pkt.nack)
      else sys'.pbTerm == None && sys'.pbData == Empty
  {
    hide AllOk, PacketOk, ProcessNode, CanSupply;
    AnswerIsRight(c, sys, r, pkt, 0);
    if k > 0 {
      NackAnswered(c, sys, r, pkt, k - 1);
      AnswerIsRight(c, sys, r, pkt, k - 1);
      AnswerTurn(c, sys, r, pkt, k - 1);
    }
  }

  lemma AnswerTurn(c: Plan, sys: Sys, r: nat, pkt: Packet, i: nat)
    requires |sys.states| == c.n && i < c.n
    ensures var before, after := ProcessUpTo(c, sys, r, pkt, i), ProcessUpTo(c, sys, r, pkt, i + 1);
      if CanSupply(c, sys, r, pkt, i)
      then after.pbTerm == Some(pkt.nack)
           && Some(after.pbData) == Supply(Absorbed(sys.states[i], i, c.n, pkt), pkt.nack)
      else after.pbTerm == before.pbTerm && after.pbData == before.pbData
  {
    TurnsTaken(c, sys, r, pkt, i, i);
    hide Supply, Absorbed, Received, LearnCommits, Announced;
  }

  lemma AnswerIsRight(c: Plan, sys: Sys, r: nat, pkt: Packet, i: nat)
    requires ValidPlan(c) && AllOk(c, sys, r + 1) && PacketOk(c.n, pkt, r, sys.termCounter) && i < c.n
    ensures |sys.states| == c.n && (CanSupply(c, sys, r, pkt, i) ==>
      Supply(Absorbed(sys.states[i], i, c.n, pkt), pkt.nack) == Some(Tx(pkt.nack)))
  {
    assert NodeOk(c.n, sys.states[i], i, r + 1, sys.termCounter);
    ReceiveOk(c.n, sys.states[i], i, r, sys.termCounter, pkt);
    hide Absorbed, Received, AllEarned;
    if CanSupply(c, sys, r, pkt, i) {
      SupplyIs(Absorbed(sys.states[i], i, c.n, pkt), pkt.nack);
    }
  }

  lemma PacketCarries(c: Plan, sys: Sys, r: nat)
    requires |sys.states| == c.n > 0
    ensures Prepared(c, sys, r).1.pbTerm == sys.pbTerm && Prepared(c, sys, r).1.pbData == sys.pbData
  {
    hide Gap, WithProposal, QuorumCommit, FlagsFor, Announced;
  }

  /** A recovery takes two rounds: what round `r` supplies, everybody who takes part in round `r + 1` knows after it. */
  lemma RecoveryReaches(c: Plan, r: nat, j: nat)
    requires ValidPlan(c) && j < c.n && j in c.parts(r + 1) && After(c, r + 1).pbTerm.Some?
    ensures KnowsTerm(After(c, r + 2).states[j], After(c, r + 1).pbTerm.value)
  {
    hide Prepared, After, Received, ValidPlan;
    RoundOfNode(c, r + 1, j);
    PacketCarries(c, After(c, r + 1), r + 1);
    var (sys, pkt) := Prepared(c, After(c, r + 1), r + 1);
    ReceivedKnows(sys.states[j], j, c.n, pkt);
  }

  // ---------------------------------------------------------------- what a commit does not say

  /** Committing up to a term puts a term of the range into the log exactly if the node knows it. */
  lemma CommitLogsWhatIsKnown(st: PaxosState, upTo: nat, t: nat)
    requires Tidy(st) && t <= upTo
    ensures InLog(CommittedUpTo(st, upTo).0.log, t) <==> KnowsTerm(st, t)
    ensures HasAccepted(CommittedUpTo(st, upTo).0, t)
  {
    CommitRangeTidy(st, 0, upTo);
  }
}
