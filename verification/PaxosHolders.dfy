/**
  Who knows a proposal of the Paxos pipeline and whose votes stand for it, exactly,
  after every round of every run; and what that makes of quorums and logs.
 */
module PaxosHolders {
  import opened Wrappers
  import opened Bitmaps
  import opened Messages
  import opened Network
  import opened Rotation
  import opened Ledger
  import opened PaxosNode
  import opened PaxosRun
  import opened PaxosSafety
  import opened PaxosRecovery

  // ---------------------------------------------------------------- what one node knows

  lemma CommitTermKnows(st: PaxosState, t: nat, u: nat)
    requires Tidy(st)
    ensures KnowsTerm(CommittedTerm(st, t), u) <==> KnowsTerm(st, u)
  {
    CommitTermTidy(st, t);
    PendingShrinks(st, CommittedTerm(st, t), t);
    hide CommittedTerm, InLog, IsPending, Tidy;
  }

  /** Committing loses nothing that is known and makes nothing known. */
  lemma {:induction false} CommitKnows(st: PaxosState, t: nat, upTo: nat, u: nat)
    requires Tidy(st)
    ensures KnowsTerm(CommittedRange(st, t, upTo).0, u) <==> KnowsTerm(st, u)
    decreases upTo + 1 - t
  {
    hide CommittedTerm, KnowsTerm, Tidy, InLog;
    if t <= upTo {
      CommitTermTidy(st, t);
      CommitTermKnows(st, t, u);
      CommitKnows(CommittedTerm(st, t), t + 1, upTo, u);
    }
  }

  lemma TakenKnows(st: PaxosState, t: nat, data: Data, bits: seq<bool>, u: nat)
    ensures KnowsTerm(TakeProposal(st, t, data, bits), u) <==> KnowsTerm(st, u) || u == t
  {
    TakesProposal(st, t, data, bits);
    var st' := TakeProposal(st, t, data, bits);
    if st' != st && u != t && IsPending(st'.pending, u) {
      var k :| 0 <= k < |st'.pending| && st'.pending[k].term == u;
      assert st.pending[k].term == u;
    }
  }

  lemma LearningKnows(st: PaxosState, pkt: Packet, u: nat)
    requires Tidy(st)
    ensures KnowsTerm(LearnCommits(st, pkt).0, u) <==> KnowsTerm(st, u)
  {
    hide KnowsTerm, CommittedRange, Tidy;
    if pkt.lastAccepted.Some? {
      CommitKnows(st, 0, pkt.lastAccepted.value, u);
    }
  }

  lemma AbsorbedKnows(st: PaxosState, i: nat, n: nat, pkt: Packet, u: nat)
    requires Tidy(st)
    ensures KnowsTerm(Absorbed(st, i, n, pkt), u)
      <==> KnowsTerm(st, u) || (pkt.data != Empty && u == pkt.currentTerm)
  {
    LearningKnows(st, pkt, u);
    hide LearnCommits, InLog, IsPending, MergedVotes, OneBit;
    var t := pkt.currentTerm;
    var st1 := NoteTerm(LearnCommits(st, pkt).0, t);
    var st2 := if pkt.data != Empty then TakeProposal(st1, t, pkt.data, pkt.bits) else st1;
    TakenKnows(st1, t, pkt.data, pkt.bits, u);
    MergingKnows(st2, t, pkt.bits, u);
    MergingKnows(st2.(pending := MergedVotes(st2.pending, t, pkt.bits)), t, OneBit(n, i), u);
  }

  /** What a packet tells: its proposal and the one it piggybacks, nothing else. */
  lemma ReceivingKnows(st: PaxosState, i: nat, n: nat, pkt: Packet, u: nat)
    requires Tidy(st)
    ensures KnowsTerm(Received(st, i, n, pkt), u)
      <==> KnowsTerm(st, u) || (pkt.data != Empty && u == pkt.currentTerm) || pkt.pbTerm == Some(u)
  {
    AbsorbedKnows(st, i, n, pkt, u);
    hide Absorbed, KnowsTerm, TakeProposal;
    if pkt.pbTerm.Some? {
      TakenKnows(Absorbed(st, i, n, pkt), pkt.pbTerm.value, pkt.pbData, OneBit(n, i), u);
    }
  }

  // ---------------------------------------------------------------- one round

  lemma PreparedStates(c: Plan, sys: Sys, r: nat)
    requires |sys.states| == c.n > 0
    ensures var (sys', pkt) := Prepared(c, sys, r);
      var i := r % c.n;
      && sys'.states == sys.states[i := QuorumCommit(WithProposal(sys, c.n, c.proposals, i)).0]
      && pkt.lastAccepted == sys'.states[i].lastAccepted && pkt.pbTerm == sys.pbTerm
      && pkt.currentTerm == CurrentTerm(sys, c.proposals)
      && pkt.bits == FlagsFor(sys'.states[i], c.n, pkt.currentTerm, i)
      && (pkt.data != Empty <==> sys.generated < c.proposals)
      && pkt.nack == (var gap := Gap(sys.states[i], sys.termCounter); if gap.Some? then gap.value else 0)
  {
    hide Gap, WithProposal, QuorumCommit, FlagsFor, Announced;
  }

  lemma QuorumCommitKnows(st: PaxosState, u: nat)
    requires Tidy(st)
    ensures KnowsTerm(QuorumCommit(st).0, u) <==> KnowsTerm(st, u)
  {
    hide KnowsTerm, CommittedRange, Tidy, HighestQuorum;
    var hq := HighestQuorum(st.pending, |st.pending|);
    if hq.Some? {
      CommitKnows(st, 0, hq.value, u);
    }
  }

  lemma ProposalKnows(sys: Sys, n: nat, proposals: nat, i: nat, u: nat)
    requires i < |sys.states|
    ensures KnowsTerm(WithProposal(sys, n, proposals, i), u)
      <==> KnowsTerm(sys.states[i], u) || (sys.generated < proposals && u == sys.termCounter)
  {
    var st, st' := sys.states[i], WithProposal(sys, n, proposals, i);
    if sys.generated < proposals {
      assert st'.pending[|st.pending|].term == sys.termCounter;
      if IsPending(st.pending, u) {
        var k :| 0 <= k < |st.pending| && st.pending[k].term == u;
        assert st'.pending[k].term == u;
      }
      if IsPending(st'.pending, u) && u != sys.termCounter {
        var k :| 0 <= k < |st'.pending| && st'.pending[k].term == u;
        assert st.pending[k].term == u;
      }
    }
  }

  lemma TidyNode(c: Plan, sys: Sys, r: nat, j: nat)
    requires ValidPlan(c) && AllOk(c, sys, r) && j < c.n
    ensures Tidy(sys.states[j])
  {
    assert NodeOk(c.n, sys.states[j], j, r, sys.termCounter);
  }

  lemma PreparingKnows(c: Plan, sys: Sys, r: nat, j: nat, u: nat)
    requires ValidPlan(c) && AllOk(c, sys, r) && j < c.n
    ensures KnowsTerm(Prepared(c, sys, r).0.states[j], u)
      <==> KnowsTerm(sys.states[j], u) || (j == r % c.n && r < c.proposals && u == r)
  {
    PreparedStates(c, sys, r);
    ProposeOk(c, sys, r);
    var i := r % c.n;
    ProposalKnows(sys, c.n, c.proposals, i, u);
    hide Prepared, KnowsTerm, WithProposal, QuorumCommit, Gap, AllEarned, FlagsFor, Tidy;
    QuorumCommitKnows(WithProposal(sys, c.n, c.proposals, i), u);
  }

  /** Round `q` tells its participants about term `t`: it proposes it, or piggybacks it. */
  ghost predicate Tells(c: Plan, q: nat, t: nat)
    requires c.n > 0
  {
    (q == t && t < c.proposals) || After(c, q).pbTerm == Some(t)
  }

  /** Node `j` has taken part in a round before `r` that tells about term `t`. */
  ghost predicate Told(c: Plan, j: nat, t: nat, r: nat)
    requires c.n > 0
  {
    exists q: nat :: q < r && j in c.parts(q) && Tells(c, q, t)
  }

  lemma ToldStep(c: Plan, j: nat, t: nat, r: nat)
    requires c.n > 0
    ensures !Told(c, j, t, 0)
    ensures Told(c, j, t, r + 1) <==> Told(c, j, t, r) || (j in c.parts(r) && Tells(c, r, t))
  {
    hide Tells;
    if j in c.parts(r) && Tells(c, r, t) {
      assert r < r + 1;
    }
  }

  lemma RoundFacts(c: Plan, r: nat)
    requires ValidPlan(c)
    ensures AllOk(c, After(c, r), r)
    ensures var (sys, pkt) := Prepared(c, After(c, r), r);
      && AllOk(c, sys, r + 1) && PacketOk(c.n, pkt, r, sys.termCounter)
      && pkt.pbTerm == After(c, r).pbTerm
      && (pkt.data != Empty <==> r < c.proposals)
      && pkt.currentTerm == if r < c.proposals then r else if c.proposals == 0 then 0 else c.proposals - 1
  {
    hide After, Prepared, NodeOk, PacketOk;
    ReachableOk(c, r);
    PreparedOk(c, After(c, r), r);
    PreparedStates(c, After(c, r), r);
  }

  lemma RoundKnows(c: Plan, r: nat, j: nat, t: nat)
    requires ValidPlan(c) && j < c.n
    ensures KnowsTerm(After(c, r + 1).states[j], t)
      <==> KnowsTerm(After(c, r).states[j], t) || (j in c.parts(r) && Tells(c, r, t))
  {
    hide After, Prepared, Received, KnowsTerm, NodeOk, PacketOk, Tidy;
    RoundFacts(c, r);
    RoundOfNode(c, r, j);
    PreparingKnows(c, After(c, r), r, j, t);
    var (sys, pkt) := Prepared(c, After(c, r), r);
    TidyNode(c, sys, r + 1, j);
    ReceivingKnows(sys.states[j], j, c.n, pkt, t);
  }

  /**
    Under any loss: after every round a node knows a term, pending or in its log, exactly if
    it took part in the round that proposed it or in one that piggybacked it.
   */
  lemma {:induction false} KnowsExactly(c: Plan, r: nat, j: nat, t: nat)
    requires ValidPlan(c) && j < c.n
    ensures KnowsTerm(After(c, r).states[j], t) <==> Told(c, j, t, r)
  {
    hide RoundOf, KnowsTerm, Told, Tells;
    if r > 0 {
      ToldStep(c, j, t, r - 1);
      KnowsExactly(c, r - 1, j, t);
      RoundKnows(c, r - 1, j, t);
    } else {
      ToldStep(c, j, t, 0);
      assert After(c, 0).states[j] == FRESH;
      NothingKnown(t);
    }
  }

  lemma NothingKnown(t: nat)
    ensures !KnowsTerm(FRESH, t)
  {
  }

  // ---------------------------------------------------------------- whose votes a node counts

  /** The votes that the packet of round `q` carries. */
  ghost function Carried(c: Plan, q: nat): set<nat>
    requires c.n > 0
  {
    Voters(Prepared(c, After(c, q), q).1.bits)
  }

  /**
    The votes for term `t` that node `j` has heard of in the rounds before `r`: the proposer's
    and its own if it met `t` in the round that proposed it, its own alone if it met `t` by
    recovery, and from then on those carried in every round it took part in.
   */
  ghost function VotesHeard(c: Plan, j: nat, t: nat, r: nat): set<nat>
    requires c.n > 0
  {
    if r == 0 then {}
    else if j !in c.parts(r - 1) then VotesHeard(c, j, t, r - 1)
    else if Told(c, j, t, r - 1) then VotesHeard(c, j, t, r - 1) + Carried(c, r - 1)
    else if t == r - 1 && t < c.proposals then {t % c.n, j}
    else if Tells(c, r - 1, t) then {j}
    else {}
  }

  lemma {:induction false} OwnVote(c: Plan, j: nat, t: nat, r: nat)
    requires c.n > 0 && Told(c, j, t, r)
    ensures j in VotesHeard(c, j, t, r)
  {
    hide Told, Tells, Carried;
    ToldStep(c, j, t, if r == 0 then 0 else r - 1);
    if Told(c, j, t, r - 1) {
      OwnVote(c, j, t, r - 1);
    }
  }

  /** The packet of a round carries its initiator's vote, and while there are new terms no other. */
  lemma CarriesItsInitiator(c: Plan, q: nat)
    requires ValidPlan(c)
    ensures q % c.n in Carried(c, q)
    ensures q < c.proposals ==> Carried(c, q) == {q % c.n}
  {
    RoundFacts(c, q);
    PreparedStates(c, After(c, q), q);
    hide After, Prepared, QuorumCommit, Gap, WithProposal;
    var pkt := Prepared(c, After(c, q), q).1;
    assert pkt.bits[q % c.n];
    if q < c.proposals {
      NoInitsYet(c.n, q, q);
      InitsEmpty(c.n, q);
    }
  }

  ghost predicate Entry(pending: seq<Pending>, t: nat, votes: set<nat>) {
    exists p :: p in pending && p.term == t && Voters(p.bits) == votes
  }

  lemma MergedVoters(pending: seq<Pending>, t: nat, bits: seq<bool>, p: Pending) returns (before: Pending)
    requires p in MergedVotes(pending, t, bits)
    requires forall k :: 0 <= k < |pending| ==> |pending[k].bits| == |bits| && pending[k].term <= t
    ensures before in pending && before.term == p.term && |p.bits| == |bits|
    ensures Voters(p.bits) == Voters(before.bits) + Voters(bits)
  {
    var merged := MergedVotes(pending, t, bits);
    var k :| 0 <= k < |merged| && merged[k] == p;
    before := pending[k];
  }

  /** All bitmaps of the pending list have `n` bits, and no term is above `t`. */
  ghost predicate Fits(pending: seq<Pending>, n: nat, t: nat) {
    forall k :: 0 <= k < |pending| ==> |pending[k].bits| == n && pending[k].term <= t
  }

  /** The votes of a proposal after merging a packet: those of the entry before, or of the packet, and its own. */
  lemma AbsorbedVoters(st: PaxosState, i: nat, n: nat, pkt: Packet, p: Pending)
    requires i < n && |pkt.bits| == n && Fits(LearnCommits(st, pkt).0.pending, n, pkt.currentTerm)
    requires p in Absorbed(st, i, n, pkt).pending
    ensures var st1 := LearnCommits(st, pkt).0;
      || (exists votes :: Entry(st1.pending, p.term, votes) && Voters(p.bits) == votes + Voters(pkt.bits) + {i})
      || (pkt.data != Empty && p.term == pkt.currentTerm && !KnowsTerm(st1, p.term)
          && Voters(p.bits) == Voters(pkt.bits) + {i})
  {
    hide Voters, InLog, LearnCommits, MergedVotes;
    var st1 := LearnCommits(st, pkt).0;
    var t := pkt.currentTerm;
    var pending := if pkt.data != Empty then TakeProposal(NoteTerm(st1, t), t, pkt.data, pkt.bits).pending
                   else st1.pending;
    assert Fits(pending, n, t);
    var merged := MergedVotes(pending, t, pkt.bits);
    MergedFits(pending, n, t, pkt.bits);
    assert p in MergedVotes(merged, t, OneBit(n, i));
    var p1 := MergedVoters(merged, t, OneBit(n, i), p);
    var p0 := MergedVoters(pending, t, pkt.bits, p1);
    JustOne(n, i);
    if p0 in st1.pending {
      assert Entry(st1.pending, p.term, Voters(p0.bits));
    } else {
      assert p0 == Pending(t, pkt.data, pkt.bits);
      UnionTwice(Voters(pkt.bits), {i});
    }
  }

  lemma UnionTwice(a: set<nat>, b: set<nat>)
    ensures a + a + b == a + b
  {
  }

  lemma JustOne(n: nat, i: nat)
    requires i < n
    ensures Voters(OneBit(n, i)) == {i}
  {
  }

  lemma MergedFits(pending: seq<Pending>, n: nat, t: nat, bits: seq<bool>)
    requires Fits(pending, n, t)
    ensures Fits(MergedVotes(pending, t, bits), n, t)
  {
  }

  /** The votes a node counts between rounds are those it has heard. */
  ghost predicate VotesExact(c: Plan, st: PaxosState, j: nat, r: nat)
    requires c.n > 0
  {
    forall p :: p in st.pending ==> Voters(p.bits) == VotesHeard(c, j, p.term, r)
  }

  /** A term that round `r` itself proposes, in the hands of its initiator. */
  predicate JustProposed(c: Plan, j: nat, t: nat, r: nat)
    requires c.n > 0
  {
    j == r % c.n && t == r && r < c.proposals
  }

  /** ... and between the halves of round `r` the initiator has its own new proposal besides. */
  ghost predicate HalfExact(c: Plan, st: PaxosState, j: nat, r: nat)
    requires c.n > 0
  {
    && (forall t: nat :: KnowsTerm(st, t) <==> Told(c, j, t, r) || JustProposed(c, j, t, r))
    && (forall p :: p in st.pending ==>
          if Told(c, j, p.term, r) then Voters(p.bits) == VotesHeard(c, j, p.term, r)
          else JustProposed(c, j, p.term, r) && Voters(p.bits) == {j})
  }

  lemma VotesStep(c: Plan, j: nat, t: nat, r: nat)
    requires ValidPlan(c) && j in c.parts(r)
    ensures Told(c, j, t, r) ==> VotesHeard(c, j, t, r + 1) == VotesHeard(c, j, t, r) + Carried(c, r) + {j}
    ensures !Told(c, j, t, r) && t == r < c.proposals ==> VotesHeard(c, j, t, r + 1) == Carried(c, r) + {j}
    ensures !Told(c, j, t, r) && !(t == r < c.proposals) && Tells(c, r, t) ==> VotesHeard(c, j, t, r + 1) == {j}
  {
    CarriesItsInitiator(c, r);
    if Told(c, j, t, r) {
      OwnVote(c, j, t, r);
    }
    hide Told, Tells, Carried;
  }

  lemma NotToldYet(c: Plan, j: nat, r: nat)
    requires ValidPlan(c) && j < c.n && r < c.proposals
    ensures !Told(c, j, r, r)
  {
    KnowsExactly(c, r, j, r);
    RoundFacts(c, r);
    hide After, Prepared, PacketOk;
    var sys := After(c, r);
    assert NodeOk(c.n, sys.states[j], j, r, sys.termCounter);
    if InLog(sys.states[j].log, r) {
      LoggedIsAccepted(sys.states[j], r);
    }
  }

  /** The entry of a proposal after the packet of round `r` has been merged. */
  lemma AbsorbedExact(c: Plan, st: PaxosState, j: nat, r: nat, pkt: Packet, p: Pending)
    requires ValidPlan(c) && j < c.n && j in c.parts(r) && HalfExact(c, st, j, r) && Tidy(st)
    requires |pkt.bits| == c.n && Voters(pkt.bits) == Carried(c, r) && Fits(st.pending, c.n, pkt.currentTerm)
    requires pkt.data != Empty ==> r < c.proposals && pkt.currentTerm == r
    requires p in Absorbed(st, j, c.n, pkt).pending
    ensures Voters(p.bits) == VotesHeard(c, j, p.term, r + 1)
  {
    hide Absorbed, Carried, Voters, VotesHeard, Told, Tells, KnowsTerm, Tidy;
    LearnedPending(st, pkt, c.n);
    AbsorbedVoters(st, j, c.n, pkt, p);
    VotesStep(c, j, p.term, r);
    CarriesItsInitiator(c, r);
    LearningKnows(st, pkt, p.term);
    if r < c.proposals {
      NotToldYet(c, j, r);
    }
    var st1 := LearnCommits(st, pkt).0;
    if votes :| Entry(st1.pending, p.term, votes) && Voters(p.bits) == votes + Voters(pkt.bits) + {j} {
      var before :| before in st1.pending && before.term == p.term && Voters(before.bits) == votes;
      assert before in st.pending;
    }
  }

  lemma LearnedPending(st: PaxosState, pkt: Packet, n: nat)
    requires Tidy(st)
    ensures forall p :: p in LearnCommits(st, pkt).0.pending ==> p in st.pending
    ensures Fits(st.pending, n, pkt.currentTerm) ==> Fits(LearnCommits(st, pkt).0.pending, n, pkt.currentTerm)
  {
    hide CommittedRange, Tidy;
    if pkt.lastAccepted.Some? {
      CommitRangeTidy(st, 0, pkt.lastAccepted.value);
      hide InLog, IsPending;
      var pending := LearnCommits(st, pkt).0.pending;
      forall k | 0 <= k < |pending| ensures pending[k] in st.pending {
      }
      if Fits(st.pending, n, pkt.currentTerm) {
        forall k | 0 <= k < |pending| ensures |pending[k].bits| == n && pending[k].term <= pkt.currentTerm {
          assert pending[k] in st.pending;
        }
      }
    }
  }

  /** A participant counts exactly the votes it has heard after the round if it did before. */
  lemma ReceivedExact(c: Plan, st: PaxosState, j: nat, r: nat, pkt: Packet)
    requires ValidPlan(c) && j < c.n && j in c.parts(r) && HalfExact(c, st, j, r) && Tidy(st)
    requires |pkt.bits| == c.n && Voters(pkt.bits) == Carried(c, r) && Fits(st.pending, c.n, pkt.currentTerm)
    requires pkt.data != Empty <==> r < c.proposals
    requires r < c.proposals ==> pkt.currentTerm == r
    requires pkt.pbTerm == After(c, r).pbTerm
    ensures VotesExact(c, Received(st, j, c.n, pkt), j, r + 1)
  {
    hide Absorbed, Carried, VotesHeard, Told, After, Tidy, Fits;
    var st1 := Absorbed(st, j, c.n, pkt);
    forall p | p in Received(st, j, c.n, pkt).pending ensures Voters(p.bits) == VotesHeard(c, j, p.term, r + 1) {
      if p in st1.pending {
        AbsorbedExact(c, st, j, r, pkt, p);
      } else {
        assert p == Pending(pkt.pbTerm.value, pkt.pbData, OneBit(c.n, j)) && !KnowsTerm(st1, p.term);
        AbsorbedKnows(st, j, c.n, pkt, p.term);
        JustOne(c.n, j);
        VotesStep(c, j, p.term, r);
      }
    }
  }

  /** Preparing: the initiator's new proposal has its own vote, what else is pending was so before. */
  lemma PreparedExact(c: Plan, r: nat, j: nat)
    requires ValidPlan(c) && j < c.n && VotesExact(c, After(c, r).states[j], j, r)
    ensures HalfExact(c, Prepared(c, After(c, r), r).0.states[j], j, r)
  {
    hide After, Prepared, VotesHeard, Told, KnowsTerm, NodeOk, PacketOk;
    RoundFacts(c, r);
    var sys, i := After(c, r), r % c.n;
    PreparedStates(c, sys, r);
    var st' := Prepared(c, sys, r).0.states[j];
    forall t: nat ensures KnowsTerm(st', t) <==> Told(c, j, t, r) || JustProposed(c, j, t, r) {
      PreparingKnows(c, sys, r, j, t);
      KnowsExactly(c, r, j, t);
    }
    forall p | p in st'.pending
      ensures if Told(c, j, p.term, r) then Voters(p.bits) == VotesHeard(c, j, p.term, r)
              else JustProposed(c, j, p.term, r) && Voters(p.bits) == {j}
    {
      PreparedEntry(c, sys, r, j, p);
      if p in sys.states[j].pending {
        PendingIsKnown(sys.states[j], p);
        KnowsExactly(c, r, j, p.term);
      } else {
        NotToldYet(c, j, r);
        JustOne(c.n, j);
      }
    }
  }

  lemma PendingIsKnown(st: PaxosState, p: Pending)
    requires p in st.pending
    ensures KnowsTerm(st, p.term)
  {
  }

  lemma PreparedEntry(c: Plan, sys: Sys, r: nat, j: nat, p: Pending)
    requires ValidPlan(c) && AllOk(c, sys, r) && j < c.n && p in Prepared(c, sys, r).0.states[j].pending
    ensures p in sys.states[j].pending || (JustProposed(c, j, p.term, r) && p.bits == OneBit(c.n, j))
  {
    PreparedStates(c, sys, r);
    ProposeOk(c, sys, r);
    hide Prepared, Gap, FlagsFor, HighestQuorum, CommittedRange, Tidy, AllEarned;
    var st := WithProposal(sys, c.n, c.proposals, r % c.n);
    var hq := HighestQuorum(st.pending, |st.pending|);
    if j == r % c.n && hq.Some? {
      CommitRangeTidy(st, 0, hq.value);
      hide InLog, IsPending;
      assert p in st.pending;
    }
  }

  lemma RoundVotes(c: Plan, r: nat, j: nat)
    requires ValidPlan(c) && j < c.n && VotesExact(c, After(c, r).states[j], j, r)
    ensures VotesExact(c, After(c, r + 1).states[j], j, r + 1)
  {
    hide After, Prepared, Received, VotesHeard, AllOk, PacketOk, KnowsTerm, Told;
    PreparedExact(c, r, j);
    RoundFacts(c, r);
    RoundOfNode(c, r, j);
    var (sys, pkt) := Prepared(c, After(c, r), r);
    if j in c.parts(r) {
      PacketBits(c, r);
      NodeFits(c, sys, r, j, pkt);
      ReceivedExact(c, sys.states[j], j, r, pkt);
    } else {
      AbsentVotes(c, r, j);
      forall p | p in sys.states[j].pending ensures Voters(p.bits) == VotesHeard(c, j, p.term, r + 1) {
        assert j != r % c.n;
        PendingIsKnown(sys.states[j], p);
      }
    }
  }

  lemma PacketBits(c: Plan, r: nat)
    requires ValidPlan(c)
    ensures |Prepared(c, After(c, r), r).1.bits| == c.n && Voters(Prepared(c, After(c, r), r).1.bits) == Carried(c, r)
  {
    RoundFacts(c, r);
    hide After, Prepared;
  }

  lemma AbsentVotes(c: Plan, r: nat, j: nat)
    requires c.n > 0 && j !in c.parts(r)
    ensures forall t: nat :: VotesHeard(c, j, t, r + 1) == VotesHeard(c, j, t, r)
  {
    hide Told, Tells, Carried;
  }

  lemma NodeFits(c: Plan, sys: Sys, r: nat, j: nat, pkt: Packet)
    requires ValidPlan(c) && AllOk(c, sys, r + 1) && j < c.n && |pkt.bits| == c.n
    requires pkt.currentTerm == if r < c.proposals then r else if c.proposals == 0 then 0 else c.proposals - 1
    ensures Tidy(sys.states[j]) && Fits(sys.states[j].pending, c.n, pkt.currentTerm)
  {
    assert NodeOk(c.n, sys.states[j], j, r + 1, sys.termCounter);
    hide Tidy;
    forall k | 0 <= k < |sys.states[j].pending|
      ensures |sys.states[j].pending[k].bits| == c.n && sys.states[j].pending[k].term <= pkt.currentTerm
    {
      assert VotesEarned(c.n, sys.states[j].pending[k], j, r + 1);
    }
  }

  /** Under any loss: between rounds the bitmap of every pending proposal consists of exactly the votes heard. */
  lemma {:induction false} CountsVotesHeard(c: Plan, r: nat, j: nat, k: nat)
    requires ValidPlan(c) && j < c.n && k < |After(c, r).states[j].pending|
    ensures var p := After(c, r).states[j].pending[k];
      Voters(p.bits) == VotesHeard(c, j, p.term, r)
  {
    hide After, VotesHeard;
    AlwaysExact(c, r, j);
  }

  lemma {:induction false} AlwaysExact(c: Plan, r: nat, j: nat)
    requires ValidPlan(c) && j < c.n
    ensures VotesExact(c, After(c, r).states[j], j, r)
  {
    hide RoundOf, VotesHeard;
    if r > 0 {
      hide VotesExact;
      AlwaysExact(c, r - 1, j);
      RoundVotes(c, r - 1, j);
    } else {
      assert After(c, 0).states[j] == FRESH;
    }
  }

  // ---------------------------------------------------------------- votes and holders

  /** The nodes that know term `t`. */
  ghost function Holders(sys: Sys, t: nat): set<nat> {
    set i: nat | i < |sys.states| && KnowsTerm(sys.states[i], t)
  }

  lemma HoldsIfTold(c: Plan, v: nat, t: nat, r: nat)
    requires ValidPlan(c) && v < c.n && t < c.proposals && t < r && v in c.parts(t)
    ensures v in Holders(After(c, r), t)
  {
    KnowsExactly(c, r, v, t);
    assert Tells(c, t, t);
    hide After, KnowsTerm, Tells;
  }

  lemma PendingFacts(c: Plan, r: nat, j: nat, k: nat)
    requires ValidPlan(c) && j < c.n && k < |After(c, r).states[j].pending|
    ensures var p := After(c, r).states[j].pending[k];
      && p.term < r && p.term < c.proposals && |p.bits| == c.n
      && Voters(p.bits) <= Inits(c.n, p.term, r) + {j}
      && j in Holders(After(c, r), p.term)
  {
    ReachableOk(c, r);
    hide After;
    var sys := After(c, r);
    assert NodeOk(c.n, sys.states[j], j, r, sys.termCounter);
    assert VotesEarned(c.n, sys.states[j].pending[k], j, r);
    PendingIsKnown(sys.states[j], sys.states[j].pending[k]);
  }

  /** All initiators from round `t` to round `r - 1` took part in round `t`. */
  ghost predicate MetByInitiators(c: Plan, t: nat, r: nat)
    requires c.n > 0
  {
    forall q: nat :: t <= q < r ==> q % c.n in c.parts(t)
  }

  /**
    Under any loss: if all initiators since round `t` took part in it, every voter in any
    bitmap for term `t` knows the term.
   */
  lemma VotersHold(c: Plan, r: nat, j: nat, k: nat)
    requires ValidPlan(c) && j < c.n && k < |After(c, r).states[j].pending|
    requires MetByInitiators(c, After(c, r).states[j].pending[k].term, r)
    ensures var p := After(c, r).states[j].pending[k];
      Voters(p.bits) <= Holders(After(c, r), p.term)
  {
    PendingFacts(c, r, j, k);
    hide After, Voters, Inits, Holders;
    var p := After(c, r).states[j].pending[k];
    forall v | v in Voters(p.bits) ensures v in Holders(After(c, r), p.term) {
      InitsAre(c.n, p.term, r, v);
      if v != j {
        HoldsIfTold(c, v, p.term, r);
      }
    }
  }

  /** ... and so a quorum for it means that a majority of the nodes know it. */
  lemma QuorumIsHeld(c: Plan, r: nat, j: nat, t: nat)
    requires ValidPlan(c) && j < c.n && QuorumReached(After(c, r).states[j].pending, t)
    requires MetByInitiators(c, t, r)
    ensures |Holders(After(c, r), t)| >= c.n / 2 + 1
  {
    var pending := After(c, r).states[j].pending;
    var k := Position(pending, t).value;
    VotersHold(c, r, j, k);
    PendingFacts(c, r, j, k);
    VotersCounted(pending[k].bits);
    hide After, Voters, Holders, Inits;
    SubsetSize(Voters(pending[k].bits), Holders(After(c, r), t));
  }

  /** Some packet before round `r` piggybacks term `t`. */
  ghost predicate Recovered(c: Plan, t: nat, r: nat)
    requires c.n > 0
  {
    exists q: nat :: q < r && After(c, q).pbTerm == Some(t)
  }

  /** The nodes that took part in the round of `t`, or in one that piggybacked it. */
  ghost function Meeters(c: Plan, t: nat, r: nat): set<nat>
    requires c.n > 0
  {
    set v: nat | v < c.n && Told(c, v, t, r)
  }

  lemma HoldersAreMeeters(c: Plan, t: nat, r: nat)
    requires ValidPlan(c)
    ensures Holders(After(c, r), t) == Meeters(c, t, r)
  {
    hide After, KnowsTerm, Told;
    forall v: nat | v < c.n ensures KnowsTerm(After(c, r).states[v], t) <==> Told(c, v, t, r) {
      KnowsExactly(c, r, v, t);
    }
  }

  lemma MeetersOfItsRound(c: Plan, t: nat, r: nat)
    requires ValidPlan(c) && t < c.proposals && t < r && !Recovered(c, t, r)
    ensures Meeters(c, t, r) == c.parts(t) * Upto(c.n)
  {
    hide After;
    forall v: nat ensures Told(c, v, t, r) <==> v in c.parts(t) {
      if v in c.parts(t) {
        assert Tells(c, t, t);
      }
      if Told(c, v, t, r) {
        var q: nat :| q < r && v in c.parts(q) && Tells(c, q, t);
        assert After(c, q).pbTerm != Some(t);
      }
    }
    hide Told, Upto;
  }

  /**
    Exactly when a quorum is held by a majority.  A pending proposal has one exactly if a
    majority of votes has been heard, and a majority knows it exactly if a majority took part in
    its round or in one that piggybacked it; with no recovery, as for term 0 always, exactly if
    a majority took part in its round.  A quorum is enough if all initiators since then did.
   */
  lemma QuorumHeldExactly(c: Plan, r: nat, j: nat, k: nat)
    requires ValidPlan(c) && j < c.n && k < |After(c, r).states[j].pending|
    ensures var t := After(c, r).states[j].pending[k].term;
      && (QuorumReached(After(c, r).states[j].pending, t) <==> |VotesHeard(c, j, t, r)| >= c.n / 2 + 1)
      && (|Holders(After(c, r), t)| >= c.n / 2 + 1 <==> |Meeters(c, t, r)| >= c.n / 2 + 1)
      && (!Recovered(c, t, r) || t == 0 ==>
            (|Holders(After(c, r), t)| >= c.n / 2 + 1 <==> |c.parts(t) * Upto(c.n)| >= c.n / 2 + 1))
      && (QuorumReached(After(c, r).states[j].pending, t) && MetByInitiators(c, t, r) ==>
            |Holders(After(c, r), t)| >= c.n / 2 + 1)
  {
    hide After, Holders, Meeters, Voters, Inits, Upto, VotesHeard, Recovered, QuorumReached;
    PendingFacts(c, r, j, k);
    CountsVotesHeard(c, r, j, k);
    var t := After(c, r).states[j].pending[k].term;
    HoldersAreMeeters(c, t, r);
    QuorumOfEntry(c, r, j, k);
    if QuorumReached(After(c, r).states[j].pending, t) && MetByInitiators(c, t, r) {
      QuorumIsHeld(c, r, j, t);
    }
    ZeroNotRecovered(c, r);
    if !Recovered(c, t, r) {
      MeetersOfItsRound(c, t, r);
    }
  }

  lemma QuorumOfEntry(c: Plan, r: nat, j: nat, k: nat)
    requires ValidPlan(c) && j < c.n && k < |After(c, r).states[j].pending|
    ensures var p := After(c, r).states[j].pending[k];
      QuorumReached(After(c, r).states[j].pending, p.term) <==> |Voters(p.bits)| >= c.n / 2 + 1
  {
    PendingFacts(c, r, j, k);
    ReachableOk(c, r);
    hide After, Voters, Holders, Inits;
    TidyNode(c, After(c, r), r, j);
    var pending := After(c, r).states[j].pending;
    PositionAt(pending, k);
    VotersCounted(pending[k].bits);
  }

  lemma ZeroNotRecovered(c: Plan, r: nat)
    requires ValidPlan(c)
    ensures !Recovered(c, 0, r)
  {
    hide After;
    forall q: nat ensures After(c, q).pbTerm != Some(0) {
      NeverPiggybacked(c, q);
    }
  }

  /** What a node that met `t` in its own round has heard since. */
  lemma {:induction false} VotesSince(c: Plan, j: nat, t: nat, r: nat, v: nat)
    requires ValidPlan(c) && j < c.n && j in c.parts(t) && t < c.proposals && t < r
    ensures v in VotesHeard(c, j, t, r)
      <==> v == t % c.n || v == j || exists q: nat :: t < q < r && j in c.parts(q) && v in Carried(c, q)
    decreases r
  {
    hide Carried, Told, Tells;
    if r == t + 1 {
      NotToldYet(c, j, t);
    } else {
      VotesSince(c, j, t, r - 1, v);
      ToldInItsRound(c, j, t, r - 1);
      if j in c.parts(r - 1) && v in Carried(c, r - 1) {
        assert t < r - 1 < r;
      }
    }
  }

  lemma ToldInItsRound(c: Plan, j: nat, t: nat, r: nat)
    requires c.n > 0 && j in c.parts(t) && t < c.proposals && t < r
    ensures Told(c, j, t, r)
  {
    assert Tells(c, t, t);
    hide Tells;
  }

  /**
    Exactly when all voters hold the term: a node that took part in round `t` counts the
    carried votes of every later round it took part in, so all its voters know `t` if and
    only if all of those do; while there are new terms, these are the initiators alone.
   */
  lemma VotersHoldExactly(c: Plan, r: nat, j: nat, k: nat)
    requires ValidPlan(c) && j < c.n && k < |After(c, r).states[j].pending|
    requires j in c.parts(After(c, r).states[j].pending[k].term)
    ensures var p := After(c, r).states[j].pending[k];
      var holders := Holders(After(c, r), p.term);
      && (Voters(p.bits) <= holders
          <==> forall q: nat :: p.term < q < r && j in c.parts(q) ==> Carried(c, q) <= holders)
      && (r <= c.proposals ==>
            (Voters(p.bits) <= holders
             <==> forall q: nat :: p.term < q < r && j in c.parts(q) ==> q % c.n in holders))
  {
    hide After, Voters, Holders, Inits, VotesHeard;
    PendingFacts(c, r, j, k);
    CountsVotesHeard(c, r, j, k);
    var p, holders := After(c, r).states[j].pending[k], Holders(After(c, r), After(c, r).states[j].pending[k].term);
    HoldsIfTold(c, p.term % c.n, p.term, r);
    HeardInside(c, j, p.term, r, holders);
  }

  lemma HeardInside(c: Plan, j: nat, t: nat, r: nat, s: set<nat>)
    requires ValidPlan(c) && j < c.n && j in c.parts(t) && t < c.proposals && t < r && t % c.n in s && j in s
    ensures VotesHeard(c, j, t, r) <= s <==> forall q: nat :: t < q < r && j in c.parts(q) ==> Carried(c, q) <= s
    ensures r <= c.proposals ==>
      (VotesHeard(c, j, t, r) <= s <==> forall q: nat :: t < q < r && j in c.parts(q) ==> q % c.n in s)
  {
    hide Carried, VotesHeard;
    forall v: nat ensures v in VotesHeard(c, j, t, r)
      <==> v == t % c.n || v == j || exists q: nat :: t < q < r && j in c.parts(q) && v in Carried(c, q)
    {
      VotesSince(c, j, t, r, v);
    }
    forall q: nat | q < c.proposals ensures Carried(c, q) == {q % c.n} {
      CarriesItsInitiator(c, q);
    }
  }

  // ---------------------------------------------------------------- what an acceptance leaves in the log

  lemma LearnedLog(st: PaxosState, i: nat, n: nat, pkt: Packet, t: nat)
    requires Tidy(st) && pkt.lastAccepted.Some? && t <= pkt.lastAccepted.value
    ensures InLog(Received(st, i, n, pkt).log, t) <==> KnowsTerm(st, t)
    ensures HasAccepted(Received(st, i, n, pkt), t)
  {
    AcceptsNothingElse(st, i, n, pkt);
    CommitRangeTidy(st, 0, pkt.lastAccepted.value);
    hide CommittedRange, MergedVotes, InLog, IsPending;
    assert Received(st, i, n, pkt).log == LearnCommits(st, pkt).0.log;
  }

  /**
    Under any loss: a participant of round `r` whose packet declares the terms up to `u`
    accepted has accepted them all afterwards, and has in its log exactly those it had been
    told about before.  The others are holes.
   */
  lemma HolesExactly(c: Plan, r: nat, j: nat, t: nat)
    requires ValidPlan(c) && j < c.n && j in c.parts(r)
    requires var accepted := Prepared(c, After(c, r), r).1.lastAccepted; accepted.Some? && t <= accepted.value
    ensures HasAccepted(After(c, r + 1).states[j], t)
    ensures InLog(After(c, r + 1).states[j].log, t) <==> Told(c, j, t, r)
  {
    hide After, Prepared, Received, KnowsTerm, NodeOk, Tidy, InLog, Told;
    RoundFacts(c, r);
    RoundOfNode(c, r, j);
    var (sys, pkt) := Prepared(c, After(c, r), r);
    TidyNode(c, sys, r + 1, j);
    LearnedLog(sys.states[j], j, c.n, pkt, t);
    PreparingKnows(c, After(c, r), r, j, t);
    KnowsExactly(c, r, j, t);
    assert Ripe(c.n, pkt.lastAccepted.value, r);
  }

  /** Accepting more terms from what is known logs what is known of them. */
  lemma CommitNoHole(st: PaxosState, upTo: nat, t: nat)
    requires Tidy(st) && KnowsTerm(st, t) && (HasAccepted(st, t) ==> InLog(st.log, t))
    ensures var st' := CommittedUpTo(st, upTo).0;
      HasAccepted(st', t) ==> InLog(st'.log, t)
  {
    CommitRangeTidy(st, 0, upTo);
    hide CommittedRange, InLog, IsPending;
  }

  lemma ReceiveNoHole(st: PaxosState, i: nat, n: nat, pkt: Packet, t: nat)
    requires Tidy(st) && KnowsTerm(st, t) && (HasAccepted(st, t) ==> InLog(st.log, t))
    ensures var st' := Received(st, i, n, pkt);
      HasAccepted(st', t) ==> InLog(st'.log, t)
  {
    if pkt.lastAccepted.Some? {
      CommitNoHole(st, pkt.lastAccepted.value, t);
    }
    AcceptsNothingElse(st, i, n, pkt);
    hide CommittedUpTo, MergedVotes, InLog, IsPending;
    assert Received(st, i, n, pkt).log == LearnCommits(st, pkt).0.log;
  }

  lemma PreparedNoHole(c: Plan, r: nat, j: nat, t: nat)
    requires ValidPlan(c) && j < c.n && t <= r && KnowsTerm(Prepared(c, After(c, r), r).0.states[j], t)
    requires HasAccepted(After(c, r).states[j], t) ==> InLog(After(c, r).states[j].log, t)
    ensures var st' := Prepared(c, After(c, r), r).0.states[j];
      HasAccepted(st', t) ==> InLog(st'.log, t)
  {
    hide After, Prepared, Gap, FlagsFor, Tidy, InLog;
    RoundFacts(c, r);
    var sys, i := After(c, r), r % c.n;
    PreparedStates(c, sys, r);
    ProposeOk(c, sys, r);
    var st := WithProposal(sys, c.n, c.proposals, i);
    hide HighestQuorum, CommittedRange, KnowsTerm;
    QuorumCommitKnows(st, t);
    var hq := HighestQuorum(st.pending, |st.pending|);
    if j == i && hq.Some? {
      CommitNoHole(st, hq.value, t);
    }
  }

  /** Whoever took part in the round of a term never has a hole there. */
  lemma {:induction false} NoHoleForParticipants(c: Plan, r: nat, j: nat, t: nat)
    requires ValidPlan(c) && j < c.n && t < c.proposals && j in c.parts(t)
    ensures HasAccepted(After(c, r).states[j], t) ==> InLog(After(c, r).states[j].log, t)
  {
    hide RoundOf, Prepared, InLog, KnowsTerm, HasAccepted, Received, Told, NodeOk;
    if r <= t {
      TooEarly(c, r, j, t);
    } else {
      NoHoleForParticipants(c, r - 1, j, t);
      RoundFacts(c, r - 1);
      RoundOfNode(c, r - 1, j);
      hide After;
      var (sys, pkt) := Prepared(c, After(c, r - 1), r - 1);
      TidyNode(c, sys, r, j);
      if t < r - 1 {
        ToldInItsRound(c, j, t, r - 1);
        KnowsExactly(c, r - 1, j, t);
        PreparingKnows(c, After(c, r - 1), r - 1, j, t);
        PreparedNoHole(c, r - 1, j, t);
        ReceiveNoHole(sys.states[j], j, c.n, pkt, t);
      } else {
        TooEarly(c, r, j, t);
      }
    }
  }

  lemma TooEarly(c: Plan, r: nat, j: nat, t: nat)
    requires ValidPlan(c) && j < c.n && r <= t + 1
    ensures !HasAccepted(After(c, r).states[j], t)
  {
    if HasAccepted(After(c, r).states[j], t) {
      NoEarlyCommit(c, r, j, t);
    }
  }

  // ---------------------------------------------------------------- term 0 is never asked for

  lemma NeverPiggybacked(c: Plan, r: nat)
    requires ValidPlan(c)
    ensures After(c, r).pbTerm != Some(0)
  {
    hide Prepared, ProcessUpTo, ShouldStop;
    if r > 0 {
      var (sys, pkt) := Prepared(c, After(c, r - 1), r - 1);
      NothingForZero(c, sys, r - 1, pkt, c.n);
    }
  }

  lemma {:induction false} NothingForZero(c: Plan, sys: Sys, r: nat, pkt: Packet, k: nat)
    requires |sys.states| == c.n && k <= c.n
    ensures ProcessUpTo(c, sys, r, pkt, k).pbTerm != Some(0)
  {
    hide Supply, Absorbed, Received, LearnCommits, Announced;
    if k > 0 {
      NothingForZero(c, sys, r, pkt, k - 1);
    }
  }

  /** Term 0 is never recovered: who misses its round never knows it. */
  lemma TermZeroOnlyOnce(c: Plan, r: nat, j: nat)
    requires ValidPlan(c) && j < c.n
    ensures KnowsTerm(After(c, r).states[j], 0) <==> r > 0 && c.proposals > 0 && j in c.parts(0)
  {
    KnowsExactly(c, r, j, 0);
    forall q: nat ensures Tells(c, q, 0) <==> q == 0 < c.proposals {
      NeverPiggybacked(c, q);
    }
    hide After, KnowsTerm, Tells;
  }

  // ---------------------------------------------------------------- a run with a quorum of strangers and a hole

  /** Two nodes and two proposals; the second node misses round 0 and nothing else. */
  ghost predicate Example(c: Plan) {
    ValidPlan(c) && c.n == 2 && c.proposals == 2 && c.parts(0) == {0} && c.parts(1) == c.parts(2) == {0, 1}
  }

  /** A node with one pending proposal. */
  function Holding(t: nat, bits: seq<bool>): PaxosState {
    PaxosState(None, None, [], [Pending(t, Tx(t), bits)])
  }

  lemma ExampleOpens(t: nat, i: nat)
    requires i < 2
    ensures QuorumCommit(Holding(t, OneBit(2, i))) == (Holding(t, OneBit(2, i)), [])
    ensures FlagsFor(Holding(t, OneBit(2, i)), 2, t, i) == OneBit(2, i)
  {
    var bits := OneBit(2, i);
    VotersCounted(bits);
    assert Voters(bits) == {i};
    var pending := Holding(t, bits).pending;
    assert Position(pending, t) == Some(0);
    assert HighestQuorum(pending, 0) == None;
    assert HighestQuorum(pending, 1) == None;
  }

  lemma ExampleProposes(c: Plan)
    requires Example(c)
    ensures var (sys, pkt) := Prepared(c, Start(2), 0);
      && sys.states == [Holding(0, OneBit(2, 0)), FRESH] && sys.termCounter == sys.generated == 1
      && pkt == Packet(0, None, OneBit(2, 0), 0, 0, Tx(0), None, Empty)
  {
    hide QuorumCommit, FlagsFor, OneBit;
    ExampleOpens(0, 0);
    assert WithProposal(Start(2), 2, 2, 0) == Holding(0, OneBit(2, 0));
  }

  lemma ExampleFirst(c: Plan)
    requires Example(c)
    ensures After(c, 1).states == [Holding(0, OneBit(2, 0)), FRESH]
    ensures After(c, 1).termCounter == After(c, 1).generated == 1
    ensures After(c, 1).pbTerm == None && After(c, 1).pbData == Empty
  {
    hide Prepared, RoundOf, Received, OneBit;
    assert After(c, 0) == Start(2);
    ExampleProposes(c);
    RoundOfNode(c, 0, 0);
    RoundOfNode(c, 0, 1);
    CountersKept(c, 0);
    ExampleKeeps(OneBit(2, 0));
  }

  lemma ExampleKeeps(bits: seq<bool>)
    requires bits == OneBit(2, 0)
    ensures Received(Holding(0, bits), 0, 2, Packet(0, None, bits, 0, 0, Tx(0), None, Empty)) == Holding(0, bits)
  {
    assert Holding(0, bits).pending[0].term == 0;
    assert IsPending(Holding(0, bits).pending, 0);
    assert OrBits(bits, bits, 2) == bits;
  }

  lemma CountersKept(c: Plan, r: nat)
    requires ValidPlan(c)
    ensures var (sys, pkt) := Prepared(c, After(c, r), r);
      && After(c, r + 1).termCounter == sys.termCounter && After(c, r + 1).generated == sys.generated
      && (pkt.nack == 0 ==> After(c, r + 1).pbTerm == None && After(c, r + 1).pbData == Empty)
  {
    var (sys, pkt) := Prepared(c, After(c, r), r);
    TurnsCount(c, sys, r, pkt, c.n);
    hide Prepared, ProcessUpTo, ShouldStop;
  }

  lemma {:induction false} TurnsCount(c: Plan, sys: Sys, r: nat, pkt: Packet, k: nat)
    requires |sys.states| == c.n && k <= c.n
    ensures var sys' := ProcessUpTo(c, sys, r, pkt, k);
      && sys'.termCounter == sys.termCounter && sys'.generated == sys.generated
      && (pkt.nack == 0 ==> sys'.pbTerm == None && sys'.pbData == Empty)
  {
    hide Received, Absorbed, LearnCommits, Announced, Supply;
    if k > 0 {
      TurnsCount(c, sys, r, pkt, k - 1);
    }
  }

  lemma ExampleSecond(c: Plan)
    requires Example(c)
    ensures QuorumReached(After(c, 2).states[0].pending, 0)
    ensures !KnowsTerm(After(c, 2).states[1], 0)
  {
    ExampleFirst(c);
    ExampleOpens(1, 1);
    RoundOfNode(c, 1, 0);
    RoundOfNode(c, 1, 1);
    var sys := After(c, 1);
    hide After;
    var (sys1, pkt) := Prepared(c, sys, 1);
    assert WithProposal(sys, 2, 2, 1) == Holding(1, OneBit(2, 1));
    assert pkt == Packet(1, None, OneBit(2, 1), 0, 1, Tx(1), None, Empty);
    hide Prepared, QuorumCommit, FlagsFor;
    ExampleVotes(pkt);
  }

  lemma ExampleVotes(pkt: Packet)
    requires pkt == Packet(1, None, OneBit(2, 1), 0, 1, Tx(1), None, Empty)
    ensures QuorumReached(Received(Holding(0, OneBit(2, 0)), 0, 2, pkt).pending, 0)
    ensures !KnowsTerm(Received(Holding(1, OneBit(2, 1)), 1, 2, pkt), 0)
  {
    var pending := Received(Holding(0, OneBit(2, 0)), 0, 2, pkt).pending;
    assert pending[0].term == 0 && pending[0].bits == [true, true];
    PositionAt(pending, 0);
    assert Votes([true, true]) == 2 by {
      assert [true, true][..1] == [true];
      assert [true][..0] == [];
    }
  }

  /**
    A majority of votes is no majority of holders, and a log may have a hole: the first
    node's quorum for term 0 is completed after round 1 by the vote the second one cast for
    its own term 1, though the second node has never seen term 0; in round 2 the second node
    learns that term 0 is accepted and takes that over without the datum.
   */
  lemma QuorumWithoutHolders() returns (c: Plan)
    ensures ValidPlan(c) && c.n == 2
    ensures QuorumReached(After(c, 2).states[0].pending, 0) && Holders(After(c, 2), 0) == {0}
    ensures HasAccepted(After(c, 3).states[1], 0) && !InLog(After(c, 3).states[1].log, 0)
  {
    c := Plan(2, 2, 5, r => if r == 0 then {0} else {0, 1}, r => r, r => r + 1);
    hide After, Prepared, Holders, KnowsTerm, Told, InLog, HasAccepted, QuorumReached;
    ExampleSecond(c);
    ExampleHolders(c);
    ExampleAccepts(c);
    HolesExactly(c, 2, 1, 0);
  }

  lemma ExampleHolders(c: Plan)
    requires Example(c)
    ensures Holders(After(c, 2), 0) == {0} && !Told(c, 1, 0, 2)
  {
    hide After, KnowsTerm, Told;
    TermZeroOnlyOnce(c, 2, 0);
    TermZeroOnlyOnce(c, 2, 1);
    KnowsExactly(c, 2, 1, 0);
  }

  lemma {:induction false} SomeQuorum(pending: seq<Pending>, k: nat, m: nat)
    requires m < k <= |pending| && QuorumReached(pending, pending[m].term)
    ensures HighestQuorum(pending, k).Some?
  {
    if m < k - 1 {
      SomeQuorum(pending, k - 1, m);
    }
  }

  lemma ExampleAccepts(c: Plan)
    requires Example(c) && QuorumReached(After(c, 2).states[0].pending, 0)
    ensures Prepared(c, After(c, 2), 2).1.lastAccepted.Some?
  {
    hide After, Prepared, Gap, FlagsFor;
    RoundFacts(c, 2);
    var sys := After(c, 2);
    PreparedStates(c, sys, 2);
    var st := sys.states[0];
    assert WithProposal(sys, 2, 2, 0) == st;
    var k := Position(st.pending, 0).value;
    SomeQuorum(st.pending, |st.pending|, k);
    TidyNode(c, sys, 2, 0);
    CommitRangeTidy(st, 0, HighestQuorum(st.pending, |st.pending|).value);
  }
}
