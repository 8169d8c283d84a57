/**
  The Paxos pipeline under any loss: which terms a node accepts, when a commit is recorded, what
  a node has seen, and which term is asked for and supplied.
 */
module PaxosCommits {
  import opened Wrappers
  import opened Bitmaps
  import opened Messages
  import opened Metrics
  import opened Ledger
  import opened PaxosNode
  import opened PaxosRun
  import opened PaxosSafety
  import opened PaxosRecovery
  import opened PaxosHolders
  import PaxosOrder

  /** The packet of round `r`. */
  function Sent(c: Plan, r: nat): Packet
    requires c.n > 0
  {
    Prepared(c, After(c, r), r).1
  }

  // ---------------------------------------------------------------- which terms are accepted

  /** The initiator of round `r` has a majority of votes for a pending term as high as `t`. */
  ghost predicate Concludes(c: Plan, r: nat, t: nat)
    requires c.n > 0
  {
    exists u: nat :: t <= u && QuorumReached(After(c, r).states[r % c.n].pending, u)
  }

  /** The new proposal of a round has one vote, and changes nobody's quorum. */
  lemma ProposalNoQuorum(pending: seq<Pending>, p: Pending, n: nat, i: nat, u: nat)
    requires n >= 2 && i < n && p.bits == OneBit(n, i) && !IsPending(pending, p.term)
    ensures QuorumReached(pending + [p], u) <==> QuorumReached(pending, u)
  {
    var all := pending + [p];
    VotersCounted(p.bits);
    assert Voters(p.bits) == {i};
    if u == p.term {
      PositionAt(all, |pending|);
    } else if IsPending(pending, u) {
      var k := Position(pending, u).value;
      FirstPosition(pending, u);
      assert all[k] == pending[k] && forall j :: 0 <= j < k ==> all[j] == pending[j];
      PositionAt(all, k);
    } else {
      assert forall j :: 0 <= j < |all| ==> all[j].term != u;
    }
  }

  lemma {:induction false} FirstPosition(pending: seq<Pending>, u: nat)
    requires IsPending(pending, u)
    ensures forall j :: 0 <= j < Position(pending, u).value ==> pending[j].term != u
  {
    if pending[0].term != u {
      FirstPosition(pending[1..], u);
      assert forall j :: 0 < j < |pending| ==> pending[j] == pending[1..][j - 1];
    }
  }

  lemma QuorumAccepts(st: PaxosState, t: nat)
    requires Tidy(st)
    ensures HasAccepted(QuorumCommit(st).0, t)
      <==> HasAccepted(st, t) || exists u: nat :: t <= u && QuorumReached(st.pending, u)
  {
    HighestQuorumIsReached(st.pending, |st.pending|);
    var hq := HighestQuorum(st.pending, |st.pending|);
    forall u: nat | QuorumReached(st.pending, u) ensures hq.Some? && u <= hq.value {
      var k := PaxosOrder.FirstOf(st.pending, u);
      PaxosOrder.HighestAtLeast(st.pending, |st.pending|, k);
    }
    hide HighestQuorum, QuorumReached;
    if hq.Some? {
      CommitAnnounces(st, hq.value);
    }
    hide CommittedUpTo;
  }

  /** What the initiator accepts in the preparation of a round, and declares. */
  lemma PreparedAccepts(c: Plan, r: nat, t: nat)
    requires ValidPlan(c)
    ensures var (sys, pkt) := Prepared(c, After(c, r), r);
      var i := r % c.n;
      && (forall j: nat :: j < c.n && j != i ==> sys.states[j] == After(c, r).states[j])
      && (HasAccepted(sys.states[i], t) <==> HasAccepted(After(c, r).states[i], t) || Concludes(c, r, t))
      && pkt.lastAccepted == sys.states[i].lastAccepted
  {
    hide After, Prepared, QuorumCommit, QuorumReached, Gap, FlagsFor, AllEarned;
    ReachableOk(c, r);
    var sys, i := After(c, r), r % c.n;
    PreparedStates(c, sys, r);
    ProposeOk(c, sys, r);
    var st, st1 := sys.states[i], WithProposal(sys, c.n, c.proposals, i);
    QuorumAccepts(st1, t);
    if sys.generated < c.proposals {
      NotYetPending(c, sys, r, i);
      forall u: nat ensures QuorumReached(st1.pending, u) <==> QuorumReached(st.pending, u) {
        ProposalNoQuorum(st.pending, Pending(sys.termCounter, Tx(sys.termCounter), OneBit(c.n, i)), c.n, i, u);
      }
    }
  }

  lemma NotYetPending(c: Plan, sys: Sys, r: nat, i: nat)
    requires c.n > 0 && AllOk(c, sys, r) && i < c.n
    ensures !IsPending(sys.states[i].pending, sys.termCounter)
  {
    assert NodeOk(c.n, sys.states[i], i, r, sys.termCounter);
  }

  lemma ReceivedAccepts(st: PaxosState, i: nat, n: nat, pkt: Packet, t: nat)
    requires Tidy(st)
    ensures HasAccepted(Received(st, i, n, pkt), t)
      <==> HasAccepted(st, t) || (pkt.lastAccepted.Some? && t <= pkt.lastAccepted.value)
  {
    AcceptsNothingElse(st, i, n, pkt);
    hide Received;
    if pkt.lastAccepted.Some? {
      CommitAnnounces(st, pkt.lastAccepted.value);
    }
    hide CommittedUpTo;
  }

  /**
    Under any loss: a node has accepted a term after a round exactly if it had before, or took
    part and the initiator had, or has a majority of votes for that term or a later one.
   */
  lemma AcceptsExactly(c: Plan, r: nat, j: nat, t: nat)
    requires ValidPlan(c) && j < c.n
    ensures HasAccepted(After(c, r + 1).states[j], t)
      <==> HasAccepted(After(c, r).states[j], t)
           || (j in c.parts(r) && (HasAccepted(After(c, r).states[r % c.n], t) || Concludes(c, r, t)))
  {
    hide After, Prepared, Received, Concludes, Tidy;
    PreparedAccepts(c, r, t);
    RoundFacts(c, r);
    RoundOfNode(c, r, j);
    var (sys, pkt) := Prepared(c, After(c, r), r);
    TidyNode(c, sys, r + 1, j);
    ReceivedAccepts(sys.states[j], j, c.n, pkt, t);
  }

  /** A term is committed after a round exactly if it was before or the initiator concludes it. */
  lemma CommitsExactly(c: Plan, r: nat, t: nat)
    requires ValidPlan(c)
    ensures t in After(c, r + 1).committed <==> t in After(c, r).committed || Concludes(c, r, t)
  {
    hide After, Concludes, HasAccepted;
    ReachableBooks(c, r);
    ReachableBooks(c, r + 1);
    forall j: nat | j < c.n
      ensures HasAccepted(After(c, r + 1).states[j], t)
        <==> HasAccepted(After(c, r).states[j], t)
             || (j in c.parts(r) && (HasAccepted(After(c, r).states[r % c.n], t) || Concludes(c, r, t)))
    {
      AcceptsExactly(c, r, j, t);
    }
    var i := r % c.n;
    assert i < c.n && i in c.parts(r);
    var before, after := After(c, r).states, After(c, r + 1).states;
    if AcceptedSomewhere(After(c, r), t) {
      var j :| 0 <= j < |before| && HasAccepted(before[j], t);
      assert HasAccepted(after[j], t);
    } else if Concludes(c, r, t) {
      assert HasAccepted(after[i], t);
    } else {
      forall j | 0 <= j < |after| ensures !HasAccepted(after[j], t) {
        assert !HasAccepted(before[j], t) && !HasAccepted(before[i], t);
      }
    }
  }

  // ---------------------------------------------------------------- what a packet carries

  /** A quorum commit takes the terms up to the highest one with a majority, and no other, from the pending ones. */
  lemma QuorumPending(st: PaxosState, t: nat)
    requires Tidy(st)
    ensures Tidy(QuorumCommit(st).0)
    ensures IsPending(QuorumCommit(st).0.pending, t)
      <==> IsPending(st.pending, t) && forall u: nat :: QuorumReached(st.pending, u) ==> u < t
  {
    QuorumCommitKnows(st, t);
    HighestQuorumIsReached(st.pending, |st.pending|);
    var hq := HighestQuorum(st.pending, |st.pending|);
    forall u: nat | QuorumReached(st.pending, u) ensures hq.Some? && u <= hq.value {
      var k := PaxosOrder.FirstOf(st.pending, u);
      PaxosOrder.HighestAtLeast(st.pending, |st.pending|, k);
    }
    hide HighestQuorum, QuorumReached;
    if hq.Some? {
      CommitRangeTidy(st, 0, hq.value);
    }
    hide CommittedUpTo, InLog;
  }

  lemma FlagsShow(st: PaxosState, n: nat, t: nat, i: nat)
    requires i < n && forall p :: p in st.pending ==> |p.bits| == n
    ensures IsPending(st.pending, t) ==>
      exists p :: p in st.pending && p.term == t && Voters(FlagsFor(st, n, t, i)) == Voters(p.bits) + {i}
    ensures !IsPending(st.pending, t) ==> Voters(FlagsFor(st, n, t, i)) == {i}
  {
    if IsPending(st.pending, t) {
      var p := st.pending[Position(st.pending, t).value];
      assert p in st.pending && Voters(FlagsFor(st, n, t, i)) == Voters(p.bits) + {i};
    }
  }

  /**
    Past the last term a packet carries what its initiator has heard for that term while it has
    it pending and concludes nothing as high, and else the initiator's vote alone.
   */
  lemma CarriesItsVotes(c: Plan, q: nat)
    requires ValidPlan(c) && 0 < c.proposals <= q
    ensures var i, last := q % c.n, c.proposals - 1;
      Carried(c, q) == if IsPending(After(c, q).states[i].pending, last) && !Concludes(c, q, last)
                       then VotesHeard(c, i, last, q) else {i}
  {
    hide After, Prepared, QuorumCommit, QuorumReached, FlagsFor, VotesHeard, Told, KnowsTerm, AllEarned, Tidy,
         IsPending;
    var i, last, before := q % c.n, c.proposals - 1, After(c, q);
    RoundFacts(c, q);
    PreparedStates(c, before, q);
    var (sys, pkt) := Prepared(c, before, q);
    TidyNode(c, before, q, i);
    assert WithProposal(before, c.n, c.proposals, i) == before.states[i];
    QuorumPending(before.states[i], last);
    AlwaysExact(c, q, i);
    PreparedExact(c, q, i);
    NodeFits(c, sys, q, i, pkt);
    FlagsShow(sys.states[i], c.n, last, i);
    if p :| p in sys.states[i].pending && p.term == last && Voters(pkt.bits) == Voters(p.bits) + {i} {
      OwnVote(c, i, last, q);
    }
  }

  // ---------------------------------------------------------------- when a commit is recorded

  /** Round `q` is the first whose initiator concludes term `t`. */
  ghost predicate FirstConcludes(c: Plan, q: nat, t: nat)
    requires c.n > 0
  {
    Concludes(c, q, t) && forall p: nat :: p < q ==> !Concludes(c, p, t)
  }

  lemma {:induction false} CommittedIsConcluded(c: Plan, r: nat, t: nat)
    requires ValidPlan(c)
    ensures t in After(c, r).committed <==> exists q: nat :: q < r && Concludes(c, q, t)
  {
    hide After, Concludes;
    if r > 0 {
      CommittedIsConcluded(c, r - 1, t);
      CommitsExactly(c, r - 1, t);
    } else {
      NothingAtStart(c);
    }
  }

  lemma NothingAtStart(c: Plan)
    requires c.n > 0
    ensures After(c, 0).committed == {} && After(c, 0).records == []
    ensures forall j: nat :: j < c.n ==> After(c, 0).states[j] == FRESH
    ensures After(c, 0).pbTerm == None
  {
  }

  lemma PreparedLedger(c: Plan, sys: Sys, r: nat)
    requires |sys.states| == c.n > 0
    ensures var sys' := Prepared(c, sys, r).0;
      var newly := QuorumCommit(WithProposal(sys, c.n, c.proposals, r % c.n)).1;
      && sys'.records == Announced(sys.committed, sys.records, newly, sys'.starts, c.preparedAt(r)).1
      && sys'.starts == (if sys.generated < c.proposals
                         then sys.starts[CurrentTerm(sys, c.proposals) := c.preparedAt(r)] else sys.starts)
      && sys'.termCounter == sys.termCounter + if sys.generated < c.proposals then 1 else 0
  {
    hide Gap, WithProposal, QuorumCommit, FlagsFor, Announced;
  }

  /** What a quorum commit announces is what it newly accepts, but for holes. */
  lemma NewlyAccepted(st: PaxosState, t: nat)
    requires Tidy(st)
    ensures t in QuorumCommit(st).1 ==> HasAccepted(QuorumCommit(st).0, t)
    ensures HasAccepted(QuorumCommit(st).0, t) ==> HasAccepted(st, t) || t in QuorumCommit(st).1
  {
    var hq := HighestQuorum(st.pending, |st.pending|);
    if hq.Some? {
      CommitAnnounces(st, hq.value);
    }
    hide CommittedUpTo, HighestQuorum;
  }

  lemma PreparedAnnounces(c: Plan, r: nat, rec: ProposalRecord)
    requires ValidPlan(c)
    ensures var t := rec.proposalId;
      rec in Prepared(c, After(c, r), r).0.records
      <==> rec in After(c, r).records
           || (t !in After(c, r).committed && Concludes(c, r, t)
               && rec == Record(t, c.preparedAt(t), c.preparedAt(r), Committed))
  {
    hide After, Prepared, QuorumCommit, Concludes, AllEarned, Announced, WithProposal, Booked, Tidy;
    var sys, i, t := After(c, r), r % c.n, rec.proposalId;
    ReachableOk(c, r);
    ReachableBooks(c, r);
    ProposeOk(c, sys, r);
    PreparedOk(c, sys, r);
    PreparedStates(c, sys, r);
    PreparedLedger(c, sys, r);
    PreparedAccepts(c, r, t);
    var st := WithProposal(sys, c.n, c.proposals, i);
    var sys', newly := Prepared(c, sys, r).0, QuorumCommit(st).1;
    assert NodeOk(c.n, sys'.states[i], i, r + 1, sys'.termCounter);
    forall k | 0 <= k < |newly| ensures newly[k] in sys'.starts {
      NewlyAccepted(st, newly[k]);
    }
    NewlyAccepted(st, t);
    AnnouncedRecords(sys.committed, sys.records, newly, sys'.starts, c.preparedAt(r), rec);
    assert t !in sys.committed ==> !HasAccepted(sys.states[i], t);
    assert HasAccepted(st, t) <==> HasAccepted(sys.states[i], t) by {
      SameAcceptance(sys, c.n, c.proposals, i);
    }
    hide NodeOk;
  }

  lemma SameAcceptance(sys: Sys, n: nat, proposals: nat, i: nat)
    requires i < |sys.states|
    ensures WithProposal(sys, n, proposals, i).lastAccepted == sys.states[i].lastAccepted
  {
  }

  /** What a round adds to the records. */
  lemma RoundRecords(c: Plan, r: nat, rec: ProposalRecord)
    requires ValidPlan(c)
    ensures var t := rec.proposalId;
      rec in After(c, r + 1).records
      <==> rec in After(c, r).records
           || (t !in After(c, r).committed && Concludes(c, r, t)
               && rec == Record(t, c.preparedAt(t), c.preparedAt(r), Committed))
  {
    hide Prepared, RoundOf, AllOk, BooksOk, Concludes;
    ReachableOk(c, r);
    ReachableBooks(c, r);
    RoundBooks(c, After(c, r), r);
    PreparedAnnounces(c, r, rec);
  }

  /**
    Under any loss the records are exactly these: for every term that some initiator has
    concluded, one, from the preparation of its own round to that of the first such initiator.
   */
  lemma {:induction false} RecordsExactly(c: Plan, r: nat, rec: ProposalRecord)
    requires ValidPlan(c)
    ensures var t := rec.proposalId;
      rec in After(c, r).records <==>
        exists q: nat :: q < r && FirstConcludes(c, q, t)
          && rec == Record(t, c.preparedAt(t), c.preparedAt(q), Committed)
  {
    hide After, Concludes;
    if r > 0 {
      RecordsExactly(c, r - 1, rec);
      RoundRecords(c, r - 1, rec);
      CommittedIsConcluded(c, r - 1, rec.proposalId);
      assert FirstConcludes(c, r - 1, rec.proposalId)
        <==> Concludes(c, r - 1, rec.proposalId) && rec.proposalId !in After(c, r - 1).committed;
    } else {
      NothingAtStart(c);
    }
  }

  // ---------------------------------------------------------------- what a node has seen

  predicate SeenUpTo(st: PaxosState, u: nat) {
    st.highestSeen.Some? && st.highestSeen.value >= u
  }

  /** The term the packet of round `r` is about: its own, or the last one. */
  function TermAt(c: Plan, r: nat): nat {
    if r < c.proposals then r else if c.proposals == 0 then 0 else c.proposals - 1
  }

  lemma ReceivedSeen(st: PaxosState, i: nat, n: nat, pkt: Packet, u: nat)
    requires u > 0 && Tidy(st)
    ensures SeenUpTo(Received(st, i, n, pkt), u) <==> SeenUpTo(st, u) || u <= pkt.currentTerm
    ensures SeenUpTo(QuorumCommit(st).0, u) <==> SeenUpTo(st, u)
  {
    if pkt.lastAccepted.Some? {
      CommitRangeTidy(st, 0, pkt.lastAccepted.value);
    }
    var hq := HighestQuorum(st.pending, |st.pending|);
    if hq.Some? {
      CommitRangeTidy(st, 0, hq.value);
    }
    hide CommittedUpTo, MergedVotes, HighestQuorum;
  }

  /** The highest term a node has seen, if above 0, is the highest of the rounds it took part in. */
  lemma {:induction false} SeenExactly(c: Plan, r: nat, j: nat, u: nat)
    requires ValidPlan(c) && j < c.n && u > 0
    ensures SeenUpTo(After(c, r).states[j], u) <==> exists q: nat :: q < r && j in c.parts(q) && u <= TermAt(c, q)
  {
    hide RoundOf, TermAt, SeenUpTo;
    if r > 0 {
      SeenExactly(c, r - 1, j, u);
      hide After;
      RoundSeen(c, r - 1, j, u);
    } else {
      NothingAtStart(c);
      FreshUnseen(u);
    }
  }

  lemma FreshUnseen(u: nat)
    ensures !SeenUpTo(FRESH, u)
  {
  }

  lemma RoundSeen(c: Plan, r: nat, j: nat, u: nat)
    requires ValidPlan(c) && j < c.n && u > 0
    ensures SeenUpTo(After(c, r + 1).states[j], u)
      <==> SeenUpTo(After(c, r).states[j], u) || (j in c.parts(r) && u <= TermAt(c, r))
  {
    hide After, Prepared, Received, Tidy, QuorumCommit, NodeOk, PacketOk, SeenUpTo, WithProposal;
    RoundFacts(c, r);
    RoundOfNode(c, r, j);
    var (sys, pkt) := Prepared(c, After(c, r), r);
    TidyNode(c, sys, r + 1, j);
    ReceivedSeen(sys.states[j], j, c.n, pkt, u);
    PreparedStates(c, After(c, r), r);
    if j == r % c.n {
      ProposalUnseen(c, After(c, r), r);
      ReceivedSeen(WithProposal(After(c, r), c.n, c.proposals, j), j, c.n, pkt, u);
    }
  }

  lemma ProposalUnseen(c: Plan, sys: Sys, r: nat)
    requires ValidPlan(c) && AllOk(c, sys, r)
    ensures var st := WithProposal(sys, c.n, c.proposals, r % c.n);
      Tidy(st) && forall u: nat :: SeenUpTo(st, u) <==> SeenUpTo(sys.states[r % c.n], u)
  {
    ProposeOk(c, sys, r);
  }

  // ---------------------------------------------------------------- which term is asked for, and who supplies it

  lemma {:induction false} FirstIsLeast(st: PaxosState, t: nat, upTo: nat)
    ensures var gap := GapFrom(st, t, upTo);
      if gap.Some? then t <= gap.value < upTo && !KnowsTerm(st, gap.value)
                        && forall u: nat :: t <= u < gap.value ==> KnowsTerm(st, u)
      else forall u: nat :: t <= u < upTo ==> KnowsTerm(st, u)
    decreases upTo - t
  {
    hide InLog, IsPending;
    if t < upTo {
      FirstIsLeast(st, t + 1, upTo);
    }
  }

  /** A term proposed before round `r` that its initiator has not accepted and has not been told about. */
  ghost predicate Misses(c: Plan, r: nat, t: nat)
    requires c.n > 0
  {
    t < r && t < c.proposals && !HasAccepted(After(c, r).states[r % c.n], t) && !Told(c, r % c.n, t, r)
  }

  /** The initiator asks for the least term it misses; a request for term 0 is no request. */
  lemma AsksExactly(c: Plan, r: nat)
    requires ValidPlan(c)
    ensures var nack := Sent(c, r).nack;
      if exists t: nat :: Misses(c, r, t) then Misses(c, r, nack) && forall t: nat :: Misses(c, r, t) ==> nack <= t
      else nack == 0
  {
    hide After, Prepared, Told, KnowsTerm, NodeOk;
    var sys, i := After(c, r), r % c.n;
    ReachableOk(c, r);
    PreparedStates(c, sys, r);
    var st := sys.states[i];
    FirstIsLeast(st, if st.lastAccepted.Some? then st.lastAccepted.value + 1 else 0, sys.termCounter);
    forall t: nat
      ensures Misses(c, r, t) <==> t < sys.termCounter && !HasAccepted(st, t) && !KnowsTerm(st, t)
    {
      KnowsExactly(c, r, i, t);
    }
  }

  lemma SupplyExists(st: PaxosState, t: nat)
    ensures Supply(st, t).Some? <==> KnowsTerm(st, t)
  {
  }

  /** A participant can supply the term asked for exactly if it has been told about it before. */
  lemma SuppliesIfTold(c: Plan, r: nat, i: nat)
    requires ValidPlan(c) && i < c.n && Sent(c, r).nack > 0
    ensures var (sys, pkt) := Prepared(c, After(c, r), r);
      CanSupply(c, sys, r, pkt, i) <==> i in c.parts(r) && Told(c, i, pkt.nack, r)
  {
    hide After, Prepared, Told, KnowsTerm, Supply, Absorbed, Tidy, NodeOk, PacketOk;
    RoundFacts(c, r);
    AsksExactly(c, r);
    var (sys, pkt) := Prepared(c, After(c, r), r);
    TidyNode(c, sys, r + 1, i);
    SupplyExists(Absorbed(sys.states[i], i, c.n, pkt), pkt.nack);
    AbsorbedKnows(sys.states[i], i, c.n, pkt, pkt.nack);
    PreparingKnows(c, After(c, r), r, i, pkt.nack);
    KnowsExactly(c, r, i, pkt.nack);
  }

  lemma PendingKept(c: Plan, r: nat)
    requires c.n > 0
    ensures var (sys, pkt) := Prepared(c, After(c, r), r);
      var sys' := ProcessUpTo(c, sys, r, pkt, c.n);
      After(c, r + 1).pbTerm == sys'.pbTerm && After(c, r + 1).pbData == sys'.pbData
  {
    hide Prepared, ProcessUpTo, ShouldStop;
  }

  /**
    Under any loss: round `r + 1` piggybacks a term exactly if round `r` asks for it and some
    participant of round `r` has been told about it, and then with the datum proposed for it.
   */
  lemma SuppliesExactly(c: Plan, r: nat, t: nat)
    requires ValidPlan(c)
    ensures After(c, r + 1).pbTerm == Some(t)
      <==> t > 0 && t == Sent(c, r).nack && exists i: nat :: i < c.n && i in c.parts(r) && Told(c, i, t, r)
    ensures After(c, r + 1).pbTerm == Some(t) ==> After(c, r + 1).pbData == Tx(t)
    ensures After(c, r + 1).pbTerm == None ==> After(c, r + 1).pbData == Empty
  {
    hide After, Prepared, Told, CanSupply, ProcessUpTo, AllOk, PacketOk;
    RoundFacts(c, r);
    var (sys, pkt) := Prepared(c, After(c, r), r);
    NackAnswered(c, sys, r, pkt, c.n);
    PendingKept(c, r);
    if pkt.nack > 0 {
      forall i: nat | i < c.n ensures CanSupply(c, sys, r, pkt, i) <==> i in c.parts(r) && Told(c, i, pkt.nack, r) {
        SuppliesIfTold(c, r, i);
      }
    } else {
      forall i: nat | i < c.n ensures !CanSupply(c, sys, r, pkt, i) {
        NobodyAsked(c, sys, r, pkt, i);
      }
    }
  }

  lemma NobodyAsked(c: Plan, sys: Sys, r: nat, pkt: Packet, i: nat)
    requires |sys.states| == c.n && i < c.n && pkt.nack == 0
    ensures !CanSupply(c, sys, r, pkt, i)
  {
  }
}
