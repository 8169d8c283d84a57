/**
  What every Paxos pipeline run keeps, under any loss: orderly books at every
  node, and no commit before enough initiators have had their turn.
 */
module PaxosSafety {
  import opened Bitmaps
  import opened Messages
  import opened Metrics
  import opened Ledger
  import opened Network
  import opened Rotation
  import opened PaxosNode
  import opened PaxosRun

  // ---------------------------------------------------------------- votes

  /** Votes of node `i` for a term come from its own hand or from initiators of the rounds since. */
  ghost predicate VotesEarned(n: nat, p: Pending, i: nat, r: nat)
    requires n > 0
  {
    |p.bits| == n && Voters(p.bits) <= Inits(n, p.term, r) + {i}
  }

  ghost predicate AllEarned(n: nat, pending: seq<Pending>, i: nat, r: nat)
    requires n > 0
  {
    forall k :: 0 <= k < |pending| ==> VotesEarned(n, pending[k], i, r)
  }

  /** Term `t` may be committed by round `r`. */
  predicate Ripe(n: nat, t: nat, r: int) {
    t + n / 2 <= r
  }

  /** A majority for term `t` in the hands of round `r`'s initiator needs round `t + n / 2` at least. */
  lemma MajorityIsRipe(n: nat, p: Pending, i: nat, r: nat)
    requires n >= 2 && i == r % n && VotesEarned(n, p, i, r) && HasMajority(p.bits)
    ensures Ripe(n, p.term, r)
  {
    var voters, t := Voters(p.bits), p.term;
    VotersCounted(p.bits);
    InitsSize(n, t, r + 1);
    NoInitsYet(n, t, r);
    var holders := if t <= r then Inits(n, t, r + 1) else {i};
    hide Voters, Inits;
    assert voters <= holders;
    SubsetSize(voters, holders);
  }

  lemma {:induction false} HighestQuorumIsReached(pending: seq<Pending>, k: nat)
    requires k <= |pending|
    ensures HighestQuorum(pending, k).Some? ==>
      exists j :: 0 <= j < k && pending[j].term == HighestQuorum(pending, k).value
                  && QuorumReached(pending, pending[j].term)
  {
    if k > 0 {
      HighestQuorumIsReached(pending, k - 1);
    }
  }

  lemma CommitKeepsEarned(n: nat, st: PaxosState, upTo: nat, i: nat, r: nat)
    requires n > 0 && Tidy(st) && AllEarned(n, st.pending, i, r)
    ensures AllEarned(n, CommittedUpTo(st, upTo).0.pending, i, r)
  {
    CommitRangeTidy(st, 0, upTo);
    var pending := CommittedUpTo(st, upTo).0.pending;
    forall k | 0 <= k < |pending| ensures VotesEarned(n, pending[k], i, r) {
      assert pending[k] in st.pending;
    }
  }

  // ---------------------------------------------------------------- one node

  /** Node `i` after `r` rounds: tidy, its votes earned, nothing accepted too early, no term from the future. */
  ghost predicate NodeOk(n: nat, st: PaxosState, i: nat, r: nat, terms: nat)
    requires n > 0
  {
    && Tidy(st)
    && AllEarned(n, st.pending, i, r)
    && (st.lastAccepted.Some? ==> Ripe(n, st.lastAccepted.value, r - 1) && st.lastAccepted.value < terms)
    && (forall k :: 0 <= k < |st.pending| ==> st.pending[k].term < terms)
  }

  /** A packet of round `r`. */
  ghost predicate PacketOk(n: nat, pkt: Packet, r: nat, terms: nat)
    requires n > 0
  {
    && |pkt.bits| == n && Voters(pkt.bits) <= Inits(n, pkt.currentTerm, r + 1)
    && (pkt.data != Empty ==> pkt.data == Tx(pkt.currentTerm) && pkt.currentTerm < terms)
    && (pkt.lastAccepted.Some? ==> Ripe(n, pkt.lastAccepted.value, r) && pkt.lastAccepted.value < terms)
    && (pkt.pbTerm.Some? ==> pkt.pbData == Tx(pkt.pbTerm.value) && pkt.pbTerm.value < terms)
    && (pkt.nack > 0 ==> pkt.nack < terms)
  }

  lemma LaterRound(n: nat, st: PaxosState, i: nat, r: nat, terms: nat, terms': nat)
    requires n > 0 && NodeOk(n, st, i, r, terms) && terms <= terms'
    ensures NodeOk(n, st, i, r + 1, terms')
  {
    forall k | 0 <= k < |st.pending| ensures VotesEarned(n, st.pending[k], i, r + 1) {
      InitsGrow(n, st.pending[k].term, st.pending[k].term, r, r + 1);
    }
  }

  lemma OrVoters(a: seq<bool>, b: seq<bool>)
    ensures Voters(OrBits(a, b, |b|)) <= Voters(a) + Voters(b)
  {
  }

  lemma OneVoter(n: nat, i: nat)
    ensures Voters(OneBit(n, i)) <= {i}
  {
  }

  /** Votes carried by a packet, or cast by the node itself, are earned by the end of the round. */
  lemma MergeEarned(n: nat, pending: seq<Pending>, i: nat, r: nat, t: nat, bits: seq<bool>)
    requires n > 0 && AllEarned(n, pending, i, r + 1)
    requires |bits| == n && Voters(bits) <= Inits(n, t, r + 1) + {i}
    ensures AllEarned(n, MergedVotes(pending, t, bits), i, r + 1)
  {
    var merged := MergedVotes(pending, t, bits);
    forall k | 0 <= k < |merged| ensures VotesEarned(n, merged[k], i, r + 1) {
      assert VotesEarned(n, pending[k], i, r + 1);
      if pending[k].term <= t {
        OrVoters(pending[k].bits, bits);
        InitsGrow(n, pending[k].term, t, r + 1, r + 1);
      }
    }
  }

  lemma MergeTidy(st: PaxosState, t: nat, bits: seq<bool>)
    requires Tidy(st)
    ensures Tidy(st.(pending := MergedVotes(st.pending, t, bits)))
  {
    SameProposalsTidy(st, st.(pending := MergedVotes(st.pending, t, bits)));
  }

  lemma TakeOk(n: nat, st: PaxosState, i: nat, r: nat, terms: nat, t: nat, bits: seq<bool>)
    requires n > 0 && NodeOk(n, st, i, r, terms) && t < terms
    requires |bits| == n && Voters(bits) <= Inits(n, t, r) + {i}
    ensures NodeOk(n, TakeProposal(st, t, Tx(t), bits), i, r, terms)
  {
    hide InLog, Voters, Inits, Ripe;
    TakeTidy(st, t, bits);
    hide Tidy;
  }

  lemma TakeTidy(st: PaxosState, t: nat, bits: seq<bool>)
    requires Tidy(st)
    ensures Tidy(TakeProposal(st, t, Tx(t), bits))
  {
    if !IsPending(st.pending, t) && !InLog(st.log, t) {
      NewProposalTidy(st, t, bits);
    }
  }

  lemma CommitOk(n: nat, st: PaxosState, i: nat, r: nat, terms: nat, upTo: nat)
    requires n > 0 && NodeOk(n, st, i, r, terms) && Ripe(n, upTo, r - 1) && upTo < terms
    ensures NodeOk(n, CommittedUpTo(st, upTo).0, i, r, terms)
  {
    CommitKeepsEarned(n, st, upTo, i, r);
    CommitRangeTidy(st, 0, upTo);
    var pending := CommittedUpTo(st, upTo).0.pending;
    forall k | 0 <= k < |pending| ensures pending[k].term < terms {
      assert pending[k] in st.pending;
    }
  }

  /** A participant that is in order before the round's packet is in order after it. */
  lemma ReceiveOk(n: nat, st: PaxosState, i: nat, r: nat, terms: nat, pkt: Packet)
    requires n > 0 && i < n && NodeOk(n, st, i, r + 1, terms) && PacketOk(n, pkt, r, terms)
    ensures NodeOk(n, Absorbed(st, i, n, pkt), i, r + 1, terms)
    ensures NodeOk(n, Received(st, i, n, pkt), i, r + 1, terms)
  {
    hide Tidy, AllEarned, CommittedUpTo, MergedVotes;
    if pkt.lastAccepted.Some? {
      CommitOk(n, st, i, r + 1, terms, pkt.lastAccepted.value);
    }
    var st1 := NoteTerm(LearnCommits(st, pkt).0, pkt.currentTerm);
    NoteOk(n, LearnCommits(st, pkt).0, i, r + 1, terms, pkt.currentTerm);
    var st2 := if pkt.data != Empty then TakeProposal(st1, pkt.currentTerm, pkt.data, pkt.bits) else st1;
    if pkt.data != Empty {
      TakeOk(n, st1, i, r + 1, terms, pkt.currentTerm, pkt.bits);
    }
    OneVoter(n, i);
    MergeOk(n, st2, i, r, terms, pkt.currentTerm, pkt.bits);
    var st2' := st2.(pending := MergedVotes(st2.pending, pkt.currentTerm, pkt.bits));
    MergeOk(n, st2', i, r, terms, pkt.currentTerm, OneBit(n, i));
    if pkt.pbTerm.Some? {
      TakeOk(n, Absorbed(st, i, n, pkt), i, r + 1, terms, pkt.pbTerm.value, OneBit(n, i));
    }
  }

  lemma NoteOk(n: nat, st: PaxosState, i: nat, r: nat, terms: nat, t: nat)
    requires n > 0 && NodeOk(n, st, i, r, terms)
    ensures NodeOk(n, NoteTerm(st, t), i, r, terms)
  {
    SameProposalsTidy(st, NoteTerm(st, t));
    hide Tidy, VotesEarned, Ripe;
  }

  lemma MergeOk(n: nat, st: PaxosState, i: nat, r: nat, terms: nat, t: nat, bits: seq<bool>)
    requires n > 0 && NodeOk(n, st, i, r + 1, terms)
    requires |bits| == n && Voters(bits) <= Inits(n, t, r + 1) + {i}
    ensures NodeOk(n, st.(pending := MergedVotes(st.pending, t, bits)), i, r + 1, terms)
  {
    MergeEarned(n, st.pending, i, r, t, bits);
    MergeTidy(st, t, bits);
  }

  // ---------------------------------------------------------------- the whole system

  ghost predicate AllOk(c: Plan, sys: Sys, r: nat)
    requires c.n > 0
  {
    && |sys.states| == c.n
    && (forall i :: 0 <= i < c.n ==> NodeOk(c.n, sys.states[i], i, r, sys.termCounter))
    && (sys.pbTerm.Some? ==> sys.pbData == Tx(sys.pbTerm.value) && sys.pbTerm.value < sys.termCounter)
    && sys.generated == sys.termCounter
    && sys.termCounter == if r < c.proposals then r else c.proposals
  }

  lemma {:induction false} GapIsMissing(st: PaxosState, t: nat, upTo: nat)
    ensures GapFrom(st, t, upTo).Some? ==> t <= GapFrom(st, t, upTo).value < upTo
    decreases upTo - t
  {
    if t < upTo && !(!InLog(st.log, t) && !IsPending(st.pending, t)) {
      GapIsMissing(st, t + 1, upTo);
    }
  }

  /** Proposing keeps the initiator in order: its new term is new everywhere. */
  lemma ProposeOk(c: Plan, sys: Sys, r: nat)
    requires ValidPlan(c) && AllOk(c, sys, r)
    ensures var i := r % c.n;
      NodeOk(c.n, WithProposal(sys, c.n, c.proposals, i), i, r + 1,
             sys.termCounter + if sys.generated < c.proposals then 1 else 0)
  {
    var i, terms := r % c.n, sys.termCounter;
    var st := sys.states[i];
    assert NodeOk(c.n, st, i, r, terms);
    if sys.generated < c.proposals {
      LaterRound(c.n, st, i, r, terms, terms + 1);
      OneVoter(c.n, i);
      if InLog(st.log, terms) {
        LoggedIsAccepted(st, terms);
      }
      NewTermOk(c.n, st, i, r + 1, terms);
    } else {
      LaterRound(c.n, st, i, r, terms, terms);
    }
  }

  lemma NewTermOk(n: nat, st: PaxosState, i: nat, r: nat, terms: nat)
    requires n > 0 && NodeOk(n, st, i, r, terms + 1) && !InLog(st.log, terms)
    requires forall k :: 0 <= k < |st.pending| ==> st.pending[k].term < terms
    ensures NodeOk(n, st.(pending := st.pending + [Pending(terms, Tx(terms), OneBit(n, i))]), i, r, terms + 1)
  {
    OneVoter(n, i);
    assert !IsPending(st.pending, terms);
    NewProposalTidy(st, terms, OneBit(n, i));
    hide Tidy;
  }

  /** The initiator's quorum commit: what it commits is ripe. */
  lemma QuorumCommitOk(n: nat, st: PaxosState, i: nat, r: nat, terms: nat)
    requires n >= 2 && i == r % n && NodeOk(n, st, i, r + 1, terms)
    requires forall k :: 0 <= k < |st.pending| ==> VotesEarned(n, st.pending[k], i, r)
    ensures var hq := HighestQuorum(st.pending, |st.pending|);
      hq.Some? ==> Ripe(n, hq.value, r) && hq.value < terms
    ensures NodeOk(n, QuorumCommit(st).0, i, r + 1, terms)
  {
    var hq := HighestQuorum(st.pending, |st.pending|);
    HighestQuorumIsReached(st.pending, |st.pending|);
    if hq.Some? {
      var pos := Position(st.pending, hq.value).value;
      MajorityIsRipe(n, st.pending[pos], i, r);
      CommitOk(n, st, i, r + 1, terms, hq.value);
    }
  }

  lemma ProposalEarned(c: Plan, sys: Sys, r: nat)
    requires ValidPlan(c) && AllOk(c, sys, r)
    ensures AllEarned(c.n, WithProposal(sys, c.n, c.proposals, r % c.n).pending, r % c.n, r)
  {
    assert NodeOk(c.n, sys.states[r % c.n], r % c.n, r, sys.termCounter);
    OneVoter(c.n, r % c.n);
  }

  lemma FlagsOk(n: nat, st: PaxosState, t: nat, i: nat, r: nat)
    requires n > 0 && i == r % n && t <= r && AllEarned(n, st.pending, i, r + 1)
    ensures |FlagsFor(st, n, t, i)| == n
    ensures Voters(FlagsFor(st, n, t, i)) <= Inits(n, t, r + 1)
  {
    NoInitsYet(n, t, r);
    var pos := Position(st.pending, t);
    if pos.Some? {
      assert VotesEarned(n, st.pending[pos.value], i, r + 1);
    }
  }

  /** A round's preparation keeps every node in order and sends an honest packet. */
  lemma PreparedOk(c: Plan, sys: Sys, r: nat)
    requires ValidPlan(c) && AllOk(c, sys, r)
    ensures AllOk(c, Prepared(c, sys, r).0, r + 1)
    ensures PacketOk(c.n, Prepared(c, sys, r).1, r, Prepared(c, sys, r).0.termCounter)
    ensures Prepared(c, sys, r).1.currentTerm <= r
  {
    hide Tidy, QuorumCommit, Inits, Voters, Ripe, GapFrom, FlagsFor, WithProposal, Announced, AllEarned;
    var (sys', pkt) := Prepared(c, sys, r);
    var i, terms := r % c.n, sys'.termCounter;
    var st := WithProposal(sys, c.n, c.proposals, i);
    ProposeOk(c, sys, r);
    ProposalEarned(c, sys, r);
    QuorumCommitOk(c.n, st, i, r, terms);
    var st' := QuorumCommit(st).0;
    assert NodeOk(c.n, st', i, r + 1, terms);
    FlagsOk(c.n, st', pkt.currentTerm, i, r);
    OthersOk(c, sys, r, terms);
    GapIsMissing(sys.states[i], if sys.states[i].lastAccepted.Some? then sys.states[i].lastAccepted.value + 1 else 0,
                 sys.termCounter);
  }

  lemma OthersOk(c: Plan, sys: Sys, r: nat, terms: nat)
    requires ValidPlan(c) && AllOk(c, sys, r) && sys.termCounter <= terms
    ensures forall j :: 0 <= j < c.n ==> NodeOk(c.n, sys.states[j], j, r + 1, terms)
  {
    forall j | 0 <= j < c.n ensures NodeOk(c.n, sys.states[j], j, r + 1, terms) {
      LaterRound(c.n, sys.states[j], j, r, sys.termCounter, terms);
    }
  }

  lemma {:induction false} LogDataIs(log: seq<(nat, Data)>, t: nat)
    requires InLog(log, t) && forall i :: 0 <= i < |log| ==> log[i].1 == Tx(log[i].0)
    ensures LogData(log, t) == Tx(t)
  {
    if log[0].0 != t {
      assert forall i :: 0 < i < |log| ==> log[i] == log[1..][i - 1];
      LogDataIs(log[1..], t);
    }
  }

  /** Whoever can supply a missing term supplies the datum proposed for it. */
  lemma SupplyIs(st: PaxosState, t: nat)
    requires Tidy(st) && Supply(st, t).Some?
    ensures Supply(st, t).value == Tx(t)
  {
    if InLog(st.log, t) {
      LogDataIs(st.log, t);
    }
  }

  lemma ProcessNodeOk(c: Plan, sys: Sys, r: nat, pkt: Packet, i: nat)
    requires ValidPlan(c) && AllOk(c, sys, r + 1) && PacketOk(c.n, pkt, r, sys.termCounter) && i < c.n
    ensures AllOk(c, ProcessNode(c, sys, r, pkt, i), r + 1)
    ensures ProcessNode(c, sys, r, pkt, i).termCounter == sys.termCounter
  {
    var st := sys.states[i];
    assert NodeOk(c.n, st, i, r + 1, sys.termCounter);
    ReceiveOk(c.n, st, i, r, sys.termCounter, pkt);
    if pkt.nack > 0 && Supply(Absorbed(st, i, c.n, pkt), pkt.nack).Some? {
      assert Tidy(Absorbed(st, i, c.n, pkt)) by {
        hide Absorbed, Received, Tidy;
      }
      SupplyIs(Absorbed(st, i, c.n, pkt), pkt.nack);
    }
    hide Absorbed, Received, Supply, NodeOk, LearnCommits, Announced;
  }

  lemma {:induction false} ProcessUpToOk(c: Plan, sys: Sys, r: nat, pkt: Packet, k: nat)
    requires ValidPlan(c) && AllOk(c, sys, r + 1) && PacketOk(c.n, pkt, r, sys.termCounter) && k <= c.n
    ensures AllOk(c, ProcessUpTo(c, sys, r, pkt, k), r + 1)
    ensures ProcessUpTo(c, sys, r, pkt, k).termCounter == sys.termCounter
  {
    hide PacketOk, NodeOk, ProcessNode;
    if k > 0 {
      ProcessUpToOk(c, sys, r, pkt, k - 1);
      ProcessNodeOk(c, ProcessUpTo(c, sys, r, pkt, k - 1), r, pkt, k - 1);
    }
  }

  /** The inductive invariant of a Paxos pipeline run, under any loss. */
  lemma {:induction false} ReachableOk(c: Plan, r: nat)
    requires ValidPlan(c)
    ensures AllOk(c, After(c, r), r)
  {
    hide Prepared, ProcessUpTo, ShouldStop, PacketOk;
    if r > 0 {
      ReachableOk(c, r - 1);
      var sys := After(c, r - 1);
      PreparedOk(c, sys, r - 1);
      var (sys', pkt) := Prepared(c, sys, r - 1);
      ProcessUpToOk(c, sys', r - 1, pkt, c.n);
      hide NodeOk;
    }
  }

  // ---------------------------------------------------------------- the global books

  /** Some node has accepted term `t`. */
  ghost predicate AcceptedSomewhere(sys: Sys, t: nat) {
    exists i :: 0 <= i < |sys.states| && HasAccepted(sys.states[i], t)
  }

  predicate HasAccepted(st: PaxosState, t: nat) {
    st.lastAccepted.Some? && t <= st.lastAccepted.value
  }

  /** A committed term's record: opened in the round of the term, closed by the preparation of a ripe round. */
  ghost predicate RecordOk(c: Plan, rec: ProposalRecord, r: nat) {
    exists q: nat :: q < r && Ripe(c.n, rec.proposalId, q) && rec.proposalId < c.proposals
      && rec == Record(rec.proposalId, c.preparedAt(rec.proposalId), c.preparedAt(q), Committed)
  }

  /** Each committed term has exactly one record, and every record is in order. */
  ghost predicate Booked(c: Plan, committed: set<nat>, records: seq<ProposalRecord>, r: nat) {
    OneEach(committed, records) && forall k :: 0 <= k < |records| ==> RecordOk(c, records[k], r)
  }

  ghost predicate BooksOk(c: Plan, sys: Sys, r: nat) {
    && (forall t: nat :: t in sys.committed <==> AcceptedSomewhere(sys, t))
    && Booked(c, sys.committed, sys.records, r)
    && (forall t: nat :: t in sys.starts <==> t < sys.termCounter)
    && (forall t: nat :: t in sys.starts ==> sys.starts[t] == c.preparedAt(t))
  }

  /** Announcing ripe terms in the preparation of round `r` keeps the books. */
  lemma AnnouncedBooks(c: Plan, committed: set<nat>, records: seq<ProposalRecord>, newly: seq<nat>,
                       starts: map<nat, nat>, r: nat)
    requires Booked(c, committed, records, r + 1)
    requires forall t: nat :: t in newly ==>
      Ripe(c.n, t, r) && t < c.proposals && t in starts && starts[t] == c.preparedAt(t)
    ensures var (cs, rs) := Announced(committed, records, newly, starts, c.preparedAt(r));
      Booked(c, cs, rs, r + 1) && forall t: nat :: t in cs <==> t in committed || t in newly
  {
    AnnouncedOneEach(committed, records, newly, starts, c.preparedAt(r));
    var rs := Announced(committed, records, newly, starts, c.preparedAt(r)).1;
    hide OneEach, Announced, Ripe;
    forall k | 0 <= k < |rs| ensures RecordOk(c, rs[k], r + 1) {
    }
  }

  /** Committing up to `upTo` announces what it newly accepts, and what it had accepted without the datum. */
  lemma CommitAnnounces(st: PaxosState, upTo: nat)
    requires Tidy(st)
    ensures var (st', newly) := CommittedUpTo(st, upTo);
      && (forall t: nat :: HasAccepted(st', t) <==> HasAccepted(st, t) || t <= upTo)
      && (forall t: nat :: t in newly ==> t <= upTo)
      && (forall t: nat :: HasAccepted(st', t) <==> HasAccepted(st, t) || t in newly)
  {
    CommitRangeTidy(st, 0, upTo);
    forall t: nat ensures InLog(st.log, t) ==> HasAccepted(st, t) {
      if InLog(st.log, t) {
        LoggedIsAccepted(st, t);
      }
    }
  }

  lemma MoreTime(c: Plan, committed: set<nat>, records: seq<ProposalRecord>, r: nat)
    requires Booked(c, committed, records, r)
    ensures Booked(c, committed, records, r + 1)
  {
    forall k | 0 <= k < |records| ensures RecordOk(c, records[k], r + 1) {
      assert RecordOk(c, records[k], r);
    }
  }

  lemma PreparedBooks(c: Plan, sys: Sys, r: nat)
    requires ValidPlan(c) && AllOk(c, sys, r) && BooksOk(c, sys, r)
    ensures BooksOk(c, Prepared(c, sys, r).0, r + 1)
  {
    hide Tidy, Booked, Inits, Voters, GapFrom, FlagsFor, Announced, CommittedUpTo, HighestQuorum;
    var sys' := Prepared(c, sys, r).0;
    var i := r % c.n;
    var st := WithProposal(sys, c.n, c.proposals, i);
    ProposeOk(c, sys, r);
    ProposalEarned(c, sys, r);
    QuorumCommitOk(c.n, st, i, r, sys'.termCounter);
    var (st', newly) := QuorumCommit(st);
    var hq := HighestQuorum(st.pending, |st.pending|);
    if hq.Some? {
      CommitAnnounces(st, hq.value);
    }
    MoreTime(c, sys.committed, sys.records, r);
    AnnouncedBooks(c, sys.committed, sys.records, newly, sys'.starts, r);
    AcceptedThere(sys, sys', i, newly);
  }

  lemma AcceptedThere(sys: Sys, sys': Sys, i: nat, newly: seq<nat>)
    requires i < |sys.states| && |sys'.states| == |sys.states| && sys'.states == sys.states[i := sys'.states[i]]
    requires forall t: nat :: HasAccepted(sys'.states[i], t) <==> HasAccepted(sys.states[i], t) || t in newly
    ensures forall t: nat :: AcceptedSomewhere(sys', t) <==> AcceptedSomewhere(sys, t) || t in newly
  {
    forall t: nat ensures AcceptedSomewhere(sys', t) <==> AcceptedSomewhere(sys, t) || t in newly {
      if AcceptedSomewhere(sys', t) {
        var j :| 0 <= j < |sys'.states| && HasAccepted(sys'.states[j], t);
        assert j != i ==> HasAccepted(sys.states[j], t);
      }
      if AcceptedSomewhere(sys, t) {
        var j :| 0 <= j < |sys.states| && HasAccepted(sys.states[j], t);
        assert HasAccepted(sys'.states[j], t);
      }
      if t in newly {
        assert HasAccepted(sys'.states[i], t);
      }
    }
  }

  /** The terms a packet declares accepted are in the global books already. */
  ghost predicate OldNews(sys: Sys, pkt: Packet) {
    pkt.lastAccepted.Some? ==> forall t: nat :: t <= pkt.lastAccepted.value ==> t in sys.committed
  }

  lemma AcceptsNothingElse(st: PaxosState, i: nat, n: nat, pkt: Packet)
    ensures Received(st, i, n, pkt).lastAccepted == LearnCommits(st, pkt).0.lastAccepted
  {
    hide CommittedUpTo, MergedVotes;
  }

  /** Processing a packet records nothing: what it commits is committed globally before. */
  lemma ProcessNodeBooks(c: Plan, sys: Sys, r: nat, pkt: Packet, i: nat)
    requires ValidPlan(c) && AllOk(c, sys, r + 1) && BooksOk(c, sys, r + 1) && i < c.n && OldNews(sys, pkt)
    ensures var sys' := ProcessNode(c, sys, r, pkt, i);
      BooksOk(c, sys', r + 1) && sys'.committed == sys.committed && sys'.records == sys.records
  {
    hide Booked, Absorbed, Supply, CommittedUpTo, Announced, Received, Tidy;
    var st, sys' := sys.states[i], ProcessNode(c, sys, r, pkt, i);
    assert NodeOk(c.n, st, i, r + 1, sys.termCounter);
    var newly := LearnCommits(st, pkt).1;
    if pkt.lastAccepted.Some? {
      CommitAnnounces(st, pkt.lastAccepted.value);
    }
    NothingNew(sys.committed, sys.records, newly, sys.starts, c.processedAt(r));
    AcceptsNothingElse(st, i, c.n, pkt);
    if sys' != sys {
      AcceptedThere(sys, sys', i, newly);
    }
  }

  lemma {:induction false} ProcessUpToBooks(c: Plan, sys: Sys, r: nat, pkt: Packet, k: nat)
    requires ValidPlan(c) && AllOk(c, sys, r + 1) && BooksOk(c, sys, r + 1) && k <= c.n
    requires PacketOk(c.n, pkt, r, sys.termCounter) && OldNews(sys, pkt)
    ensures var sys' := ProcessUpTo(c, sys, r, pkt, k);
      BooksOk(c, sys', r + 1) && sys'.committed == sys.committed && sys'.records == sys.records
  {
    hide PacketOk, NodeOk, ProcessNode, Booked;
    if k > 0 {
      ProcessUpToBooks(c, sys, r, pkt, k - 1);
      ProcessUpToOk(c, sys, r, pkt, k - 1);
      ProcessNodeBooks(c, ProcessUpTo(c, sys, r, pkt, k - 1), r, pkt, k - 1);
    } else {
      var sys' := ProcessUpTo(c, sys, r, pkt, 0);
      assert sys'.states == sys.states;
      assert forall t: nat :: AcceptedSomewhere(sys', t) <==> AcceptedSomewhere(sys, t);
    }
  }

  lemma PacketIsOldNews(c: Plan, sys: Sys, r: nat)
    requires ValidPlan(c) && AllOk(c, sys, r) && BooksOk(c, Prepared(c, sys, r).0, r + 1)
    ensures OldNews(Prepared(c, sys, r).0, Prepared(c, sys, r).1)
  {
    hide Booked, QuorumCommit, Announced, WithProposal, FlagsFor, Gap;
    var (sys', pkt) := Prepared(c, sys, r);
    var i := r % c.n;
    assert pkt.lastAccepted == sys'.states[i].lastAccepted;
    forall t: nat | HasAccepted(sys'.states[i], t) ensures t in sys'.committed {
      assert AcceptedSomewhere(sys', t);
    }
  }

  /**
    The books of every run, under any loss: the globally committed terms are
    exactly those some node has accepted, each recorded once, from the slot its
    round was prepared in to the slot a ripe round was prepared in.
   */
  lemma {:induction false} ReachableBooks(c: Plan, r: nat)
    requires ValidPlan(c)
    ensures BooksOk(c, After(c, r), r)
  {
    hide Prepared, ProcessUpTo, ShouldStop, PacketOk, AllOk, NodeOk, Booked, OldNews;
    if r > 0 {
      ReachableBooks(c, r - 1);
      ReachableOk(c, r - 1);
      RoundBooks(c, After(c, r - 1), r - 1);
    } else {
      StartBooks(c);
    }
  }

  lemma StartBooks(c: Plan)
    requires ValidPlan(c)
    ensures BooksOk(c, Start(c.n), 0)
  {
    assert forall t: nat :: !AcceptedSomewhere(Start(c.n), t);
  }

  /** Only the preparation half of a round ever adds a record. */
  lemma RoundBooks(c: Plan, sys: Sys, r: nat)
    requires ValidPlan(c) && AllOk(c, sys, r) && BooksOk(c, sys, r)
    ensures BooksOk(c, RoundOf(c, sys, r), r + 1)
    ensures RoundOf(c, sys, r).records == Prepared(c, sys, r).0.records
  {
    hide Prepared, ProcessUpTo, ShouldStop, Booked, AllOk, PacketOk, OldNews, AcceptedSomewhere;
    SizeOk(c, sys, r);
    PreparedBooks(c, sys, r);
    PreparedOk(c, sys, r);
    PacketIsOldNews(c, sys, r);
    var (sys1, pkt) := Prepared(c, sys, r);
    ProcessUpToBooks(c, sys1, r, pkt, c.n);
    var sys2 := ProcessUpTo(c, sys1, r, pkt, c.n);
    assert RoundOf(c, sys, r).states == sys2.states;
    SameAccepted(sys2, RoundOf(c, sys, r));
  }

  lemma SizeOk(c: Plan, sys: Sys, r: nat)
    requires c.n > 0 && AllOk(c, sys, r)
    ensures |sys.states| == c.n
  {
  }

  lemma SameAccepted(a: Sys, b: Sys)
    requires a.states == b.states
    ensures forall t: nat :: AcceptedSomewhere(a, t) <==> AcceptedSomewhere(b, t)
  {
  }

  // ---------------------------------------------------------------- what a run guarantees

  /** No node has term `t` in its log, and nobody counts it as committed, before round `t + n / 2` is prepared. */
  lemma NoEarlyCommit(c: Plan, r: nat, i: nat, t: nat)
    requires ValidPlan(c) && i < c.n
    requires InLog(After(c, r).states[i].log, t) || HasAccepted(After(c, r).states[i], t) || t in After(c, r).committed
    ensures t + c.n / 2 < r
  {
    ReachableOk(c, r);
    ReachableBooks(c, r);
    hide After;
    var sys := After(c, r);
    assert NodeOk(c.n, sys.states[i], i, r, sys.termCounter);
    if InLog(sys.states[i].log, t) {
      LoggedIsAccepted(sys.states[i], t);
    } else if t in sys.committed {
      var j :| 0 <= j < |sys.states| && HasAccepted(sys.states[j], t);
      assert NodeOk(c.n, sys.states[j], j, r, sys.termCounter);
    }
  }

  /** Two nodes that know a term, committed or pending, hold the same datum for it. */
  lemma DataAgree(c: Plan, r: nat, i: nat, j: nat, t: nat, a: Data, b: Data)
    requires ValidPlan(c) && i < c.n && j < c.n
    requires Knows(After(c, r).states[i], t, a) && Knows(After(c, r).states[j], t, b)
    ensures a == b == Tx(t)
  {
    ReachableOk(c, r);
    hide After;
    var sys := After(c, r);
    assert NodeOk(c.n, sys.states[i], i, r, sys.termCounter);
    assert NodeOk(c.n, sys.states[j], j, r, sys.termCounter);
  }

  ghost predicate Knows(st: PaxosState, t: nat, d: Data) {
    || (t, d) in st.log
    || exists k :: 0 <= k < |st.pending| && st.pending[k].term == t && st.pending[k].data == d
  }

  /** The globally committed terms are an initial segment, and every one of them is in the records once. */
  lemma CommittedIsASegment(c: Plan, r: nat, t: nat, u: nat)
    requires ValidPlan(c) && u <= t && t in After(c, r).committed
    ensures u in After(c, r).committed
    ensures exists k :: 0 <= k < |After(c, r).records| && After(c, r).records[k].proposalId == u
  {
    ReachableBooks(c, r);
    hide After;
    var sys := After(c, r);
    var j :| 0 <= j < |sys.states| && HasAccepted(sys.states[j], t);
    assert HasAccepted(sys.states[j], u);
    assert AcceptedSomewhere(sys, u);
  }
}
