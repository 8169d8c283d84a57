/** When a run of the Paxos pipeline ends, under any loss. */
module PaxosStops {
  import opened Messages
  import opened Network
  import Metrics
  import opened Ledger
  import opened PaxosNode
  import opened PaxosRun
  import opened PaxosSafety
  import opened PaxosRecovery
  import opened PaxosHolders
  import PaxosOrder

  // ---------------------------------------------------------------- complete logs

  lemma EntryInLog(log: seq<(nat, Data)>, t: nat)
    ensures t in Entries(log) <==> InLog(log, t)
  {
  }

  lemma LogIsFull(c: Plan, r: nat, j: nat)
    requires ValidPlan(c) && j < c.n
    ensures |After(c, r).states[j].log| >= c.proposals
      <==> forall t: nat :: t < c.proposals ==> InLog(After(c, r).states[j].log, t)
  {
    hide After, InLog, AllEarned;
    ReachableOk(c, r);
    var st := After(c, r).states[j];
    assert NodeOk(c.n, st, j, r, After(c, r).termCounter);
    CompleteByLength(st.log, c.proposals);
    forall t: nat ensures t in Entries(st.log) <==> InLog(st.log, t) {
      EntryInLog(st.log, t);
    }
  }

  /** Every node has logged every proposal after `r` rounds. */
  ghost predicate AllLogged(c: Plan, r: nat)
    requires c.n > 0
  {
    forall j: nat, t: nat :: j < c.n && t < c.proposals ==> InLog(After(c, r).states[j].log, t)
  }

  /** Every proposal is committed by somebody after `r` rounds. */
  ghost predicate AllCommitted(c: Plan, r: nat)
    requires c.n > 0
  {
    forall t: nat :: t < c.proposals ==> t in After(c, r).committed
  }

  /** A participant's log is checked term by term, a bystander's by its length: it comes to the same. */
  lemma DoneIsLogged(c: Plan, q: nat, r: nat)
    requires ValidPlan(c) && r == q + 1
    ensures AllDone(c, After(c, r), q) <==> AllLogged(c, r)
  {
    hide After, InLog;
    var states := After(c, r).states;
    forall j: nat | j < c.n
      ensures |states[j].log| >= c.proposals
        <==> forall t: nat :: t < c.proposals ==> InLog(After(c, r).states[j].log, t)
    {
      LogIsFull(c, r, j);
    }
    if AllDone(c, After(c, r), q) {
      forall j: nat, t: nat | j < c.n && t < c.proposals ensures InLog(After(c, r).states[j].log, t) {
        assert NodeDone(c.proposals, states[j], j in c.parts(q));
      }
    }
  }

  lemma CommittedCounted(c: Plan, r: nat)
    requires ValidPlan(c)
    ensures |After(c, r).committed| == c.proposals <==> AllCommitted(c, r)
  {
    hide After;
    ReachableOk(c, r);
    ReachableBooks(c, r);
    var committed := After(c, r).committed;
    forall t | t in committed ensures t < c.proposals {
      var j :| 0 <= j < |After(c, r).states| && HasAccepted(After(c, r).states[j], t);
      assert NodeOk(c.n, After(c, r).states[j], j, r, After(c, r).termCounter);
    }
    assert committed <= Upto(c.proposals);
    UptoSize(c.proposals);
    SubsetSize(committed, Upto(c.proposals));
    if |committed| == c.proposals {
      SubsetIsAll(committed, Upto(c.proposals));
    } else if AllCommitted(c, r) {
      assert Upto(c.proposals) <= committed;
      SubsetSize(Upto(c.proposals), committed);
    }
  }

  // ---------------------------------------------------------------- when a run ends

  lemma {:induction false} FlagKept(c: Plan, sys: Sys, r: nat, pkt: Packet, k: nat)
    requires |sys.states| == c.n > 0 && k <= c.n
    ensures Prepared(c, sys, r).0.stop == sys.stop
    ensures ProcessUpTo(c, sys, r, pkt, k).stop == sys.stop
  {
    hide Received, Absorbed, LearnCommits, Announced, Supply, Gap, WithProposal, QuorumCommit, FlagsFor;
    if k > 0 {
      FlagKept(c, sys, r, pkt, k - 1);
    }
  }

  lemma StopsAfter(c: Plan, r: nat)
    requires ValidPlan(c)
    ensures var sys := After(c, r + 1);
      sys.stop <==>
        || After(c, r).stop || (AllDone(c, sys, r) && r + 1 >= c.proposals)
        || (|sys.committed| == c.proposals && r > c.proposals + c.drain) || r > c.proposals + 1000
  {
    hide Prepared, ProcessUpTo, InLog;
    var (sys, pkt) := Prepared(c, After(c, r), r);
    FlagKept(c, After(c, r), r, pkt, 0);
    FlagKept(c, sys, r, pkt, c.n);
    ReachableOk(c, r + 1);
  }

  /**
    Round `q` ends with all proposals made and every log complete; or with all proposals
    committed by somebody and the drain over; or comes more than 1000 after the last proposal.
   */
  ghost predicate Ends(c: Plan, q: nat)
    requires c.n > 0
  {
    || (AllLogged(c, q + 1) && q + 1 >= c.proposals)
    || (AllCommitted(c, q + 1) && q > c.proposals + c.drain)
    || q > c.proposals + 1000
  }

  /** Under any loss a run asks to stop exactly when some round has ended so. */
  lemma {:induction false} StopsExactly(c: Plan, r: nat)
    requires ValidPlan(c)
    ensures After(c, r).stop <==> exists q: nat :: q < r && Ends(c, q)
  {
    hide After, AllLogged, AllDone, AllCommitted;
    if r > 0 {
      StopsExactly(c, r - 1);
      StopsAfter(c, r - 1);
      DoneIsLogged(c, r - 1, r);
      CommittedCounted(c, r);
      assert Ends(c, r - 1) <==>
          || (AllLogged(c, r) && r >= c.proposals)
          || (AllCommitted(c, r) && r - 1 > c.proposals + c.drain) || r - 1 > c.proposals + 1000;
    } else {
      RunningAtStart(c);
    }
  }

  lemma RunningAtStart(c: Plan)
    requires c.n > 0
    ensures !After(c, 0).stop
  {
  }

  // ---------------------------------------------------------------- a run with a straggler

  lemma {:induction false} TurnsCommit(c: Plan, sys: Sys, r: nat, pkt: Packet, k: nat)
    requires |sys.states| == c.n && k <= c.n
    ensures sys.committed <= ProcessUpTo(c, sys, r, pkt, k).committed
  {
    hide Received, Absorbed, LearnCommits, Supply;
    if k > 0 {
      TurnsCommit(c, sys, r, pkt, k - 1);
      var sys1 := ProcessUpTo(c, sys, r, pkt, k - 1);
      AnnouncedMore(sys1.committed, sys1.records, LearnCommits(sys1.states[k - 1], pkt).1, sys1.starts,
                    c.processedAt(r));
      hide Announced;
    }
  }

  lemma {:induction false} AnnouncedMore(known: set<nat>, records: seq<Metrics.ProposalRecord>, newly: seq<nat>,
                                         starts: map<nat, nat>, slot: nat)
    ensures known <= Announced(known, records, newly, starts, slot).0
  {
    if newly != [] {
      AnnouncedMore(known, records, newly[..|newly| - 1], starts, slot);
    }
  }

  /** A committed proposal stays committed. */
  lemma CommittedGrows(c: Plan, r: nat)
    requires c.n > 0
    ensures After(c, r).committed <= After(c, r + 1).committed
  {
    var before := After(c, r);
    var (sys, pkt) := Prepared(c, before, r);
    AnnouncedMore(before.committed, before.records, QuorumCommit(WithProposal(before, c.n, c.proposals, r % c.n)).1,
                  sys.starts, c.preparedAt(r));
    TurnsCommit(c, sys, r, pkt, c.n);
    hide ProcessUpTo, Announced, QuorumCommit, WithProposal, Gap, FlagsFor, ShouldStop;
  }

  lemma {:induction false} CommittedStays(c: Plan, q: nat, r: nat)
    requires c.n > 0 && q <= r
    ensures After(c, q).committed <= After(c, r).committed
  {
    hide After;
    if q < r {
      CommittedStays(c, q, r - 1);
      CommittedGrows(c, r - 1);
    }
  }

  /** Three nodes in a network of diameter 1, one proposal; only node 2, and only in round 0, does not take part. */
  ghost predicate Straggler(c: Plan) {
    && ValidPlan(c) && c.n == 3 && c.proposals == 1 && c.drain == 5
    && forall r: nat :: c.parts(r) == if r == 0 then {0, 1} else {0, 1, 2}
  }

  /** Node 1 has the votes of a majority in round 1, and commits. */
  lemma CommitsInRound1(c: Plan)
    requires Straggler(c)
    ensures 0 in After(c, 2).committed
  {
    hide After, Prepared, VotesHeard, QuorumReached;
    assert Told(c, 1, 0, 1) by {
      assert 1 in c.parts(0) && Tells(c, 0, 0);
    }
    var k := PaxosOrder.PendingThere(c, 1, 1, 0);
    QuorumHeldExactly(c, 1, 1, k);
    FirstVotes(c);
    PaxosOrder.PacketDeclares(c, 1, 0);
    HolesExactly(c, 1, 1, 0);
    ReachableBooks(c, 2);
    assert HasAccepted(After(c, 2).states[1], 0);
  }

  lemma FirstVotes(c: Plan)
    requires Straggler(c)
    ensures |VotesHeard(c, 1, 0, 1)| >= c.n / 2 + 1
  {
    assert VotesHeard(c, 1, 0, 1) == {0, 1};
  }

  /** The straggler can never log the proposal, so it is the drain that ends the run, after eight rounds. */
  lemma StragglerDrains(c: Plan)
    requires Straggler(c)
    ensures forall r: nat :: !InLog(After(c, r).states[2].log, 0)
    ensures After(c, 8).stop && !After(c, 7).stop
  {
    hide After, InLog, AllCommitted, KnowsTerm;
    forall r: nat ensures !InLog(After(c, r).states[2].log, 0) {
      TermZeroOnlyOnce(c, r, 2);
      LoggedIsKnown(After(c, r).states[2], 0);
    }
    CommitsInRound1(c);
    CommittedStays(c, 2, 8);
    assert AllCommitted(c, 8) by {
      AllIsOne(c, 8);
    }
    assert Ends(c, 7);
    StopsExactly(c, 8);
    StopsExactly(c, 7);
    forall q: nat | q < 7 ensures !Ends(c, q) {
      assert !InLog(After(c, q + 1).states[2].log, 0);
    }
  }

  lemma LoggedIsKnown(st: PaxosState, t: nat)
    ensures InLog(st.log, t) ==> KnowsTerm(st, t)
  {
  }

  lemma AllIsOne(c: Plan, r: nat)
    requires Straggler(c) && 0 in After(c, r).committed
    ensures AllCommitted(c, r)
  {
    hide After;
  }
}
