/** When a run of the two-phase-commit pipeline ends, under any losses and any coins. */
module TwoPcStops {
  import opened Wrappers
  import opened Metrics
  import opened Network
  import opened Ledger
  import opened TwoPcRun
  import opened TwoPcSafety
  import opened TwoPcWindows
  import opened TwoPcDecisions
  import opened TwoPcLogs
  import opened TwoPcRecovery

  // ---------------------------------------------------------------- complete logs

  lemma EntryInLog(log: seq<(nat, ProposalOutcome)>, t: nat)
    ensures t in Entries(log) <==> InLog(log, t)
  {
  }

  lemma LogIsFull(c: Plan, r: nat, j: nat)
    requires ValidPlan(c) && j < c.n
    ensures |After(c, r).states[j].log| >= c.txs <==> forall t: nat :: t < c.txs ==> InLog(After(c, r).states[j].log, t)
  {
    hide After, InLog;
    ReachableOk(c, r);
    assert NodeOk(c, After(c, r).states[j], r, After(c, r).txCounter);
    var log := After(c, r).states[j].log;
    CompleteByLength(log, c.txs);
    forall t: nat ensures t in Entries(log) <==> InLog(log, t) {
      EntryInLog(log, t);
    }
  }

  lemma FlagKept(c: Plan, sys: Sys, r: nat, pkt: Packet, k: nat)
    requires |sys.states| == c.n > 0 && k <= c.n
    ensures Prepared(c, sys, r).0.stop == sys.stop
    ensures ProcessUpTo(c, sys, r, pkt, k).stop == sys.stop
    ensures ProcessUpTo(c, sys, r, pkt, k).generated == sys.generated
  {
    hide Heard, Learned, Closed, AnnouncedAll, FastAborts, Verdict, WithProposal, FlagsFor, Verdicts, FinalizedAll,
         FirstMissing;
    if k > 0 {
      FlagKept(c, sys, r, pkt, k - 1);
    }
  }

  lemma StopsAfter(c: Plan, r: nat)
    requires ValidPlan(c)
    ensures After(c, r + 1).stop
      <==> After(c, r).stop || r > c.txs + 1000 || (AllResolved(After(c, r + 1).states, c.txs) && r + 1 >= c.txs)
  {
    hide Prepared, ProcessUpTo, AllResolved;
    var (sys, pkt) := Prepared(c, After(c, r), r);
    FlagKept(c, After(c, r), r, pkt, 0);
    FlagKept(c, sys, r, pkt, c.n);
    ReachableOk(c, r + 1);
  }

  /** Every node has logged a verdict on every transaction after `r` rounds. */
  ghost predicate AllLogged(c: Plan, r: nat)
    requires c.n > 0
  {
    forall j: nat, t: nat :: j < c.n && t < c.txs ==> InLog(After(c, r).states[j].log, t)
  }

  lemma ResolvedIsLogged(c: Plan, r: nat)
    requires ValidPlan(c)
    ensures AllResolved(After(c, r).states, c.txs) <==> AllLogged(c, r)
  {
    hide After, InLog;
    var states := After(c, r).states;
    forall j: nat | j < c.n
      ensures |states[j].log| >= c.txs <==> forall t: nat :: t < c.txs ==> InLog(After(c, r).states[j].log, t)
    {
      LogIsFull(c, r, j);
    }
    if AllResolved(states, c.txs) {
      forall j: nat, t: nat | j < c.n && t < c.txs ensures InLog(After(c, r).states[j].log, t) {
        assert |states[j].log| >= c.txs;
      }
    }
  }

  /** Round `q` ends with all transactions proposed and every log complete, or comes more than 1000 after the last. */
  ghost predicate Ends(c: Plan, q: nat)
    requires c.n > 0
  {
    (AllLogged(c, q + 1) && q + 1 >= c.txs) || q > c.txs + 1000
  }

  /** A run asks to stop exactly when some round has ended so. */
  lemma {:induction false} StopsExactly(c: Plan, r: nat)
    requires ValidPlan(c)
    ensures After(c, r).stop
      <==> exists q: nat :: q < r && Ends(c, q)
  {
    hide After, AllLogged, AllResolved;
    if r > 0 {
      StopsExactly(c, r - 1);
      StopsAfter(c, r - 1);
      ResolvedIsLogged(c, r);
      assert Ends(c, r - 1) <==> (AllLogged(c, r) && r >= c.txs) || r - 1 > c.txs + 1000;
    } else {
      RunningAtStart(c);
    }
  }

  lemma RunningAtStart(c: Plan)
    requires c.n > 0
    ensures !After(c, 0).stop && After(c, 0).piggyback == None
  {
  }

  // ---------------------------------------------------------------- a run

  /** Three nodes, six transactions, no abort; only node 2, and only in round 1, does not take part. */
  ghost predicate AbsentOnce(c: Plan) {
    && ValidPlan(c) && c.n == 3 && c.txs == 6 && (forall r: nat, i: nat :: !c.aborts(r, i))
    && forall r: nat :: c.parts(r) == if r == 1 then {0, 1} else {0, 1, 2}
  }

  /** Nobody but node 2 asks, and only for transaction 1. */
  lemma OnlyOneAsks(c: Plan, r: nat)
    requires AbsentOnce(c)
    ensures Sent(c, r).nack == 0 || (r % 3 == 2 && Sent(c, r).nack == 1 && SettledAt(c, 2, 1, r) == None && r > 1)
    ensures r % 3 == 2 && r > 1 && SettledAt(c, 2, 1, r) == None ==> Sent(c, r).nack == 1
  {
    hide Sent, Misses, SettledAt;
    AsksExactly(c, r);
    MissesExactly(c, r, Sent(c, r).nack);
    MissesExactly(c, r, 1);
    MissesExactly(c, r, 0);
    assert Sent(c, r).nack != 1 ==> c.parts(Sent(c, r).nack) == {0, 1, 2};
  }

  /** Before transaction 1 is decided nobody can answer. */
  lemma NothingBroughtYet(c: Plan, r: nat)
    requires AbsentOnce(c) && r <= 5
    ensures After(c, r).piggyback == None
  {
    hide After, Sent, SettledAt, AnswerOf, Brings;
    if r == 0 {
      RunningAtStart(c);
    } else {
      OnlyOneAsks(c, r - 1);
      NothingUnasked(c, r - 1);
      if r == 3 {
        NothingBroughtYet(c, 2);
        forall i: nat | i < 3 ensures AnswerOf(c, i, 1, 2) == None {
          NotDecidedYet(c, i);
        }
      }
    }
  }

  lemma NotDecidedYet(c: Plan, i: nat)
    requires AbsentOnce(c) && i < 3 && After(c, 2).piggyback == None
    ensures AnswerOf(c, i, 1, 2) == None
  {
    hide After;
    NotSettledBefore(c, i, 1, 1);
  }

  /** In round 5 nodes 0 and 1 have committed transaction 1, and node 2, the initiator, asks for it. */
  lemma AskedInRound5(c: Plan)
    requires AbsentOnce(c)
    ensures After(c, 6).piggyback == Some((1, Committed))
  {
    hide After, Sent, Brings;
    forall s: nat | s <= 5 ensures !Brings(c, s, 1) {
      NothingBroughtYet(c, s);
      NotBroughtBy(c, s, 1);
    }
    SettlesOnTime(c, 1);
    OpenAtNodeTwo(c);
    OnlyOneAsks(c, 5);
    ProposerHasAll(c);
    hide SettledAt, VerdictOf;
    assert AnswerOf(c, 1, 1, 5) == Some(Committed) && AnswerOf(c, 2, 1, 5) == None;
    AnswersExactly(c, 5, 1, Committed);
  }

  lemma NotBroughtBy(c: Plan, s: nat, t: nat)
    requires c.n > 0 && After(c, s).piggyback == None
    ensures !Brings(c, s, t)
  {
  }

  lemma SettlesOnTime(c: Plan, j: nat)
    requires AbsentOnce(c) && j < 2 && forall s: nat :: s <= 5 ==> !Brings(c, s, 1)
    ensures SettledAt(c, j, 1, 5) == Some(4)
  {
    hide Brings;
    NotSettledBefore(c, j, 1, 1);
    SettledStep(c, j, 1, 1);
    SettledStep(c, j, 1, 2);
    SettledStep(c, j, 1, 3);
    SettledStep(c, j, 1, 4);
  }

  lemma OpenAtNodeTwo(c: Plan)
    requires AbsentOnce(c) && forall s: nat :: s <= 5 ==> !Brings(c, s, 1)
    ensures SettledAt(c, 2, 1, 5) == None && SettledAt(c, 2, 1, 6) == None
  {
    hide Brings;
    NotSettledBefore(c, 2, 1, 1);
    SettledStep(c, 2, 1, 1);
    SettledStep(c, 2, 1, 2);
    SettledStep(c, 2, 1, 3);
    SettledStep(c, 2, 1, 4);
    SettledStep(c, 2, 1, 5);
  }

  /** When the proposer closes transaction 1 it has heard all three votes. */
  lemma ProposerHasAll(c: Plan)
    requires AbsentOnce(c)
    ensures VerdictOf(c, 1, 1, 4) == Committed
  {
    hide After, Carried, Silent;
    CarriesItsInitiator(c, 2);
    CarriesItsInitiator(c, 3);
    MoreHeard(c, 1, 1, 2);
    MoreHeard(c, 1, 1, 3);
    assert VotesHeard(c, 1, 1, 2) == {1};
    assert !Silent(c, 2) && !Silent(c, 3) by {
      NobodySilent(c, 2);
      NobodySilent(c, 3);
    }
    assert Upto(3) == {0, 1, 2};
  }

  lemma NobodySilent(c: Plan, q: nat)
    requires AbsentOnce(c)
    ensures !Silent(c, q)
  {
  }

  /** No packet of the run brings anything but a verdict on transaction 1, and that not before round 6. */
  lemma OnlyOneBrought(c: Plan, s: nat, t: nat)
    requires AbsentOnce(c) && Brings(c, s, t)
    ensures t == 1 && s >= 6
  {
    hide After, Sent, AnswerOf;
    if s <= 5 {
      NothingBroughtYet(c, s);
    } else {
      OnlyOneAsks(c, s - 1);
      AnswersExactly(c, s - 1, t, After(c, s).piggyback.value.1);
    }
  }

  /** A node that took part in the round of a transaction logs it three rounds later. */
  lemma LogsOnTime(c: Plan, j: nat, t: nat, r: nat)
    requires AbsentOnce(c) && j < 3 && t < 6 && (j == 2 ==> t != 1)
    ensures InLog(After(c, r).states[j].log, t) <==> t + 3 < r
  {
    hide After, SettledAt, VotesHeard, Brings;
    forall s: nat | t < s < t + 3 ensures !Brings(c, s, t) {
      if Brings(c, s, t) {
        OnlyOneBrought(c, s, t);
      }
    }
    assert Returns(c, j, t, t + 3) && NotBrought(c, j, t, t + 3);
    var log := After(c, r).states[j].log;
    if InLog(log, t) {
      var k :| 0 <= k < |log| && log[k].0 == t;
      ParticipantDecides(c, j, t, t + 3, r, log[k].1);
    }
    ParticipantDecides(c, j, t, t + 3, r, Conclusion(c, j, t, t + 3));
  }

  /**
    One absence costs one request: round 6 brings node 2 the verdict it missed, all logs are
    complete in round 8, and the run stops after nine rounds.
   */
  lemma AbsenceRepaired(c: Plan)
    requires AbsentOnce(c)
    ensures (1, Committed) in After(c, 7).states[2].log
    ensures After(c, 9).stop && !After(c, 8).stop
  {
    hide After, SettledAt, InLog;
    AskedInRound5(c);
    forall s: nat | s <= 5 ensures !Brings(c, s, 1) {
      NothingBroughtYet(c, s);
      NotBroughtBy(c, s, 1);
    }
    OpenAtNodeTwo(c);
    BroughtIsLogged(c, 6, 2);
    VerdictStays(c, 2, 7, (1, Committed));
    VerdictStays(c, 2, 8, (1, Committed));
    forall j: nat, t: nat | j < 3 && t < 6 ensures InLog(After(c, 9).states[j].log, t) {
      if j == 2 && t == 1 {
        InLogIs(After(c, 9).states[2].log, (1, Committed));
      } else {
        LogsOnTime(c, j, t, 9);
      }
    }
    StopsExactly(c, 9);
    assert Ends(c, 8);
    StopsExactly(c, 8);
    forall q: nat | q < 8 ensures !Ends(c, q) {
      LogsOnTime(c, 0, 5, q + 1);
    }
  }

  lemma InLogIs(log: seq<(nat, ProposalOutcome)>, v: (nat, ProposalOutcome))
    requires v in log
    ensures InLog(log, v.0)
  {
  }
}
