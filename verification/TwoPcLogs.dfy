/**
  What the logs of the two-phase-commit pipeline say, at every node, and when two of
  them agree.
 */
module TwoPcLogs {
  import opened Wrappers
  import opened Bitmaps
  import opened Metrics
  import opened Network
  import opened Rotation
  import opened Ledger
  import opened TwoPcRun
  import opened TwoPcSafety
  import opened TwoPcWindows
  import opened TwoPcDecisions

  // ---------------------------------------------------------------- the log of a node

  lemma OneVerdict(c: Plan, r: nat, j: nat)
    requires ValidPlan(c) && j < c.n
    ensures Tidy(After(c, r).states[j])
  {
    ReachableOk(c, r);
    hide After;
    NodeAt(c, After(c, r), r, j);
  }

  lemma EntryIsNoVerdict(st: TwoPcState, t: nat, votes: set<nat>, o: ProposalOutcome)
    requires Tidy(st) && (HasEntry(st, t, votes) || Unknown(st, t))
    ensures (t, o) !in st.log
  {
    hide Voters;
  }

  /**
    Under any losses and coins: a log holds a verdict exactly if the node has decided the
    transaction, and it is the verdict of the round in which it did.
   */
  lemma LogExactly(c: Plan, r: nat, j: nat, t: nat, o: ProposalOutcome)
    requires ValidPlan(c) && j < c.n && t < c.txs
    ensures (t, o) in After(c, r).states[j].log
      <==> SettledAt(c, j, t, r).Some? && o == VerdictOf(c, j, t, SettledAt(c, j, t, r).value)
  {
    hide After, SettledAt, VerdictOf, VotesHeard, HasEntry, Unknown;
    ReachableExact(c, r, j, t);
    OneVerdict(c, r, j);
    var st := After(c, r).states[j];
    var q := SettledAt(c, j, t, r);
    if q.None? {
      EntryIsNoVerdict(st, t, VotesHeard(c, j, t, r), o);
    }
  }

  /** Two nodes that have decided a transaction log the same exactly if they decided the same. */
  lemma LogsAgree(c: Plan, r: nat, j: nat, k: nat, t: nat)
    requires ValidPlan(c) && j < c.n && k < c.n && t < c.txs
    requires SettledAt(c, j, t, r).Some? && SettledAt(c, k, t, r).Some?
    ensures (forall o :: (t, o) in After(c, r).states[j].log <==> (t, o) in After(c, r).states[k].log)
      <==> VerdictOf(c, j, t, SettledAt(c, j, t, r).value) == VerdictOf(c, k, t, SettledAt(c, k, t, r).value)
  {
    hide After, SettledAt, VerdictOf;
    forall i: nat, o | i < c.n
      ensures (t, o) in After(c, r).states[i].log
        <==> SettledAt(c, i, t, r).Some? && o == VerdictOf(c, i, t, SettledAt(c, i, t, r).value)
    {
      LogExactly(c, r, i, t, o);
    }
    var mine := VerdictOf(c, j, t, SettledAt(c, j, t, r).value);
    assert (t, mine) in After(c, r).states[j].log;
  }

  // ---------------------------------------------------------------- participants that do not abort

  /** Round `q` is the first a full turn or more after `t` that node `j` takes part in. */
  ghost predicate Returns(c: Plan, j: nat, t: nat, q: nat) {
    t + c.n <= q && j in c.parts(q) && forall s: nat :: t + c.n <= s < q ==> j !in c.parts(s)
  }

  /** Before round `q` node `j` has received no packet that brings a verdict on `t`. */
  ghost predicate NotBrought(c: Plan, j: nat, t: nat, q: nat)
    requires c.n > 0
  {
    forall s: nat :: t < s < q && j in c.parts(s) ==> !Brings(c, s, t)
  }

  lemma {:induction false} OpenTillReturn(c: Plan, j: nat, t: nat, q: nat, r: nat)
    requires ValidPlan(c) && j in c.parts(t) && !SaysAbort(c, t, j)
    requires Returns(c, j, t, q) && NotBrought(c, j, t, q) && r <= q
    ensures SettledAt(c, j, t, r) == None
  {
    hide SettledAt, Brings, SaysAbort;
    if r > 0 {
      OpenTillReturn(c, j, t, q, r - 1);
      SettledStep(c, j, t, r - 1);
    } else {
      NotSettledBefore(c, j, t, 0);
    }
  }

  /** Nobody is brought a verdict on a transaction that no participant aborts before somebody's window is over. */
  lemma UndoomedNotBrought(c: Plan, j: nat, t: nat, q: nat)
    requires ValidPlan(c) && j < c.n && j in c.parts(t) && !Doomed(c, t) && Returns(c, j, t, q)
    ensures !SaysAbort(c, t, j) && NotBrought(c, j, t, q) && (Brings(c, q, t) ==> t + c.n < q)
  {
    hide Brings, Doomed;
    NobodyAborts(c, j, t);
    forall s: nat ensures Brings(c, s, t) ==> t + c.n < s {
      if Brings(c, s, t) {
        BroughtIsOld(c, s, t);
      }
    }
  }

  /** The votes that node `j` counts when it closes `t` in round `q`: an initiator closes before it hears. */
  ghost function VotesAtClose(c: Plan, j: nat, t: nat, q: nat): set<nat>
    requires c.n > 0
  {
    VotesHeard(c, j, t, if j == q % c.n then q else q + 1)
  }

  /** What it makes of them, unless the packet of that very round brings it another's verdict. */
  ghost function Conclusion(c: Plan, j: nat, t: nat, q: nat): ProposalOutcome
    requires c.n > 0
  {
    if Brings(c, q, t) && j != q % c.n then After(c, q).piggyback.value.1 else Counted(c, VotesAtClose(c, j, t, q))
  }

  lemma {:induction false} SettledOnce(c: Plan, j: nat, t: nat, q: nat, r: nat)
    requires c.n > 0 && SettledAt(c, j, t, q) == None && Settles(c, j, t, q) && q < r
    ensures SettledAt(c, j, t, r) == Some(q)
  {
    hide SettledAt, Settles;
    SettledStep(c, j, t, r - 1);
    if q < r - 1 {
      SettledOnce(c, j, t, q, r - 1);
    }
  }

  /**
    A participant of the round of `t` that does not abort it, and is brought no verdict before,
    decides it in the first round it takes part in a full turn later: Committed exactly if it
    has heard everybody's vote, unless the packet of that very round brings it another's verdict.
   */
  lemma ParticipantDecides(c: Plan, j: nat, t: nat, q: nat, r: nat, o: ProposalOutcome)
    requires ValidPlan(c) && j < c.n && t < c.txs && j in c.parts(t) && !SaysAbort(c, t, j)
    requires Returns(c, j, t, q) && NotBrought(c, j, t, q)
    ensures (t, o) in After(c, r).states[j].log <==> q < r && o == Conclusion(c, j, t, q)
  {
    hide After, SettledAt, VotesHeard, SaysAbort, Counted, Brings;
    LogExactly(c, r, j, t, o);
    OpenTillReturn(c, j, t, q, q);
    if q < r {
      SettledOnce(c, j, t, q, r);
    } else {
      OpenTillReturn(c, j, t, q, r);
    }
  }

  /**
    Back in time, while there are new transactions: a participant of both round `t` and round
    `t + n` that did not abort, and is brought no verdict by then, commits exactly if it took
    part in all rounds between and none of their initiators aborted its own proposal.
   */
  lemma CommitsIfPresent(c: Plan, j: nat, t: nat, r: nat, o: ProposalOutcome)
    requires ValidPlan(c) && j < c.n && j in c.parts(t) && !SaysAbort(c, t, j)
    requires j in c.parts(t + c.n) && t + c.n < c.txs && NotBrought(c, j, t, t + c.n + 1)
    ensures (t, o) in After(c, r).states[j].log
      <==> t + c.n < r && o == if Attends(c, j, t) then Committed else Aborted
  {
    hide After, VotesHeard, SaysAbort, Brings, Inits, Upto, HeardIn;
    var q := t + c.n;
    assert Returns(c, j, t, q);
    ParticipantDecides(c, j, t, q, r, o);
    NothingMoreHeard(c, j, t);
    if Attends(c, j, t) {
      VotesOfAttender(c, j, t, q);
      FullTurn(c.n, t);
    } else {
      var s: nat :| t < s < t + c.n && s % c.n != j && !HeardIn(c, j, s);
      VoteMissed(c, j, t, s, q);
      InitiatorIsANode(c.n, s);
    }
  }

  /** The round a full turn later carries its proposer's vote, which is no news. */
  lemma NothingMoreHeard(c: Plan, j: nat, t: nat)
    requires ValidPlan(c) && t + c.n < c.txs
    ensures VotesHeard(c, j, t, t + c.n + 1) == VotesHeard(c, j, t, t + c.n)
  {
    hide Carried, VotesHeard;
    CarriesItsInitiator(c, t + c.n);
    SameTurn(c.n, t);
    MoreHeard(c, j, t, t + c.n);
    var votes := VotesHeard(c, j, t, t + c.n);
    assert {t % c.n} <= votes && votes + {} == votes;
  }

  // ---------------------------------------------------------------- where verdicts come from

  /** A verdict put up for piggybacking is in the log of a node that took part in the round. */
  lemma {:induction false} PutUpByTurns(c: Plan, sys: Sys, r: nat, pkt: Packet, k: nat)
    requires |sys.states| == c.n && k <= c.n
    ensures var put := ProcessUpTo(c, sys, r, pkt, k).piggyback;
      put.Some? ==> exists i: nat :: i < k && i in c.parts(r) && put.value in Turned(c, sys.states[i], i, r, pkt).log
  {
    hide Heard, Learned, Closed, AnnouncedAll, FastAborts, Verdict;
    if k > 0 {
      PutUpByTurns(c, sys, r, pkt, k - 1);
      TurnsTaken(c, sys, r, pkt, k - 1, k - 1);
      var st2 := Learned(Heard(c, sys.states[k - 1], k - 1, r, pkt), pkt);
      if k - 1 in c.parts(r) && pkt.nack > 0 && Verdict(st2.log, pkt.nack).Some? {
        ClosingKeeps(c, st2, r, (pkt.nack, Verdict(st2.log, pkt.nack).value));
      }
    }
  }

  /** What a packet brings stands in some log already. */
  lemma BroughtFromALog(c: Plan, q: nat, t: nat) returns (k: nat)
    requires ValidPlan(c) && Brings(c, q, t)
    ensures k < c.n && After(c, q).piggyback.value in After(c, q).states[k].log
  {
    hide Prepared, After, Turned;
    BroughtIsOld(c, q, t);
    PutUp(c, q - 1);
    var (sys, pkt) := Prepared(c, After(c, q - 1), q - 1);
    k :| k < c.n && k in c.parts(q - 1) && After(c, q).piggyback.value in Turned(c, sys.states[k], k, q - 1, pkt).log;
    RoundOfNode(c, q - 1, k);
  }

  lemma PutUp(c: Plan, r: nat)
    requires ValidPlan(c)
    ensures var (sys, pkt) := Prepared(c, After(c, r), r);
      var put := After(c, r + 1).piggyback;
      put.Some? ==> exists i: nat :: i < c.n && i in c.parts(r) && put.value in Turned(c, sys.states[i], i, r, pkt).log
  {
    hide Prepared, ProcessUpTo, Turned, ShouldStop;
    var (sys, pkt) := Prepared(c, After(c, r), r);
    PutUpByTurns(c, sys, r, pkt, c.n);
  }

  /** Node `k` decides `t` in round `q` without being told. */
  ghost predicate OwnDecision(c: Plan, k: nat, t: nat, q: nat)
    requires c.n > 0
  {
    && SettledAt(c, k, t, q) == None && Settles(c, k, t, q)
    && (q == t || ClosesFirst(c, k, t, q) || !Brings(c, q, t))
  }

  lemma {:induction false} UnsettledBefore(c: Plan, j: nat, t: nat, r: nat)
    requires c.n > 0 && SettledAt(c, j, t, r).Some?
    ensures SettledAt(c, j, t, SettledAt(c, j, t, r).value) == None
  {
    hide Settles;
    if SettledAt(c, j, t, r - 1).Some? {
      UnsettledBefore(c, j, t, r - 1);
    }
  }

  /** Every verdict in a log is one that a participant of the transaction's round has come to by itself. */
  lemma {:induction false} VerdictHasASource(c: Plan, r: nat, j: nat, t: nat, o: ProposalOutcome)
    returns (k: nat, q: nat)
    requires ValidPlan(c) && j < c.n && t < c.txs && (t, o) in After(c, r).states[j].log
    ensures k < c.n && k in c.parts(t) && q < r && OwnDecision(c, k, t, q) && o == VerdictOf(c, k, t, q)
    decreases r
  {
    hide After, SettledAt, VotesHeard, Counted;
    LogExactly(c, r, j, t, o);
    UnsettledBefore(c, j, t, r);
    k, q := j, SettledAt(c, j, t, r).value;
    if !OwnDecision(c, k, t, q) {
      var i := BroughtFromALog(c, q, t);
      k, q := VerdictHasASource(c, q, i, t, o);
    }
  }

  /**
    Nothing is committed anywhere without a full vote: behind every Committed in any log is a
    participant of the transaction's round that did not abort it and has heard the votes of
    all nodes.
   */
  lemma CommittedWasHeard(c: Plan, r: nat, j: nat, t: nat) returns (k: nat, q: nat)
    requires ValidPlan(c) && j < c.n && t < c.txs && (t, Committed) in After(c, r).states[j].log
    ensures k < c.n && k in c.parts(t) && !SaysAbort(c, t, k) && t + c.n <= q < r
    ensures Upto(c.n) <= VotesAtClose(c, k, t, q)
  {
    hide After, SettledAt, VotesHeard, Upto;
    k, q := VerdictHasASource(c, r, j, t, Committed);
    if SaysAbort(c, t, k) {
      SettledOnce(c, k, t, t, q) by {
        NotSettledBefore(c, k, t, t);
      }
    }
  }

  /**
    Two nodes, one transaction, no abort: the proposer misses the one round in between, in
    which the other node hears nothing new.  The proposer logs Aborted, the other Committed.
   */
  lemma LogsCanDisagree() returns (c: Plan)
    ensures ValidPlan(c) && c.n == 2 && c.txs == 1 && !Doomed(c, 0)
    ensures forall r: nat :: r >= 3 ==>
      (0, Aborted) in After(c, r).states[0].log && (0, Committed) in After(c, r).states[1].log
  {
    hide After, VotesHeard, Counted, Brings;
    c := Plan(2, 1, r => if r == 1 then {1} else {0, 1}, (r, i) => false, r => r, r => r + 1);
    assert Returns(c, 0, 0, 2) && Returns(c, 1, 0, 2);
    UndoomedNotBrought(c, 0, 0, 2);
    UndoomedNotBrought(c, 1, 0, 2);
    DisagreeingVotes(c);
    forall r: nat | r >= 3
      ensures (0, Aborted) in After(c, r).states[0].log && (0, Committed) in After(c, r).states[1].log
    {
      ParticipantDecides(c, 0, 0, 2, r, Aborted);
      ParticipantDecides(c, 1, 0, 2, r, Committed);
    }
  }

  lemma DisagreeingVotes(c: Plan)
    requires c.n == 2 && 0 !in c.parts(1)
    ensures Counted(c, VotesAtClose(c, 0, 0, 2)) == Aborted && Counted(c, VotesAtClose(c, 1, 0, 2)) == Committed
  {
    hide Carried;
    MoreHeard(c, 0, 0, 1);
    assert VotesHeard(c, 0, 0, 1) == {0};
    assert 1 in Upto(2) && Upto(2) <= {0, 1};
  }
}
