/**
  Recovery in the two-phase-commit pipeline, under any losses and any coins: which transaction
  an initiator asks for, who answers, and who learns the verdict.
 */
module TwoPcRecovery {
  import opened Wrappers
  import opened Bitmaps
  import opened Messages
  import opened Metrics
  import opened Ledger
  import opened TwoPcRun
  import opened TwoPcSafety
  import opened TwoPcWindows
  import opened TwoPcLogs

  // ---------------------------------------------------------------- who asks for what

  /** The packet of round `r`. */
  function Sent(c: Plan, r: nat): Packet
    requires c.n > 0
  {
    Prepared(c, After(c, r), r).1
  }

  lemma {:induction false} FirstIsLeast(st: TwoPcState, t: nat, upTo: nat)
    ensures var first := FirstMissing(st, t, upTo);
      if first.Some? then t <= first.value < upTo && Unknown(st, first.value)
                          && forall u: nat :: t <= u < first.value ==> !Unknown(st, u)
      else forall u: nat :: t <= u < upTo ==> !Unknown(st, u)
    decreases upTo - t
  {
    hide InLog, IsPending;
    if t < upTo {
      FirstIsLeast(st, t + 1, upTo);
    }
  }

  lemma NackIs(c: Plan, sys: Sys, r: nat)
    requires |sys.states| == c.n > 0
    ensures var gap := FirstMissing(sys.states[r % c.n], 0, sys.txCounter);
      Prepared(c, sys, r).1.nack == if gap.Some? then gap.value else 0
  {
    hide WithProposal, FlagsFor, AnnouncedAll, FirstMissing, Verdicts, FinalizedAll;
  }

  /** A transaction proposed before round `r` that its initiator has neither logged nor pending. */
  predicate Misses(c: Plan, r: nat, t: nat)
    requires c.n > 0
  {
    t < r && t < c.txs && Unknown(After(c, r).states[r % c.n], t)
  }

  /** The initiator asks for the least transaction it misses; a request for transaction 0 is no request. */
  lemma AsksExactly(c: Plan, r: nat)
    requires ValidPlan(c)
    ensures var nack := Sent(c, r).nack;
      if exists t: nat :: Misses(c, r, t) then Misses(c, r, nack) && forall t: nat :: Misses(c, r, t) ==> nack <= t
      else nack == 0
  {
    hide After, Prepared, Unknown;
    ReachableOk(c, r);
    NackIs(c, After(c, r), r);
    FirstIsLeast(After(c, r).states[r % c.n], 0, After(c, r).txCounter);
    assert forall t: nat :: Misses(c, r, t) <==> t < After(c, r).txCounter && Unknown(After(c, r).states[r % c.n], t);
  }

  /** It misses exactly what it was absent for and has not been told since. */
  lemma MissesExactly(c: Plan, r: nat, t: nat)
    requires ValidPlan(c)
    ensures Misses(c, r, t)
      <==> t < r && t < c.txs && r % c.n !in c.parts(t) && SettledAt(c, r % c.n, t, r) == None
  {
    hide After, SettledAt, VotesHeard, VerdictOf, Voters;
    if t < r && t < c.txs {
      ReachableExact(c, r, r % c.n, t);
    }
  }

  // ---------------------------------------------------------------- who answers

  /**
    What participant `i` of round `r` says when asked for `t`: the verdict it has logged before
    the round, or else what the packet of the round brings it.  Windows that close in the round
    close after that.
   */
  ghost function AnswerOf(c: Plan, i: nat, t: nat, r: nat): Option<ProposalOutcome>
    requires c.n > 0
  {
    if i !in c.parts(r) then None
    else if SettledAt(c, i, t, r).Some? then Some(VerdictOf(c, i, t, SettledAt(c, i, t, r).value))
    else if Brings(c, r, t) then Some(After(c, r).piggyback.value.1)
    else None
  }

  /** The log of a participant when it is asked. */
  ghost function AskedLog(c: Plan, i: nat, r: nat): seq<(nat, ProposalOutcome)>
    requires c.n > 0 && i < c.n
  {
    var (sys, pkt) := Prepared(c, After(c, r), r);
    Learned(Heard(c, sys.states[i], i, r, pkt), pkt).log
  }

  /** A node that is asked gives the first verdict on the transaction in its log. */
  ghost predicate FirstVerdict(log: seq<(nat, ProposalOutcome)>, t: nat, o: ProposalOutcome) {
    exists k :: 0 <= k < |log| && log[k] == (t, o) && forall j :: 0 <= j < k ==> log[j].0 != t
  }

  lemma {:induction false} VerdictIsFirst(log: seq<(nat, ProposalOutcome)>, t: nat, o: ProposalOutcome)
    ensures Verdict(log, t) == Some(o) <==> FirstVerdict(log, t, o)
  {
    if log != [] && log[0].0 != t {
      var rest := log[1..];
      VerdictIsFirst(rest, t, o);
      if FirstVerdict(rest, t, o) {
        var k :| 0 <= k < |rest| && rest[k] == (t, o) && forall j :: 0 <= j < k ==> rest[j].0 != t;
        assert log[k + 1] == (t, o) && forall j :: 0 < j < k + 1 ==> log[j] == rest[j - 1];
      }
      if FirstVerdict(log, t, o) {
        var k :| 0 <= k < |log| && log[k] == (t, o) && forall j :: 0 <= j < k ==> log[j].0 != t;
        assert rest[k - 1] == (t, o) && forall j :: 0 <= j < k - 1 ==> rest[j] == log[j + 1];
      }
    }
  }

  lemma VerdictIs(log: seq<(nat, ProposalOutcome)>, t: nat)
    requires forall j, k :: 0 <= j < k < |log| ==> log[j].0 != log[k].0
    ensures forall o :: Verdict(log, t) == Some(o) <==> (t, o) in log
  {
    hide Verdict;
    forall o ensures Verdict(log, t) == Some(o) <==> (t, o) in log {
      VerdictIsFirst(log, t, o);
    }
  }

  lemma HeardKeepsLog(c: Plan, st: TwoPcState, j: nat, r: nat, pkt: Packet, v: (nat, ProposalOutcome))
    requires v in st.log
    ensures v in Learned(Heard(c, st, j, r, pkt), pkt).log
  {
    hide FinalizedAll, FastAborts, MergedVotes, Position;
    var st1 := Heard(c, st, j, r, pkt);
    LogKept(st1, FastAborts(st1.pending), v);
  }

  /** What an undecided participant has on `t` when it is asked: what it is brought, or no verdict. */
  lemma UndecidedAsked(c: Plan, st: TwoPcState, i: nat, r: nat, terms: nat, pkt: Packet, t: nat)
    requires ValidPlan(c) && i < c.n && i in c.parts(r) && t < r && t < c.txs && t <= pkt.tx
    requires NodeOk(c, st, r + 1, terms) && PacketOk(c, pkt, r, terms) && AtTurn(c, st, i, r, terms)
    requires terms == (if r < c.txs then r + 1 else c.txs) && (pkt.data != Empty <==> r < c.txs)
    requires pkt.piggyback == After(c, r).piggyback && !ClosesFirst(c, i, t, r) && HalfExact(c, st, i, t, r)
    ensures var st2 := Learned(Heard(c, st, i, r, pkt), pkt);
      Tidy(st2) && if Brings(c, r, t) then After(c, r).piggyback.value in st2.log else !InLog(st2.log, t)
  {
    hide After, VotesHeard, Voters, Heard, Learned, AtTurn, HasEntry, Unknown, FinalizedAll, Due;
    var st1 := Heard(c, st, i, r, pkt);
    var votes := VotesHeard(c, i, t, r) + Voters(pkt.bits);
    HeardFlags(c, st, i, r, terms, pkt);
    assert pkt.data != Empty ==> pkt.tx == r;
    if i in c.parts(t) {
      HearsEntry(c, st, i, r, terms, pkt, t, VotesHeard(c, i, t, r));
    } else {
      HearsNothing(c, st, i, r, pkt, t);
    }
    HeardOk(c, st, i, r, terms, pkt);
    LearnOk(c, st1, r, terms, pkt);
    assert Clean(st1, t);
    hide NodeOk, PacketOk;
    UndecidedYet(st1, t, votes);
    LearnsOn(st1, pkt, t, votes);
    if !Brings(c, r, t) {
      UndecidedYet(Learned(st1, pkt), t, votes);
    }
  }

  lemma AskedIsTidy(c: Plan, i: nat, r: nat)
    requires ValidPlan(c) && i < c.n && i in c.parts(r)
    ensures forall j, k :: 0 <= j < k < |AskedLog(c, i, r)| ==> AskedLog(c, i, r)[j].0 != AskedLog(c, i, r)[k].0
  {
    hide After, Prepared, Heard, Learned, PacketOk, AtTurn, Due;
    RoundFacts(c, r);
    var (sys, pkt) := Prepared(c, After(c, r), r);
    NodeAt(c, sys, r + 1, i);
    HeardOk(c, sys.states[i], i, r, sys.txCounter, pkt);
    LearnOk(c, Heard(c, sys.states[i], i, r, pkt), r, sys.txCounter, pkt);
  }

  lemma AnswersAs(c: Plan, i: nat, t: nat, r: nat)
    requires ValidPlan(c) && i < c.n && i in c.parts(r) && t < r && t < c.txs && !ClosesFirst(c, i, t, r)
    ensures Verdict(AskedLog(c, i, r), t) == AnswerOf(c, i, t, r)
  {
    hide After, Prepared, Heard, Learned, NodeOk, PacketOk, AtTurn, HalfExact, SettledAt, VerdictOf, VotesHeard, Voters;
    AskedIsTidy(c, i, r);
    VerdictIs(AskedLog(c, i, r), t);
    ReachableExact(c, r, i, t);
    RoundFacts(c, r);
    var (sys, pkt) := Prepared(c, After(c, r), r);
    NodeAt(c, sys, r + 1, i);
    if SettledAt(c, i, t, r).Some? {
      var v := (t, VerdictOf(c, i, t, SettledAt(c, i, t, r).value));
      PreparedKeepsLog(c, After(c, r), r, i, v);
      HeardKeepsLog(c, sys.states[i], i, r, pkt, v);
    } else {
      PreparedHalf(c, i, t, r);
      UndecidedAsked(c, sys.states[i], i, r, sys.txCounter, pkt, t);
      NoVerdict(AskedLog(c, i, r), t);
    }
  }

  lemma NoVerdict(log: seq<(nat, ProposalOutcome)>, t: nat)
    ensures !InLog(log, t) ==> forall o :: (t, o) !in log
  {
  }

  /** What is put up for the next round once the first `k` nodes have had their turn: the last answer so far. */
  ghost function LastAnswer(c: Plan, t: nat, r: nat, k: nat): Option<(nat, ProposalOutcome)>
    requires c.n > 0
  {
    if k == 0 then None
    else if AnswerOf(c, k - 1, t, r).Some? then Some((t, AnswerOf(c, k - 1, t, r).value))
    else LastAnswer(c, t, r, k - 1)
  }

  lemma {:induction false} LastAnswerIs(c: Plan, t: nat, r: nat, k: nat, o: ProposalOutcome)
    requires c.n > 0
    ensures LastAnswer(c, t, r, k).Some? ==> LastAnswer(c, t, r, k).value.0 == t
    ensures LastAnswer(c, t, r, k) == Some((t, o))
      <==> exists i: nat :: i < k && AnswerOf(c, i, t, r) == Some(o)
             && forall m: nat :: i < m < k ==> AnswerOf(c, m, t, r) == None
  {
    hide AnswerOf;
    if k > 0 {
      LastAnswerIs(c, t, r, k - 1, o);
    }
  }

  lemma TurnAnswers(c: Plan, sys: Sys, r: nat, pkt: Packet, i: nat)
    requires |sys.states| == c.n && i < c.n
    ensures var log := Learned(Heard(c, sys.states[i], i, r, pkt), pkt).log;
      ProcessNode(c, sys, r, pkt, i).piggyback
      == if i in c.parts(r) && pkt.nack > 0 && Verdict(log, pkt.nack).Some?
         then Some((pkt.nack, Verdict(log, pkt.nack).value)) else sys.piggyback
  {
    hide Heard, Learned, Closed, AnnouncedAll, FastAborts, Verdict;
  }

  /** An initiator that asks has no window to close on the transaction. */
  lemma AskerHasNone(c: Plan, r: nat)
    requires ValidPlan(c) && Sent(c, r).nack > 0
    ensures var t := Sent(c, r).nack; t < r && t < c.txs && forall i: nat :: !ClosesFirst(c, i, t, r)
  {
    hide Sent, SettledAt;
    AsksExactly(c, r);
    MissesExactly(c, r, Sent(c, r).nack);
  }

  lemma {:induction false} TurnsAnswer(c: Plan, r: nat, k: nat)
    requires ValidPlan(c) && k <= c.n
    ensures var (sys, pkt) := Prepared(c, After(c, r), r);
      ProcessUpTo(c, sys, r, pkt, k).piggyback == if pkt.nack == 0 then None else LastAnswer(c, pkt.nack, r, k)
  {
    hide After, Prepared, ProcessNode, Heard, Learned, AnswerOf, Verdict;
    var (sys, pkt) := Prepared(c, After(c, r), r);
    if k > 0 {
      TurnsAnswer(c, r, k - 1);
      TurnAnswers(c, ProcessUpTo(c, sys, r, pkt, k - 1), r, pkt, k - 1);
      TwoPcWindows.TurnsTaken(c, sys, r, pkt, k - 1, k - 1);
      if pkt.nack > 0 {
        AskerHasNone(c, r);
        if k - 1 in c.parts(r) {
          AnswersAs(c, k - 1, pkt.nack, r);
        } else {
          AbsentSilent(c, k - 1, pkt.nack, r);
        }
      }
    }
  }

  lemma AbsentSilent(c: Plan, i: nat, t: nat, r: nat)
    requires c.n > 0 && i !in c.parts(r)
    ensures AnswerOf(c, i, t, r) == None
  {
  }

  lemma PutUpIs(c: Plan, r: nat)
    requires c.n > 0
    ensures var (sys, pkt) := Prepared(c, After(c, r), r);
      After(c, r + 1).piggyback == ProcessUpTo(c, sys, r, pkt, c.n).piggyback
  {
    hide Prepared, ProcessUpTo, ShouldStop;
  }

  /**
    What round `r + 1` brings: a verdict on `t` exactly if round `r` asks for it and some
    participant has one to give, the last of those in node order being the one that counts.
   */
  lemma AnswersExactly(c: Plan, r: nat, t: nat, o: ProposalOutcome)
    requires ValidPlan(c)
    ensures After(c, r + 1).piggyback == Some((t, o))
      <==> t > 0 && t == Sent(c, r).nack
           && exists i: nat :: i < c.n && AnswerOf(c, i, t, r) == Some(o)
                && forall m: nat :: i < m < c.n ==> AnswerOf(c, m, t, r) == None
  {
    hide After, Prepared, ProcessUpTo, AnswerOf, LastAnswer;
    PutUpIs(c, r);
    TurnsAnswer(c, r, c.n);
    LastAnswerIs(c, Sent(c, r).nack, r, c.n, o);
  }

  /** ... and nothing is brought if nobody is asked, or nobody has a verdict. */
  lemma NothingUnasked(c: Plan, r: nat)
    requires ValidPlan(c)
    ensures After(c, r + 1).piggyback.Some?
      <==> Sent(c, r).nack > 0 && exists i: nat :: i < c.n && AnswerOf(c, i, Sent(c, r).nack, r).Some?
  {
    hide After, Prepared, ProcessUpTo, AnswerOf, LastAnswer;
    PutUpIs(c, r);
    TurnsAnswer(c, r, c.n);
    SomeAnswer(c, Sent(c, r).nack, r, c.n);
  }

  lemma {:induction false} SomeAnswer(c: Plan, t: nat, r: nat, k: nat)
    requires c.n > 0
    ensures LastAnswer(c, t, r, k).Some? <==> exists i: nat :: i < k && AnswerOf(c, i, t, r).Some?
  {
    hide AnswerOf;
    if k > 0 {
      SomeAnswer(c, t, r, k - 1);
    }
  }

  /** Whoever takes part in the round that brings a verdict, and has not decided by then, logs what is brought. */
  lemma BroughtIsLogged(c: Plan, r: nat, j: nat)
    requires ValidPlan(c) && j < c.n && j in c.parts(r) && After(c, r).piggyback.Some?
    requires var t := After(c, r).piggyback.value.0;
      SettledAt(c, j, t, r) == None && (j in c.parts(t) ==> r < t + c.n)
    ensures After(c, r).piggyback.value in After(c, r + 1).states[j].log
  {
    hide After, SettledAt, VotesHeard;
    var (t, o) := After(c, r).piggyback.value;
    BroughtIsOld(c, r, t);
    SettledOnce(c, j, t, r, r + 1);
    LogExactly(c, r + 1, j, t, o);
  }
}
