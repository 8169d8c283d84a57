/**
  The order of the logs of the Paxos pipeline: exactly when a log holds one term before
  another, under any loss.
 */
module PaxosOrder {
  import opened Wrappers
  import opened Messages
  import opened PaxosNode
  import opened PaxosRun
  import opened PaxosSafety
  import opened PaxosRecovery
  import opened PaxosHolders

  /** The log holds `t` before `m`. */
  ghost predicate Before(log: seq<(nat, Data)>, t: nat, m: nat) {
    exists a, b :: 0 <= a < b < |log| && log[a].0 == t && log[b].0 == m
  }

  // ---------------------------------------------------------------- commits append

  /** `log'` is `log` with terms from `lo` on appended in ascending order. */
  ghost predicate Appended(log: seq<(nat, Data)>, log': seq<(nat, Data)>, lo: nat) {
    && log <= log'
    && (forall a :: |log| <= a < |log'| ==> lo <= log'[a].0)
    && (forall a, b :: |log| <= a < b < |log'| ==> log'[a].0 < log'[b].0)
  }

  lemma {:induction false} CommitAppends(st: PaxosState, t: nat, upTo: nat)
    ensures Appended(st.log, CommittedRange(st, t, upTo).0.log, t)
    decreases upTo + 1 - t
  {
    hide InLog, IsPending, Position;
    if t <= upTo {
      CommitAppends(if InLog(st.log, t) then st else CommittedTerm(st, t), t + 1, upTo);
    }
  }

  ghost predicate OnceEach(log: seq<(nat, Data)>) {
    forall a, b :: 0 <= a < b < |log| ==> log[a].0 != log[b].0
  }

  lemma NotBoth(log: seq<(nat, Data)>, t: nat, m: nat)
    requires OnceEach(log) && t != m && InLog(log, t) && InLog(log, m)
    ensures Before(log, t, m) <==> !Before(log, m, t)
  {
    var a :| 0 <= a < |log| && log[a].0 == t;
    var b :| 0 <= b < |log| && log[b].0 == m;
    if a < b {
      assert Before(log, t, m);
    } else {
      assert Before(log, m, t);
    }
  }

  /** What appending does to the order of `t` and a higher `m`. */
  ghost predicate PairKept(log: seq<(nat, Data)>, log': seq<(nat, Data)>, t: nat, m: nat) {
    && (InLog(log, t) ==> InLog(log', t)) && (InLog(log, m) ==> InLog(log', m))
    && (InLog(log, t) && InLog(log, m) ==> (Before(log', t, m) <==> Before(log, t, m)))
    && (InLog(log, m) && !InLog(log, t) && InLog(log', t) ==> !Before(log', t, m))
    && (!InLog(log, m) && InLog(log', t) && InLog(log', m) ==> Before(log', t, m))
  }

  lemma AppendKeepsPairs(log: seq<(nat, Data)>, log': seq<(nat, Data)>, t: nat, m: nat)
    requires Appended(log, log', 0) && OnceEach(log') && t < m
    ensures PairKept(log, log', t, m)
  {
    PrefixLogged(log, log', t);
    PrefixLogged(log, log', m);
    if InLog(log', t) && InLog(log', m) {
      var a :| 0 <= a < |log'| && log'[a].0 == t;
      var b :| 0 <= b < |log'| && log'[b].0 == m;
      assert Before(log', t, m) <==> a < b;
      assert InLog(log, t) <==> a < |log|;
      assert InLog(log, m) <==> b < |log|;
      if a < |log| && b < |log| {
        assert log[a].0 == t && log[b].0 == m;
        assert Before(log, t, m) <==> a < b;
      }
    }
  }

  lemma PrefixLogged(log: seq<(nat, Data)>, log': seq<(nat, Data)>, t: nat)
    requires log <= log' && OnceEach(log')
    ensures InLog(log, t) ==> InLog(log', t)
    ensures forall a :: 0 <= a < |log'| && log'[a].0 == t ==> (InLog(log, t) <==> a < |log|)
  {
    if InLog(log, t) {
      var k :| 0 <= k < |log| && log[k].0 == t;
      assert log'[k].0 == t;
    }
    forall a | 0 <= a < |log'| && log'[a].0 == t ensures InLog(log, t) <==> a < |log| {
      if a < |log| {
        assert log[a].0 == t;
      }
    }
  }

  /** A commit keeps pairs, and does not log the higher of two terms without the lower if that is known. */
  lemma CommitKeepsPairs(st: PaxosState, upTo: nat, t: nat, m: nat)
    requires Tidy(st) && t < m
    ensures var st' := CommittedUpTo(st, upTo).0;
      && Tidy(st') && PairKept(st.log, st'.log, t, m)
      && (!InLog(st.log, m) && InLog(st'.log, m) && KnowsTerm(st, t) ==> InLog(st'.log, t))
      && (KnowsTerm(st', t) <==> KnowsTerm(st, t))
  {
    CommitAppends(st, 0, upTo);
    CommitRangeTidy(st, 0, upTo);
    CommitKnows(st, 0, upTo, t);
    TidyOnce(CommittedUpTo(st, upTo).0);
    hide CommittedRange, InLog, IsPending, Tidy, Before;
    AppendKeepsPairs(st.log, CommittedUpTo(st, upTo).0.log, t, m);
  }

  lemma TidyOnce(st: PaxosState)
    requires Tidy(st)
    ensures OnceEach(st.log)
  {
  }

  // ---------------------------------------------------------------- one round

  /** What a half of a round does to a node: its log grows by commits, and what is known of `t` stays known. */
  ghost predicate HalfStep(st: PaxosState, st': PaxosState, t: nat, m: nat) {
    && PairKept(st.log, st'.log, t, m)
    && (!InLog(st.log, m) && InLog(st'.log, m) && KnowsTerm(st, t) ==> InLog(st'.log, t))
    && (InLog(st'.log, t) ==> KnowsTerm(st, t))
  }

  lemma NoStep(st: PaxosState, t: nat, m: nat)
    ensures HalfStep(st, st, t, m)
  {
    hide Before;
  }

  lemma ReceiveStep(st: PaxosState, i: nat, n: nat, pkt: Packet, t: nat, m: nat)
    requires Tidy(st) && t < m
    ensures HalfStep(st, Received(st, i, n, pkt), t, m)
  {
    ReceivedLog(st, i, n, pkt);
    hide InLog, IsPending, Tidy, Before, CommittedUpTo, Received;
    if pkt.lastAccepted.Some? {
      CommitKeepsPairs(st, pkt.lastAccepted.value, t, m);
    }
  }

  lemma ReceivedLog(st: PaxosState, i: nat, n: nat, pkt: Packet)
    ensures Received(st, i, n, pkt).log == LearnCommits(st, pkt).0.log
  {
    hide CommittedUpTo, MergedVotes;
  }

  lemma PrepareStep(c: Plan, sys: Sys, r: nat, j: nat, t: nat, m: nat)
    requires ValidPlan(c) && AllOk(c, sys, r) && j < c.n && t < m && m < r
    ensures HalfStep(sys.states[j], Prepared(c, sys, r).0.states[j], t, m)
    ensures KnowsTerm(Prepared(c, sys, r).0.states[j], t) <==> KnowsTerm(sys.states[j], t)
  {
    PreparedStates(c, sys, r);
    ProposeOk(c, sys, r);
    PreparingKnows(c, sys, r, j, t);
    hide Prepared, Gap, FlagsFor, HighestQuorum, CommittedUpTo, Tidy, AllEarned, InLog, IsPending, Before;
    var i := r % c.n;
    var st := WithProposal(sys, c.n, c.proposals, i);
    ProposalKnows(sys, c.n, c.proposals, i, t);
    var hq := HighestQuorum(st.pending, |st.pending|);
    NoStep(sys.states[j], t, m);
    if j == i && hq.Some? {
      CommitKeepsPairs(st, hq.value, t, m);
    }
  }

  /** What a whole round does to the order of two terms at a node. */
  ghost predicate RoundStep(c: Plan, r: nat, j: nat, log: seq<(nat, Data)>, log': seq<(nat, Data)>, t: nat, m: nat)
    requires c.n > 0
  {
    && PairKept(log, log', t, m)
    && (!InLog(log, m) && InLog(log', m) ==> (InLog(log', t) <==> Told(c, j, t, r)))
  }

  lemma HalvesCompose(st: PaxosState, st1: PaxosState, st2: PaxosState, t: nat, m: nat)
    requires HalfStep(st, st1, t, m) && HalfStep(st1, st2, t, m) && (KnowsTerm(st1, t) <==> KnowsTerm(st, t))
    ensures PairKept(st.log, st2.log, t, m)
    ensures !InLog(st.log, m) && InLog(st2.log, m) ==> (InLog(st2.log, t) <==> KnowsTerm(st, t))
  {
    hide InLog, IsPending, Before;
  }

  lemma OneRound(c: Plan, r: nat, j: nat, t: nat, m: nat)
    requires ValidPlan(c) && j < c.n && t < m && m < r
    ensures RoundStep(c, r, j, After(c, r).states[j].log, After(c, r + 1).states[j].log, t, m)
  {
    hide After, Prepared, Received, AllOk, PacketOk, KnowsTerm, Told, InLog, HalfStep, PairKept;
    RoundFacts(c, r);
    RoundOfNode(c, r, j);
    PrepareStep(c, After(c, r), r, j, t, m);
    KnowsExactly(c, r, j, t);
    var (sys, pkt) := Prepared(c, After(c, r), r);
    TidyNode(c, sys, r + 1, j);
    NoStep(sys.states[j], t, m);
    ReceiveStep(sys.states[j], j, c.n, pkt, t, m);
    HalvesCompose(After(c, r).states[j], sys.states[j], After(c, r + 1).states[j], t, m);
  }

  // ---------------------------------------------------------------- the order of a log

  /** The round before `r` in which node `j` logs term `m`, if it has. */
  ghost function LoggedIn(c: Plan, j: nat, m: nat, r: nat): (q: Option<nat>)
    requires c.n > 0 && j < c.n
    ensures q.Some? ==> q.value < r
  {
    if r == 0 then None
    else if LoggedIn(c, j, m, r - 1).Some? then LoggedIn(c, j, m, r - 1)
    else if InLog(After(c, r).states[j].log, m) then Some(r - 1)
    else None
  }

  lemma LoggedStep(c: Plan, j: nat, m: nat, r: nat)
    requires c.n > 0 && j < c.n
    ensures LoggedIn(c, j, m, r + 1)
         == if LoggedIn(c, j, m, r).Some? then LoggedIn(c, j, m, r)
            else if InLog(After(c, r + 1).states[j].log, m) then Some(r) else None
  {
    hide After, InLog;
  }

  lemma NotLoggedEarly(c: Plan, r: nat, j: nat, m: nat)
    requires ValidPlan(c) && j < c.n && r <= m + 1
    ensures !InLog(After(c, r).states[j].log, m)
  {
    if InLog(After(c, r).states[j].log, m) {
      NoEarlyCommit(c, r, j, m);
    }
  }

  lemma {:induction false} LoggedInIs(c: Plan, r: nat, j: nat, m: nat)
    requires ValidPlan(c) && j < c.n
    ensures LoggedIn(c, j, m, r).Some? <==> InLog(After(c, r).states[j].log, m)
  {
    hide RoundOf, InLog;
    if r > 0 {
      LoggedInIs(c, r - 1, j, m);
      LoggedStep(c, j, m, r - 1);
      hide After, LoggedIn;
      if r - 1 <= m {
        NotLoggedEarly(c, r - 1, j, m);
      } else if InLog(After(c, r - 1).states[j].log, m) {
        LogStays(c, r - 1, j, m);
      }
    } else {
      NotLoggedEarly(c, 0, j, m);
    }
  }

  lemma LogStays(c: Plan, r: nat, j: nat, m: nat)
    requires ValidPlan(c) && j < c.n && m < r && InLog(After(c, r).states[j].log, m)
    ensures InLog(After(c, r + 1).states[j].log, m)
  {
    hide After, InLog;
    if m > 0 {
      OneRound(c, r, j, m - 1, m);
    } else {
      NothingLost(c, r, j);
    }
  }

  lemma NothingLost(c: Plan, r: nat, j: nat)
    requires ValidPlan(c) && j < c.n && 0 < r && InLog(After(c, r).states[j].log, 0)
    ensures InLog(After(c, r + 1).states[j].log, 0)
  {
    hide After, InLog, Before;
    if r > 1 {
      OneRound(c, r, j, 0, 1);
    } else {
      NotLoggedEarly(c, 1, j, 0);
    }
  }

  /** A term told before the round that logged a higher one is logged with it at the latest. */
  lemma {:induction false} ToldIsLogged(c: Plan, r: nat, j: nat, t: nat, m: nat)
    requires ValidPlan(c) && j < c.n && t < m && InLog(After(c, r).states[j].log, m)
    requires LoggedIn(c, j, m, r).Some? && Told(c, j, t, LoggedIn(c, j, m, r).value)
    ensures InLog(After(c, r).states[j].log, t)
  {
    hide After, InLog, Told, Before;
    if r <= m + 1 {
      NotLoggedEarly(c, r, j, m);
    } else {
      LoggedStep(c, j, m, r - 1);
      LoggedInIs(c, r - 1, j, m);
      hide LoggedIn;
      OneRound(c, r - 1, j, t, m);
      if InLog(After(c, r - 1).states[j].log, m) {
        ToldIsLogged(c, r - 1, j, t, m);
      }
    }
  }

  /**
    Under any loss: a log holds a term before a higher one exactly if the node had been told of
    it before the round in which it logged the higher one.
   */
  lemma {:induction false} OrderExactly(c: Plan, r: nat, j: nat, t: nat, m: nat)
    requires ValidPlan(c) && j < c.n && t < m
    requires InLog(After(c, r).states[j].log, t) && InLog(After(c, r).states[j].log, m)
    ensures LoggedIn(c, j, m, r).Some?
    ensures Before(After(c, r).states[j].log, t, m) <==> Told(c, j, t, LoggedIn(c, j, m, r).value)
  {
    hide After, InLog, Told, Before;
    LoggedInIs(c, r, j, m);
    if r <= m + 1 {
      NotLoggedEarly(c, r, j, m);
    } else {
      LoggedStep(c, j, m, r - 1);
      LoggedInIs(c, r - 1, j, m);
      hide LoggedIn;
      OneRound(c, r - 1, j, t, m);
      if InLog(After(c, r - 1).states[j].log, m) {
        if InLog(After(c, r - 1).states[j].log, t) {
          OrderExactly(c, r - 1, j, t, m);
        } else if Told(c, j, t, LoggedIn(c, j, m, r - 1).value) {
          ToldIsLogged(c, r - 1, j, t, m);
        }
      }
    }
  }

  // ---------------------------------------------------------------- whole logs

  ghost predicate Ascending(log: seq<(nat, Data)>) {
    forall a, b :: 0 <= a < b < |log| ==> log[a].0 < log[b].0
  }

  lemma AscendingPairs(log: seq<(nat, Data)>)
    requires OnceEach(log)
    ensures Ascending(log)
      <==> forall t: nat, m: nat :: t < m && InLog(log, t) && InLog(log, m) ==> Before(log, t, m)
  {
    if Ascending(log) {
      forall t: nat, m: nat | t < m && InLog(log, t) && InLog(log, m) ensures Before(log, t, m) {
        var a :| 0 <= a < |log| && log[a].0 == t;
        var b :| 0 <= b < |log| && log[b].0 == m;
        assert a < b;
      }
    }
    if forall t: nat, m: nat :: t < m && InLog(log, t) && InLog(log, m) ==> Before(log, t, m) {
      forall a, b | 0 <= a < b < |log| ensures log[a].0 < log[b].0 {
        assert InLog(log, log[a].0) && InLog(log, log[b].0);
        assert log[b].0 < log[a].0 ==> Before(log, log[b].0, log[a].0);
      }
    }
  }

  /** Node `j` had been told of `t` before the round in which it logged `m`. */
  ghost predicate InTime(c: Plan, r: nat, j: nat, t: nat, m: nat)
    requires c.n > 0 && j < c.n
  {
    LoggedIn(c, j, m, r).Some? && Told(c, j, t, LoggedIn(c, j, m, r).value)
  }

  lemma OrderInTime(c: Plan, r: nat, j: nat, t: nat, m: nat)
    requires ValidPlan(c) && j < c.n && t < m
    requires InLog(After(c, r).states[j].log, t) && InLog(After(c, r).states[j].log, m)
    ensures Before(After(c, r).states[j].log, t, m) <==> InTime(c, r, j, t, m)
  {
    hide After, InLog, Told, Before, LoggedIn;
    OrderExactly(c, r, j, t, m);
  }

  /** A log is ascending exactly if no term in it was told too late for a higher one. */
  lemma AscendingExactly(c: Plan, r: nat, j: nat)
    requires ValidPlan(c) && j < c.n
    ensures var log := After(c, r).states[j].log;
      Ascending(log) <==> forall t: nat, m: nat :: t < m && InLog(log, t) && InLog(log, m) ==> InTime(c, r, j, t, m)
  {
    hide After, InLog, Before, InTime, Ascending, Tidy;
    ReachableOk(c, r);
    var log := After(c, r).states[j].log;
    TidyNode(c, After(c, r), r, j);
    TidyOnce(After(c, r).states[j]);
    AscendingPairs(log);
    forall t: nat, m: nat | t < m && InLog(log, t) && InLog(log, m)
      ensures Before(log, t, m) <==> InTime(c, r, j, t, m)
    {
      OrderInTime(c, r, j, t, m);
    }
  }

  /** Two logs hold `t` and `m` in the same order. */
  ghost predicate Alike(log: seq<(nat, Data)>, log': seq<(nat, Data)>, t: nat, m: nat) {
    InLog(log, t) && InLog(log, m) && InLog(log', t) && InLog(log', m) ==> (Before(log, t, m) <==> Before(log', t, m))
  }

  /** Two logs hold two common terms in the same order exactly if both nodes, or neither, had been told in time. */
  lemma SameOrderExactly(c: Plan, r: nat, j: nat, k: nat, t: nat, m: nat)
    requires ValidPlan(c) && j < c.n && k < c.n && t < m
    requires InLog(After(c, r).states[j].log, t) && InLog(After(c, r).states[j].log, m)
    requires InLog(After(c, r).states[k].log, t) && InLog(After(c, r).states[k].log, m)
    ensures Alike(After(c, r).states[j].log, After(c, r).states[k].log, t, m)
      <==> (InTime(c, r, j, t, m) <==> InTime(c, r, k, t, m))
    ensures Alike(After(c, r).states[j].log, After(c, r).states[k].log, m, t)
      <==> (InTime(c, r, j, t, m) <==> InTime(c, r, k, t, m))
  {
    hide After, InLog, Before, InTime, Tidy;
    ReachableOk(c, r);
    TidyNode(c, After(c, r), r, j);
    TidyNode(c, After(c, r), r, k);
    TidyOnce(After(c, r).states[j]);
    TidyOnce(After(c, r).states[k]);
    OrderInTime(c, r, j, t, m);
    OrderInTime(c, r, k, t, m);
    NotBoth(After(c, r).states[j].log, t, m);
    NotBoth(After(c, r).states[k].log, t, m);
  }

  /** A node that took part in the rounds of all terms it has logged has them in ascending order. */
  lemma PresentIsAscending(c: Plan, r: nat, j: nat)
    requires ValidPlan(c) && j < c.n
    requires forall t: nat :: InLog(After(c, r).states[j].log, t) ==> t < c.proposals && j in c.parts(t)
    ensures Ascending(After(c, r).states[j].log)
  {
    hide After, InLog, Before, Ascending, LoggedIn, Told;
    var log := After(c, r).states[j].log;
    AscendingExactly(c, r, j);
    forall t: nat, m: nat | t < m && InLog(log, t) && InLog(log, m) ensures InTime(c, r, j, t, m) {
      LoggedInIs(c, r, j, m);
      LoggedLate(c, r, j, m);
      ToldInItsRound(c, j, t, LoggedIn(c, j, m, r).value);
    }
  }

  /** Nothing is logged before or in the round that proposes it. */
  lemma {:induction false} LoggedLate(c: Plan, r: nat, j: nat, m: nat)
    requires ValidPlan(c) && j < c.n && LoggedIn(c, j, m, r).Some?
    ensures m < LoggedIn(c, j, m, r).value
  {
    hide After, InLog;
    if LoggedIn(c, j, m, r - 1).Some? {
      LoggedLate(c, r - 1, j, m);
    } else if r <= m + 1 {
      NotLoggedEarly(c, r, j, m);
    }
  }

  // ---------------------------------------------------------------- a log out of order

  /** Three nodes and three terms; only its proposer takes part in the round of term 1, and nothing else is lost. */
  ghost predicate Example(c: Plan) {
    && ValidPlan(c) && c.n == 3 && c.proposals == 3 && c.parts(1) == {1}
    && forall r: nat :: r != 1 ==> c.parts(r) == {0, 1, 2}
  }

  /** What is piggybacked was asked for a round before, and so proposed before that. */
  lemma PiggybackIsOlder(c: Plan, r: nat, t: nat)
    requires ValidPlan(c) && After(c, r).pbTerm == Some(t)
    ensures t + 1 < r
  {
    hide After, Prepared, ProcessUpTo, AllOk, PacketOk, GapFrom, CanSupply;
    NeverPiggybacked(c, r);
    if r == 0 {
      NoPiggybackYet(c);
    } else {
      PiggybackIs(c, r - 1);
      RoundFacts(c, r - 1);
      ReachableOk(c, r - 1);
      PreparedStates(c, After(c, r - 1), r - 1);
      var before := After(c, r - 1);
      var (sys, pkt) := Prepared(c, before, r - 1);
      NackAnswered(c, sys, r - 1, pkt, c.n);
      var st := before.states[(r - 1) % c.n];
      GapIsMissing(st, if st.lastAccepted.Some? then st.lastAccepted.value + 1 else 0, before.termCounter);
      TermsMade(c, before, r - 1);
    }
  }

  lemma NoPiggybackYet(c: Plan)
    requires c.n > 0
    ensures After(c, 0).pbTerm == None
  {
  }

  lemma PiggybackIs(c: Plan, r: nat)
    requires c.n > 0
    ensures var (sys, pkt) := Prepared(c, After(c, r), r);
      After(c, r + 1).pbTerm == ProcessUpTo(c, sys, r, pkt, c.n).pbTerm
  {
    hide Prepared, ProcessUpTo, ShouldStop;
  }

  lemma TermsMade(c: Plan, sys: Sys, r: nat)
    requires c.n > 0 && AllOk(c, sys, r)
    ensures sys.termCounter <= r && sys.generated == sys.termCounter
    ensures r >= c.proposals ==> sys.generated == c.proposals
  {
  }

  lemma ToldDirectly(c: Plan, j: nat, t: nat, r: nat)
    requires Example(c) && j < 3 && t < 3 && t < r
    ensures t != 1 ==> Told(c, j, t, r)
    ensures t == 1 && r <= 3 ==> (Told(c, j, t, r) <==> j == 1)
  {
    hide After;
    if j in c.parts(t) {
      ToldInItsRound(c, j, t, r);
    }
    forall q: nat | q <= 2 ensures After(c, q).pbTerm != Some(1) {
      if After(c, q).pbTerm == Some(1) {
        PiggybackIsOlder(c, q, 1);
      }
    }
  }

  lemma PendingThere(c: Plan, r: nat, j: nat, t: nat) returns (k: nat)
    requires ValidPlan(c) && j < c.n && Told(c, j, t, r) && r <= t + 1
    ensures k < |After(c, r).states[j].pending| && After(c, r).states[j].pending[k].term == t
  {
    KnowsExactly(c, r, j, t);
    NotLoggedEarly(c, r, j, t);
    hide After, Told;
    k :| 0 <= k < |After(c, r).states[j].pending| && After(c, r).states[j].pending[k].term == t;
  }

  /** After round 2 node 0 has a quorum for term 2. */
  lemma ExampleQuorum(c: Plan)
    requires Example(c)
    ensures QuorumReached(After(c, 3).states[0].pending, 2)
  {
    hide After, Told, QuorumReached, Holders, Meeters, Recovered, Tells;
    ToldDirectly(c, 0, 2, 3);
    var k := PendingThere(c, 3, 0, 2);
    NotToldYet(c, 0, 2);
    assert VotesHeard(c, 0, 2, 3) == {2, 0};
    QuorumHeldExactly(c, 3, 0, k);
  }

  lemma {:induction false} HighestAtLeast(pending: seq<Pending>, k: nat, m: nat)
    requires m < k <= |pending| && QuorumReached(pending, pending[m].term)
    ensures HighestQuorum(pending, k).Some? && pending[m].term <= HighestQuorum(pending, k).value
  {
    if m < k - 1 {
      HighestAtLeast(pending, k - 1, m);
    }
  }

  /** An initiator with a quorum for a term, or that has accepted it, declares it accepted. */
  lemma PacketDeclares(c: Plan, r: nat, t: nat)
    requires ValidPlan(c) && r >= c.proposals
    requires var st := After(c, r).states[r % c.n]; HasAccepted(st, t) || QuorumReached(st.pending, t)
    ensures var accepted := Prepared(c, After(c, r), r).1.lastAccepted; accepted.Some? && t <= accepted.value
  {
    hide After, Prepared, Gap, FlagsFor, QuorumReached;
    ReachableOk(c, r);
    var sys, i := After(c, r), r % c.n;
    PreparedStates(c, sys, r);
    TidyNode(c, sys, r, i);
    TermsMade(c, sys, r);
    var st := sys.states[i];
    assert WithProposal(sys, c.n, c.proposals, i) == st;
    if QuorumReached(st.pending, t) {
      var k := FirstOf(st.pending, t);
      HighestAtLeast(st.pending, |st.pending|, k);
    }
    var hq := HighestQuorum(st.pending, |st.pending|);
    if hq.Some? {
      CommitRangeTidy(st, 0, hq.value);
    }
  }

  lemma FirstOf(pending: seq<Pending>, t: nat) returns (k: nat)
    requires QuorumReached(pending, t)
    ensures k < |pending| && pending[k].term == t
  {
    k := Position(pending, t).value;
  }

  /** Node 2 commits nothing above term 0 before round 2, for want of term 1. */
  lemma ExamplePacket2(c: Plan)
    requires Example(c)
    ensures var accepted := Prepared(c, After(c, 2), 2).1.lastAccepted; accepted.Some? ==> accepted.value < 1
  {
    hide After, Prepared, Gap, FlagsFor, Told, QuorumReached, KnowsTerm;
    ReachableOk(c, 2);
    RoundFacts(c, 2);
    var sys := After(c, 2);
    PreparedStates(c, sys, 2);
    ProposeOk(c, sys, 2);
    TidyNode(c, sys, 2, 2);
    var st := WithProposal(sys, 3, 3, 2);
    if HasAccepted(sys.states[2], 1) {
      NoEarlyCommit(c, 2, 2, 1);
    }
    assert sys.states[2].lastAccepted == st.lastAccepted;
    ToldDirectly(c, 2, 1, 2);
    KnowsExactly(c, 2, 2, 1);
    ProposalKnows(sys, 3, 3, 2, 1);
    QuorumTerm(c, sys, 2);
    var hq := HighestQuorum(st.pending, |st.pending|);
    if hq.Some? {
      CommitRangeTidy(st, 0, hq.value);
    }
  }

  /** An initiator's quorum is for a term it knows, half a turn old. */
  lemma QuorumTerm(c: Plan, sys: Sys, r: nat)
    requires ValidPlan(c) && AllOk(c, sys, r)
    ensures var st := WithProposal(sys, c.n, c.proposals, r % c.n);
      var hq := HighestQuorum(st.pending, |st.pending|);
      hq.Some? ==> KnowsTerm(st, hq.value) && hq.value + c.n / 2 <= r
  {
    ProposeOk(c, sys, r);
    ProposalEarned(c, sys, r);
    hide WithProposal, QuorumReached;
    var st := WithProposal(sys, c.n, c.proposals, r % c.n);
    QuorumCommitOk(c.n, st, r % c.n, r, sys.termCounter + if sys.generated < c.proposals then 1 else 0);
    HighestQuorumIsReached(st.pending, |st.pending|);
  }

  /** In round 3 node 0 declares term 2 accepted and asks for term 1. */
  lemma ExamplePacket3(c: Plan)
    requires Example(c)
    ensures var pkt := Prepared(c, After(c, 3), 3).1;
      pkt.lastAccepted.Some? && 2 <= pkt.lastAccepted.value && pkt.nack == 1
  {
    hide After, Prepared, FlagsFor, Told, QuorumReached, KnowsTerm;
    ExampleQuorum(c);
    PacketDeclares(c, 3, 2);
    ReachableOk(c, 3);
    var sys := After(c, 3);
    TermsMade(c, sys, 3);
    PreparedStates(c, sys, 3);
    ExampleNotYet(c);
    ToldDirectly(c, 0, 0, 3);
    ToldDirectly(c, 0, 1, 3);
    KnowsExactly(c, 3, 0, 0);
    KnowsExactly(c, 3, 0, 1);
    GapAtOne(sys.states[0], sys.termCounter);
    assert sys.termCounter == 3;
  }

  lemma GapAtOne(st: PaxosState, upTo: nat)
    requires KnowsTerm(st, 0) && !KnowsTerm(st, 1) && !HasAccepted(st, 1) && upTo > 1
    ensures Gap(st, upTo) == Some(1)
  {
    assert GapFrom(st, 0, upTo) == GapFrom(st, 1, upTo);
  }

  /** By then it has not accepted term 1. */
  lemma ExampleNotYet(c: Plan)
    requires Example(c)
    ensures !HasAccepted(After(c, 3).states[0], 1)
  {
    hide After, Prepared, Received, FlagsFor, Told, QuorumReached, KnowsTerm, AllOk, PacketOk, Tidy, CommittedRange;
    RoundFacts(c, 2);
    RoundOfNode(c, 2, 0);
    PreparedStates(c, After(c, 2), 2);
    ExamplePacket2(c);
    if HasAccepted(After(c, 2).states[0], 1) {
      NoEarlyCommit(c, 2, 0, 1);
    }
    var (sys, pkt) := Prepared(c, After(c, 2), 2);
    TidyNode(c, sys, 3, 0);
    AcceptsNothingElse(sys.states[0], 0, 3, pkt);
    if pkt.lastAccepted.Some? {
      CommitRangeTidy(sys.states[0], 0, pkt.lastAccepted.value);
    }
  }

  /** Node 1 answers, and round 4 piggybacks term 1. */
  lemma ExampleRecovered(c: Plan)
    requires Example(c)
    ensures After(c, 4).pbTerm == Some(1)
  {
    hide After, Prepared, ProcessUpTo, AllOk, PacketOk, Told, KnowsTerm;
    ExamplePacket3(c);
    RoundFacts(c, 3);
    var (sys, pkt) := Prepared(c, After(c, 3), 3);
    ToldDirectly(c, 1, 1, 3);
    KnowsExactly(c, 3, 1, 1);
    PreparingKnows(c, After(c, 3), 3, 1, 1);
    TidyNode(c, sys, 4, 1);
    AbsorbedKnows(sys.states[1], 1, 3, pkt, 1);
    KnownIsSupplied(Absorbed(sys.states[1], 1, 3, pkt), 1);
    assert CanSupply(c, sys, 3, pkt, 1);
    NackAnswered(c, sys, 3, pkt, 3);
    PiggybackIs(c, 3);
  }

  lemma KnownIsSupplied(st: PaxosState, t: nat)
    requires KnowsTerm(st, t)
    ensures Supply(st, t).Some?
  {
  }

  /** What round `r` declares accepted its participants have accepted, and so the next initiator declares it too. */
  lemma DeclaredAgain(c: Plan, r: nat, t: nat)
    requires ValidPlan(c) && r >= c.proposals && (r + 1) % c.n in c.parts(r)
    requires var accepted := Prepared(c, After(c, r), r).1.lastAccepted; accepted.Some? && t <= accepted.value
    ensures var accepted := Prepared(c, After(c, r + 1), r + 1).1.lastAccepted; accepted.Some? && t <= accepted.value
  {
    hide After, Prepared, Told, InLog;
    HolesExactly(c, r, (r + 1) % c.n, t);
    PacketDeclares(c, r + 1, t);
  }

  /**
    A run of three nodes: node 2 misses the round of term 1, learns that terms up to 2 are
    accepted, is told of term 1 afterwards, and logs it behind term 2; node 1 has missed nothing
    and has it before.
   */
  lemma LogOutOfOrder() returns (c: Plan)
    ensures Example(c)
    ensures Before(After(c, 6).states[2].log, 2, 1) && Before(After(c, 6).states[1].log, 1, 2)
  {
    hide After, Prepared, Told, InLog, Before, LoggedIn, HasAccepted, Tidy;
    c := Plan(3, 3, 5, r => if r == 1 then {1} else {0, 1, 2}, r => r, r => r + 1);
    assert Example(c);
    ExamplePacket3(c);
    DeclaredAgain(c, 3, 2);
    DeclaredAgain(c, 4, 2);
    ExampleLogs(c, 1);
    ExampleLogs(c, 2);
    ToldDirectly(c, 2, 1, 3);
    ToldDirectly(c, 1, 1, 3);
    OrderExactly(c, 6, 1, 1, 2);
    OrderExactly(c, 6, 2, 1, 2);
    ReachableOk(c, 6);
    TidyNode(c, After(c, 6), 6, 2);
    TidyOnce(After(c, 6).states[2]);
    NotBoth(After(c, 6).states[2].log, 1, 2);
  }

  lemma ExampleLogs(c: Plan, j: nat)
    requires Example(c) && (j == 1 || j == 2)
    requires forall r: nat :: r == 3 || r == 5 ==>
      var accepted := Prepared(c, After(c, r), r).1.lastAccepted; accepted.Some? && 2 <= accepted.value
    ensures InLog(After(c, 6).states[j].log, 1) && InLog(After(c, 6).states[j].log, 2)
    ensures LoggedIn(c, j, 2, 6) == Some(3)
  {
    hide After, Prepared, Told, InLog, HasAccepted;
    ExampleRecovered(c);
    ToldDirectly(c, j, 2, 3);
    ToldDirectly(c, j, 2, 5);
    ToldOfOne(c, j);
    HolesExactly(c, 3, j, 2);
    HolesExactly(c, 5, j, 2);
    HolesExactly(c, 5, j, 1);
    NotLoggedEarly(c, 3, j, 2);
    LoggedInIs(c, 3, j, 2);
    LoggedStep(c, j, 2, 3);
    LoggedStep(c, j, 2, 4);
    LoggedStep(c, j, 2, 5);
  }

  lemma ToldOfOne(c: Plan, j: nat)
    requires Example(c) && j < 3 && After(c, 4).pbTerm == Some(1)
    ensures Told(c, j, 1, 5)
  {
    hide After;
    assert Tells(c, 4, 1) && j in c.parts(4);
  }
}
