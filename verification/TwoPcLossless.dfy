/**
  Logs of two-phase-commit pipeline runs without loss, as functions of the coins alone:
  what every node logs on every transaction, and exactly when all nodes agree.
 */
module TwoPcLossless {
  import opened Wrappers
  import opened Metrics
  import opened Network
  import opened Rotation
  import opened TwoPcRun
  import opened TwoPcSafety
  import opened TwoPcWindows
  import opened TwoPcDecisions
  import opened TwoPcLogs
  import opened TwoPcRecovery
  import opened TwoPcStops

  ghost predicate Lossless(c: Plan) {
    c.n >= 2 && forall r: nat, i: nat :: i < c.n ==> i in c.parts(r)
  }

  // ---------------------------------------------------------------- nobody asks for a verdict

  /** Every node takes part in every round that proposes a transaction. */
  ghost predicate AllMeet(c: Plan) {
    forall t: nat, i: nat :: t < c.txs && i < c.n ==> i in c.parts(t)
  }

  /** If all nodes meet all transactions no initiator misses any, and so no packet ever brings a verdict. */
  lemma NothingIsBrought(c: Plan, r: nat)
    requires ValidPlan(c) && AllMeet(c)
    ensures Sent(c, r).nack == 0
    ensures After(c, r).piggyback == None
  {
    hide After, Sent, Misses, SettledAt, AnswerOf;
    NoGap(c, r);
    if r > 0 {
      NoGap(c, r - 1);
      NothingUnasked(c, r - 1);
    } else {
      RunningAtStart(c);
    }
  }

  lemma NoGap(c: Plan, r: nat)
    requires ValidPlan(c) && AllMeet(c)
    ensures Sent(c, r).nack == 0
  {
    hide Sent, Misses, SettledAt;
    AsksExactly(c, r);
    forall t: nat ensures !Misses(c, r, t) {
      MissesExactly(c, r, t);
    }
  }

  // ---------------------------------------------------------------- everybody hears the same voices

  /** The nodes that have voted aloud for `t` in the rounds before `r`: its proposer, and the initiators not silent. */
  function Voices(c: Plan, t: nat, r: nat): (votes: set<nat>)
    requires c.n > 0
    ensures t % c.n in votes
    decreases r
  {
    if r <= t + 1 then {t % c.n}
    else Voices(c, t, r - 1) + if Silent(c, r - 1) then {} else {(r - 1) % c.n}
  }

  lemma {:induction false} VoicesAre(c: Plan, t: nat, r: nat, v: nat)
    requires c.n > 0
    ensures v in Voices(c, t, r) <==> v == t % c.n || exists q: nat :: t < q < r && !Silent(c, q) && v == q % c.n
    decreases r
  {
    hide Silent;
    if r > t + 1 {
      VoicesAre(c, t, r - 1, v);
      if v in Voices(c, t, r) && v !in Voices(c, t, r - 1) {
        assert t < r - 1 < r && !Silent(c, r - 1) && v == (r - 1) % c.n;
      }
    }
  }

  /** Whoever is heard for a later transaction is heard for this one. */
  lemma LaterVoices(c: Plan, t: nat, u: nat, r: nat)
    requires c.n > 0 && t <= u < r && (t < u ==> !Silent(c, u))
    ensures Voices(c, u, r) <= Voices(c, t, r)
  {
    hide Voices, Silent;
    forall v | v in Voices(c, u, r) ensures v in Voices(c, t, r) {
      VoicesAre(c, u, r, v);
      VoicesAre(c, t, r, v);
    }
  }

  lemma MoreVoices(c: Plan, t: nat, r: nat)
    requires c.n > 0 && t < r
    ensures Voices(c, t, r + 1) == Voices(c, t, r) + if Silent(c, r) then {} else {r % c.n}
  {
  }

  /** In a run without loss a node counts exactly the voices, and its own vote. */
  lemma {:induction false} LosslessVotes(c: Plan, j: nat, t: nat, r: nat)
    requires Lossless(c) && j < c.n && t < c.txs && t < r
    ensures VotesHeard(c, j, t, r) == Voices(c, t, r) + {j}
    decreases r, 0
  {
    hide Carried, Silent;
    if r > t + 1 {
      var q := r - 1;
      LosslessVotes(c, j, t, q);
      MoreHeard(c, j, t, q);
      MoreVoices(c, t, q);
      hide VotesHeard, Voices;
      CarriesItsInitiator(c, q);
      if q >= c.txs {
        TailCarries(c, q);
        LosslessTail(c, t, q);
      }
    } else {
      assert Voices(c, t, r) == {t % c.n};
    }
  }

  /** What a packet past the last transaction adds is nothing but its initiator's voice. */
  lemma LosslessTail(c: Plan, t: nat, q: nat)
    requires Lossless(c) && t < c.txs <= q
    requires Carried(c, q) == {q % c.n}
      || (!Silent(c, c.txs - 1) && Carried(c, q) == VotesHeard(c, q % c.n, c.txs - 1, q))
    ensures !Silent(c, q) && Voices(c, t, q) + Carried(c, q) == Voices(c, t, q) + {q % c.n}
    decreases q, 1
  {
    hide Carried, VotesHeard, Voices;
    if Carried(c, q) != {q % c.n} {
      LosslessVotes(c, q % c.n, c.txs - 1, q);
      LaterVoices(c, t, c.txs - 1, q);
    }
  }

  lemma TailCarries(c: Plan, q: nat)
    requires ValidPlan(c) && 0 < c.txs <= q
    ensures Carried(c, q) == {q % c.n}
      || (!Silent(c, c.txs - 1) && Carried(c, q) == VotesHeard(c, q % c.n, c.txs - 1, q))
  {
    hide Carried, VotesHeard;
    CarriesItsVotes(c, q);
    if StillOpen(c, q % c.n, c.txs - 1, q) {
      OpenIsNotSilent(c, q % c.n, c.txs - 1, q);
    }
  }

  /** A node that has a transaction open past its round has not been told to abort it. */
  lemma OpenIsNotSilent(c: Plan, i: nat, t: nat, q: nat)
    requires ValidPlan(c) && StillOpen(c, i, t, q) && t < q
    ensures !Silent(c, t) && !SaysAbort(c, t, i)
  {
    hide SettledAt;
    if SaysAbort(c, t, i) {
      NotSettledBefore(c, i, t, t);
      SettledOnce(c, i, t, t, q);
    }
  }

  // ---------------------------------------------------------------- what a node logs

  /** A round of the voting window of `t` whose initiator is silent. */
  predicate SilentIn(c: Plan, t: nat, q: nat)
    requires c.n > 0
  {
    t < q < t + c.n && Silent(c, q)
  }

  /**
    What node `j` logs on `t`: Committed if neither itself nor the proposer aborts it and nobody
    else is silent in the voting window.
   */
  ghost function LosslessVerdict(c: Plan, j: nat, t: nat): ProposalOutcome
    requires c.n > 0
  {
    if !SaysAbort(c, t, j) && forall q: nat :: SilentIn(c, t, q) ==> q % c.n == j then Committed else Aborted
  }

  /** The round in which node `j` decides `t`. */
  function DecidedIn(c: Plan, j: nat, t: nat): nat
    requires c.n > 0
  {
    if SaysAbort(c, t, j) then t else t + c.n
  }

  lemma FullCount(c: Plan, j: nat, t: nat)
    requires c.n > 0 && j < c.n
    ensures Upto(c.n) <= Voices(c, t, t + c.n) + {j} <==> forall q: nat :: SilentIn(c, t, q) ==> q % c.n == j
  {
    hide Voices, Silent, Upto, Inits;
    var voices := Voices(c, t, t + c.n);
    FullTurn(c.n, t);
    forall v: nat | v < c.n
      ensures v in voices <==> v == t % c.n || exists q: nat :: t < q < t + c.n && !Silent(c, q) && v == q % c.n
      ensures exists q: nat :: t <= q < t + c.n && v == q % c.n
    {
      VoicesAre(c, t, t + c.n, v);
      InitsAre(c.n, t, t + c.n, v);
    }
    if Upto(c.n) <= voices + {j} {
      forall q: nat | SilentIn(c, t, q) ensures q % c.n == j {
        InitiatorIsANode(c.n, q);
        OneTurnEach(c, t, q);
      }
    } else {
      var v :| v in Upto(c.n) && v !in voices + {j};
      var q: nat :| t <= q < t + c.n && v == q % c.n;
      assert SilentIn(c, t, q);
    }
  }

  /** A silent round of the window is its initiator's only one in it. */
  lemma OneTurnEach(c: Plan, t: nat, q: nat)
    requires c.n > 0 && SilentIn(c, t, q)
    ensures q % c.n != t % c.n && forall p: nat :: t < p < t + c.n && p % c.n == q % c.n ==> p == q
  {
    hide Silent;
    DifferentTurns(c.n, t, q);
    forall p: nat | t < p < t + c.n && p % c.n == q % c.n ensures p == q {
      if p < q {
        DifferentTurns(c.n, p, q);
      } else if q < p {
        DifferentTurns(c.n, q, p);
      }
    }
  }

  /** The round a full turn later adds the proposer's voice, which is no news. */
  lemma LosslessCount(c: Plan, j: nat, t: nat)
    requires Lossless(c) && j < c.n && t < c.txs
    ensures VotesAtClose(c, j, t, t + c.n) == Voices(c, t, t + c.n) + {j}
  {
    hide VotesHeard, Silent, Voices;
    var q := t + c.n;
    LosslessVotes(c, j, t, q);
    LosslessVotes(c, j, t, q + 1);
    MoreVoices(c, t, q);
    SameTurn(c.n, t);
    var voices := Voices(c, t, q);
    assert voices + {} == voices && (t % c.n in voices ==> voices + {t % c.n} == voices);
  }

  lemma LosslessIsValid(c: Plan)
    requires Lossless(c)
    ensures ValidPlan(c) && AllMeet(c)
  {
  }

  /** The round in which node `j` decides `t`, and its verdict. */
  lemma LosslessDecision(c: Plan, j: nat, t: nat, r: nat)
    requires Lossless(c) && j < c.n && t < c.txs
    ensures var q := DecidedIn(c, j, t);
      && (q < r ==> SettledAt(c, j, t, r) == Some(q)) && (r <= q ==> SettledAt(c, j, t, r) == None)
      && VerdictOf(c, j, t, q) == LosslessVerdict(c, j, t)
  {
    hide After, SettledAt, VotesHeard, Voices, SaysAbort, Upto, Silent;
    LosslessIsValid(c);
    forall s: nat ensures !Brings(c, s, t) {
      NothingIsBrought(c, s);
    }
    if SaysAbort(c, t, j) {
      AbortedAtOnce(c, j, t, r);
    } else {
      var q := t + c.n;
      assert Returns(c, j, t, q) && NotBrought(c, j, t, q);
      OpenTillReturn(c, j, t, q, if r <= q then r else q);
      if q < r {
        SettledOnce(c, j, t, q, r);
      }
      LosslessCount(c, j, t);
      FullCount(c, j, t);
    }
  }

  lemma AbortedAtOnce(c: Plan, j: nat, t: nat, r: nat)
    requires c.n > 0 && SaysAbort(c, t, j)
    ensures SettledAt(c, j, t, r) == if t < r then Some(t) else None
  {
    hide SettledAt;
    NotSettledBefore(c, j, t, if r <= t then r else t);
    if t < r {
      SettledOnce(c, j, t, t, r);
    }
  }

  /**
    Without loss, for any coins: a node that aborts `t`, or is told to, logs Aborted in the
    round of `t`; any other decides it a full turn later, Committed exactly if no initiator
    of the rounds between but itself aborts its own transaction.
   */
  lemma LosslessLogs(c: Plan, r: nat, j: nat, t: nat, o: ProposalOutcome)
    requires Lossless(c) && j < c.n && t < c.txs
    ensures (t, o) in After(c, r).states[j].log
      <==> o == LosslessVerdict(c, j, t) && DecidedIn(c, j, t) < r
  {
    hide After, SettledAt, VerdictOf, DecidedIn, LosslessVerdict;
    LosslessIsValid(c);
    LosslessDecision(c, j, t, r);
    LogExactly(c, r, j, t, o);
  }

  // ---------------------------------------------------------------- when a run ends

  ghost predicate AllDecided(c: Plan, txs: nat, r: nat)
    requires c.n > 0
  {
    forall j: nat :: j < c.n ==> NodeDecided(c, j, txs, r)
  }

  ghost predicate NodeDecided(c: Plan, j: nat, txs: nat, r: nat)
    requires c.n > 0
  {
    forall t: nat :: t < txs ==> DecidedIn(c, j, t) < r
  }

  predicate AbortedByAll(c: Plan, t: nat)
    requires c.n > 0
  {
    forall j: nat :: j < c.n ==> SaysAbort(c, t, j)
  }

  /** The rounds it takes until everybody has decided the first `txs` transactions. */
  function RoundsNeeded(c: Plan, txs: nat): (k: nat)
    requires c.n > 0
    ensures txs <= k
  {
    if txs == 0 then 0
    else
      var k, last := RoundsNeeded(c, txs - 1), if AbortedByAll(c, txs - 1) then txs else txs + c.n;
      if k < last then last else k
  }

  lemma {:induction false} NeededExactly(c: Plan, txs: nat, r: nat)
    requires c.n > 0
    ensures AllDecided(c, txs, r) <==> RoundsNeeded(c, txs) <= r
  {
    hide SaysAbort;
    if txs > 0 {
      NeededExactly(c, txs - 1, r);
      var t := txs - 1;
      forall j: nat ensures NodeDecided(c, j, txs, r) <==> NodeDecided(c, j, t, r) && DecidedIn(c, j, t) < r {
      }
      hide NodeDecided;
      if j: nat :| j < c.n && !SaysAbort(c, t, j) {
        assert AllDecided(c, txs, r) ==> NodeDecided(c, j, txs, r);
      } else {
        assert AbortedByAll(c, t) && DecidedIn(c, 0, t) == t;
        assert AllDecided(c, txs, r) ==> NodeDecided(c, 0, txs, r);
      }
    }
  }

  lemma LoggedExactly(c: Plan, r: nat, j: nat, t: nat)
    requires Lossless(c) && j < c.n && t < c.txs
    ensures InLog(After(c, r).states[j].log, t) <==> DecidedIn(c, j, t) < r
  {
    hide After, LosslessVerdict, SaysAbort;
    var log := After(c, r).states[j].log;
    if InLog(log, t) {
      var i :| 0 <= i < |log| && log[i].0 == t;
      LosslessLogs(c, r, j, t, log[i].1);
    }
    LosslessLogs(c, r, j, t, LosslessVerdict(c, j, t));
  }

  lemma ResolvedExactly(c: Plan, r: nat)
    requires Lossless(c)
    ensures AllResolved(After(c, r).states, c.txs) <==> RoundsNeeded(c, c.txs) <= r
  {
    hide After, DecidedIn, InLog, RoundsNeeded, NodeOk;
    LosslessIsValid(c);
    var states := After(c, r).states;
    forall j: nat | j < c.n ensures |states[j].log| >= c.txs <==> NodeDecided(c, j, c.txs, r) {
      LogIsFull(c, r, j);
      forall t: nat | t < c.txs ensures InLog(After(c, r).states[j].log, t) <==> DecidedIn(c, j, t) < r {
        LoggedExactly(c, r, j, t);
      }
    }
    hide NodeDecided;
    if AllResolved(states, c.txs) {
      forall j: nat | j < c.n ensures NodeDecided(c, j, c.txs, r) {
        assert |states[j].log| >= c.txs;
      }
    }
    NeededExactly(c, c.txs, r);
  }

  /**
    Without loss a run asks to stop after as many rounds as its coins need: up to a full turn
    after the last transaction that some node does not abort, unless the idle-round timeout
    comes first.
   */
  lemma {:induction false} LosslessLength(c: Plan, r: nat)
    requires Lossless(c)
    ensures After(c, r).stop <==> r > 0 && (RoundsNeeded(c, c.txs) <= r || r >= c.txs + 1002)
  {
    hide RoundOf, AllResolved, RoundsNeeded;
    if r > 0 {
      LosslessIsValid(c);
      LosslessLength(c, r - 1);
      StopsAfter(c, r - 1);
      ResolvedExactly(c, r);
    }
  }

  /** Without aborts that is a full turn after the last transaction, or the timeout. */
  lemma {:induction false} CalmLength(c: Plan, txs: nat)
    requires c.n > 0 && txs > 0 && forall t: nat, i: nat :: !c.aborts(t, i)
    ensures RoundsNeeded(c, txs) == txs + c.n
  {
    assert !SaysAbort(c, txs - 1, 0);
    if txs > 1 {
      CalmLength(c, txs - 1);
    }
  }

  // ---------------------------------------------------------------- when logs agree

  /** Nodes `j` and `k` have the same verdict, or none, on `t`. */
  ghost predicate SameVerdict(sys: Sys, j: nat, k: nat, t: nat)
    requires j < |sys.states| && k < |sys.states|
  {
    forall o :: (t, o) in sys.states[j].log <==> (t, o) in sys.states[k].log
  }

  lemma TwoAgree(c: Plan, r: nat, j: nat, k: nat, t: nat)
    requires Lossless(c) && j < c.n && k < c.n && t < c.txs && t + c.n < r
    ensures SameVerdict(After(c, r), j, k, t) <==> LosslessVerdict(c, j, t) == LosslessVerdict(c, k, t)
  {
    hide After, SettledAt, VerdictOf, SaysAbort, LosslessVerdict;
    LosslessIsValid(c);
    LosslessDecision(c, j, t, r);
    LosslessDecision(c, k, t, r);
    LogsAgree(c, r, j, k, t);
  }

  /**
    The coins on which all nodes agree about `t`: nobody is silent in its window, and nobody or
    everybody aborts it; or the one who could still commit it, a node that is alone in being
    silent there, aborts it too.
   */
  ghost predicate Agreeable(c: Plan, t: nat)
    requires c.n > 0
  {
    if exists q: nat :: SilentIn(c, t, q) then
      forall q: nat :: SilentIn(c, t, q) ==> SaysAbort(c, t, q % c.n) || Another(c, t, q)
    else !Doomed(c, t) || forall j: nat :: j < c.n ==> SaysAbort(c, t, j)
  }

  ghost predicate Another(c: Plan, t: nat, q: nat)
    requires c.n > 0
  {
    exists p: nat :: p != q && SilentIn(c, t, p)
  }

  /** The node that could commit although somebody is silent. */
  lemma SilentVerdicts(c: Plan, t: nat, q: nat)
    requires c.n >= 2 && SilentIn(c, t, q)
    ensures forall j: nat :: j < c.n ==>
      (LosslessVerdict(c, j, t) == Committed <==> j == q % c.n && !SaysAbort(c, t, j) && !Another(c, t, q))
  {
    hide Silent, SaysAbort;
    OneTurnEach(c, t, q);
    if p: nat :| p != q && SilentIn(c, t, p) {
      assert p % c.n != q % c.n;
    }
  }

  lemma QuietVerdicts(c: Plan, t: nat)
    requires c.n > 0 && forall q: nat :: !SilentIn(c, t, q)
    ensures forall j: nat :: j < c.n ==> (LosslessVerdict(c, j, t) == Committed <==> !SaysAbort(c, t, j))
  {
    hide SaysAbort, SilentIn;
  }

  /** Somebody's coin aborts `t` exactly if some node says so. */
  lemma DoomedBySomebody(c: Plan, t: nat)
    requires Lossless(c)
    ensures Doomed(c, t) <==> exists j: nat :: j < c.n && SaysAbort(c, t, j)
  {
    LosslessIsValid(c);
    DoomedInTheEnd(c, t);
    hide SaysAbort, Doomed;
  }

  lemma VerdictsAgree(c: Plan, t: nat)
    requires Lossless(c)
    ensures (forall j: nat, k: nat :: j < c.n && k < c.n ==> LosslessVerdict(c, j, t) == LosslessVerdict(c, k, t))
      <==> Agreeable(c, t)
  {
    hide LosslessVerdict, SaysAbort, SilentIn, Another, Doomed;
    DoomedBySomebody(c, t);
    forall j: nat | j < c.n ensures LosslessVerdict(c, j, t) == Committed || LosslessVerdict(c, j, t) == Aborted {
      TwoVerdicts(c, j, t);
    }
    if q: nat :| SilentIn(c, t, q) {
      SilentAgree(c, t, q);
    } else {
      QuietVerdicts(c, t);
    }
  }

  lemma TwoVerdicts(c: Plan, j: nat, t: nat)
    requires c.n > 0
    ensures LosslessVerdict(c, j, t) == Committed || LosslessVerdict(c, j, t) == Aborted
  {
  }

  lemma SilentAgree(c: Plan, t: nat, q: nat)
    requires Lossless(c) && SilentIn(c, t, q)
    ensures (forall j: nat, k: nat :: j < c.n && k < c.n ==> LosslessVerdict(c, j, t) == LosslessVerdict(c, k, t))
      <==> forall q: nat :: SilentIn(c, t, q) ==> SaysAbort(c, t, q % c.n) || Another(c, t, q)
  {
    hide LosslessVerdict, SaysAbort, SilentIn, Another;
    forall p: nat | SilentIn(c, t, p)
      ensures p % c.n < c.n && p % c.n != t % c.n
      ensures forall j: nat :: j < c.n ==>
        (LosslessVerdict(c, j, t) == Committed <==> j == p % c.n && !SaysAbort(c, t, j) && !Another(c, t, p))
    {
      SilentVerdicts(c, t, p);
      OneTurnEach(c, t, p);
    }
    forall j: nat | j < c.n ensures LosslessVerdict(c, j, t) == Committed || LosslessVerdict(c, j, t) == Aborted {
      TwoVerdicts(c, j, t);
    }
    if forall j: nat, k: nat :: j < c.n && k < c.n ==> LosslessVerdict(c, j, t) == LosslessVerdict(c, k, t) {
      forall p: nat | SilentIn(c, t, p) ensures SaysAbort(c, t, p % c.n) || Another(c, t, p) {
        assert LosslessVerdict(c, p % c.n, t) == LosslessVerdict(c, t % c.n, t);
      }
    }
  }

  /** Without loss all nodes hold the same verdict on `t` exactly if the coins are agreeable. */
  lemma AllAgree(c: Plan, r: nat, t: nat)
    requires Lossless(c) && t < c.txs && t + c.n < r
    ensures (forall j: nat, k: nat :: j < c.n && k < c.n ==> SameVerdict(After(c, r), j, k, t)) <==> Agreeable(c, t)
  {
    hide After, LosslessVerdict, SameVerdict, Agreeable;
    VerdictsAgree(c, t);
    forall j: nat, k: nat | j < c.n && k < c.n
      ensures SameVerdict(After(c, r), j, k, t) <==> LosslessVerdict(c, j, t) == LosslessVerdict(c, k, t)
    {
      TwoAgree(c, r, j, k, t);
    }
    if Agreeable(c, t) {
      forall j: nat, k: nat | j < c.n && k < c.n ensures SameVerdict(After(c, r), j, k, t) {
        assert LosslessVerdict(c, j, t) == LosslessVerdict(c, k, t);
      }
    } else {
      var j: nat, k: nat :| j < c.n && k < c.n && LosslessVerdict(c, j, t) != LosslessVerdict(c, k, t);
      assert !SameVerdict(After(c, r), j, k, t);
    }
  }

  // ---------------------------------------------------------------- a run

  lemma {:induction false} AbortRecorded(c: Plan, t: nat, r: nat)
    requires c.n > 0 && t < c.txs && Doomed(c, t) && t < r
    ensures Record(t, c.preparedAt(t), c.processedAt(t), Aborted) in RecordsAfter(c, r)
  {
    hide Closing, Doomed;
    if t < r - 1 {
      AbortRecorded(c, t, r - 1);
    }
  }

  /**
    Two nodes, three transactions, nothing lost, and the second node aborts the first
    transaction: it logs Aborted and so do the records, yet the proposer logs Committed, by the
    vote the second node casts for the next one.
   */
  lemma AbortIsCommitted() returns (c: Plan)
    ensures Lossless(c) && c.n == 2 && c.txs == 3
    ensures forall r: nat, i: nat :: c.aborts(r, i) <==> r == 0 && i == 1
    ensures forall r: nat :: r >= 3 ==>
      && (0, Committed) in After(c, r).states[0].log && (0, Aborted) in After(c, r).states[1].log
      && Record(0, c.preparedAt(0), c.processedAt(0), Aborted) in After(c, r).records
  {
    hide After, RecordsAfter;
    c := Plan(2, 3, r => {0, 1}, (r, i) => r == 0 && i == 1, r => r, r => r + 1);
    assert SaysAbort(c, 0, 1) && !SaysAbort(c, 0, 0) && forall q: nat :: !SilentIn(c, 0, q);
    assert 1 < c.n && 1 in c.parts(0) && c.aborts(0, 1);
    assert Doomed(c, 0);
    forall r: nat | r >= 3
      ensures (0, Committed) in After(c, r).states[0].log && (0, Aborted) in After(c, r).states[1].log
      ensures Record(0, c.preparedAt(0), c.processedAt(0), Aborted) in After(c, r).records
    {
      LosslessLogs(c, r, 0, 0, Committed);
      LosslessLogs(c, r, 1, 0, Aborted);
      DecidesOnTime(c, r);
      AbortRecorded(c, 0, r);
    }
  }
}
