/** What every two-phase-commit pipeline run keeps, and when and how transactions are decided. */
module TwoPcSafety {
  import opened Bitmaps
  import opened Messages
  import opened Metrics
  import opened Ledger
  import opened TwoPcRun

  /** Some node that takes part in round `t` aborts the transaction proposed in it. */
  ghost predicate Doomed(c: Plan, t: nat) {
    exists i: nat :: i < c.n && i in c.parts(t) && c.aborts(t, i)
  }

  // ---------------------------------------------------------------- one node

  ghost predicate Tidy(st: TwoPcState) {
    && (forall j, k :: 0 <= j < k < |st.pending| ==> st.pending[j].tx != st.pending[k].tx)
    && (forall j, k :: 0 <= j < k < |st.log| ==> st.log[j].0 != st.log[k].0)
    && (forall k :: 0 <= k < |st.pending| ==> !InLog(st.log, st.pending[k].tx))
  }

  /** A verdict that may stand after `r` rounds: without an abort it takes a full voting window, a commit always. */
  ghost predicate Due(c: Plan, v: (nat, ProposalOutcome), r: nat, terms: nat) {
    && v.0 < terms
    && v.1 != TimedOut
    && (v.1 == Committed || !Doomed(c, v.0) ==> v.0 + c.n < r)
  }

  ghost predicate AllDue(c: Plan, vs: seq<(nat, ProposalOutcome)>, r: nat, terms: nat) {
    forall k :: 0 <= k < |vs| ==> Due(c, vs[k], r, terms)
  }

  ghost predicate EntryOk(c: Plan, p: PendingTx, terms: nat) {
    p.tx < terms && p.startRound == p.tx && |p.bits| == c.n && p.data == Tx(p.tx) && (p.abort ==> Doomed(c, p.tx))
  }

  ghost predicate NodeOk(c: Plan, st: TwoPcState, r: nat, terms: nat) {
    && Tidy(st)
    && AllDue(c, st.log, r, terms)
    && forall k :: 0 <= k < |st.pending| ==> EntryOk(c, st.pending[k], terms)
  }

  /** No transaction from before round `r` carries an abort flag. */
  ghost predicate Unflagged(st: TwoPcState, r: nat) {
    forall k :: 0 <= k < |st.pending| ==> st.pending[k].abort ==> st.pending[k].tx >= r
  }

  ghost predicate Decides(vs: seq<(nat, ProposalOutcome)>, t: nat) {
    exists k :: 0 <= k < |vs| && vs[k].0 == t
  }

  /** `st'` lost only pending transactions that `vs` decides. */
  ghost predicate Keeps(st: TwoPcState, st': TwoPcState, vs: seq<(nat, ProposalOutcome)>) {
    && (forall p :: p in st'.pending ==> p in st.pending)
    && (forall p :: p in st.pending && !Decides(vs, p.tx) ==> p in st'.pending)
  }

  lemma FinalizeKeeps(st: TwoPcState, v: (nat, ProposalOutcome))
    ensures Keeps(st, Finalized(st, v.0, v.1), [v])
  {
    hide InLog;
    var pos := Position(st.pending, v.0);
    assert [v][0].0 == v.0;
    if !InLog(st.log, v.0) && pos.Some? {
      var pending' := st.pending[..pos.value] + st.pending[pos.value + 1..];
      forall p | p in st.pending && p.tx != v.0 ensures p in pending' {
        var k :| 0 <= k < |st.pending| && st.pending[k] == p;
        assert pending'[if k < pos.value then k else k - 1] == p;
      }
    }
  }

  lemma LogGrows(log: seq<(nat, ProposalOutcome)>, v: (nat, ProposalOutcome))
    ensures forall t: nat :: InLog(log + [v], t) <==> InLog(log, t) || t == v.0
  {
    forall t: nat ensures InLog(log + [v], t) <==> InLog(log, t) || t == v.0 {
      if InLog(log, t) {
        var k :| 0 <= k < |log| && log[k].0 == t;
        assert (log + [v])[k].0 == t;
      }
      assert (log + [v])[|log|].0 == v.0;
    }
  }

  lemma FinalizeTidy(st: TwoPcState, v: (nat, ProposalOutcome))
    requires Tidy(st)
    ensures Tidy(Finalized(st, v.0, v.1))
  {
    if !InLog(st.log, v.0) {
      LogGrows(st.log, v);
      NotLogged(st.log, v.0);
      hide InLog;
      var pos := Position(st.pending, v.0);
      if pos.Some? {
        assert forall k :: 0 <= k < |st.pending| && k != pos.value ==> st.pending[k].tx != v.0;
      }
    }
  }

  lemma NotLogged(log: seq<(nat, ProposalOutcome)>, t: nat)
    requires !InLog(log, t)
    ensures forall k :: 0 <= k < |log| ==> log[k].0 != t
  {
  }

  lemma FinalizeOk(c: Plan, st: TwoPcState, r: nat, terms: nat, v: (nat, ProposalOutcome))
    requires NodeOk(c, st, r, terms) && Due(c, v, r, terms)
    ensures NodeOk(c, Finalized(st, v.0, v.1), r, terms)
    ensures Keeps(st, Finalized(st, v.0, v.1), [v])
  {
    FinalizeTidy(st, v);
    FinalizeKeeps(st, v);
    hide Tidy, Due, EntryOk, InLog, IsPending;
  }

  lemma KeepsAll(st: TwoPcState, st1: TwoPcState, st2: TwoPcState,
                 vs: seq<(nat, ProposalOutcome)>, v: (nat, ProposalOutcome))
    requires Keeps(st, st1, vs) && Keeps(st1, st2, [v])
    ensures Keeps(st, st2, vs + [v])
  {
    forall t | Decides(vs, t) || Decides([v], t) ensures Decides(vs + [v], t) {
      if Decides(vs, t) {
        var j :| 0 <= j < |vs| && vs[j].0 == t;
        assert (vs + [v])[j].0 == t;
      } else {
        assert (vs + [v])[|vs|].0 == t;
      }
    }
  }

  lemma {:induction false} FinalizeAllOk(c: Plan, st: TwoPcState, r: nat, terms: nat,
                                         vs: seq<(nat, ProposalOutcome)>)
    requires NodeOk(c, st, r, terms) && AllDue(c, vs, r, terms)
    ensures NodeOk(c, FinalizedAll(st, vs), r, terms)
    ensures Keeps(st, FinalizedAll(st, vs), vs)
  {
    hide NodeOk, Finalized, Due;
    if vs != [] {
      var k := |vs| - 1;
      FinalizeAllOk(c, st, r, terms, vs[..k]);
      FinalizeOk(c, FinalizedAll(st, vs[..k]), r, terms, vs[k]);
      hide Keeps;
      assert vs == vs[..k] + [vs[k]];
      KeepsAll(st, FinalizedAll(st, vs[..k]), FinalizedAll(st, vs), vs[..k], vs[k]);
    }
  }

  /** The verdicts of a round are on transactions whose window is over, one for each such pending transaction. */
  lemma {:induction false} VerdictsAre(pending: seq<PendingTx>, k: nat, r: nat, n: nat)
    requires k <= |pending|
    ensures forall j :: 0 <= j < |Verdicts(pending, k, r, n)| ==>
      var v := Verdicts(pending, k, r, n)[j];
      && v.1 == (if Unanimous(pending, v.0) then Committed else Aborted)
      && exists m :: 0 <= m < k && pending[m].tx == v.0 && r >= pending[m].startRound + n
    ensures forall m :: 0 <= m < k && r >= pending[m].startRound + n ==>
      (pending[m].tx, if Unanimous(pending, pending[m].tx) then Committed else Aborted) in Verdicts(pending, k, r, n)
  {
    hide Unanimous;
    if k > 0 {
      VerdictsAre(pending, k - 1, r, n);
    }
  }

  lemma VerdictsDue(c: Plan, st: TwoPcState, r: nat, terms: nat)
    requires forall k :: 0 <= k < |st.pending| ==> EntryOk(c, st.pending[k], terms)
    ensures AllDue(c, Verdicts(st.pending, |st.pending|, r, c.n), r + 1, terms)
    ensures forall t: nat :: t + c.n > r ==> !Decides(Verdicts(st.pending, |st.pending|, r, c.n), t)
  {
    VerdictsAre(st.pending, |st.pending|, r, c.n);
    hide Unanimous;
  }

  lemma {:induction false} FastAbortsAre(pending: seq<PendingTx>)
    ensures forall j :: 0 <= j < |FastAborts(pending)| ==>
      FastAborts(pending)[j].1 == Aborted
      && exists m :: 0 <= m < |pending| && pending[m].tx == FastAborts(pending)[j].0 && pending[m].abort
  {
    if pending != [] {
      var k := |pending| - 1;
      FastAbortsAre(pending[..k]);
      var before, vs := FastAborts(pending[..k]), FastAborts(pending);
      forall j | 0 <= j < |vs|
        ensures vs[j].1 == Aborted && exists m :: 0 <= m < |pending| && pending[m].tx == vs[j].0 && pending[m].abort
      {
        if j < |before| {
          assert vs[j] == before[j];
          var m :| 0 <= m < k && pending[..k][m].tx == before[j].0 && pending[..k][m].abort;
          assert pending[m] == pending[..k][m];
        } else {
          assert vs[j] == (pending[k].tx, Aborted) && pending[k].abort;
        }
      }
    }
  }

  lemma {:induction false} FlaggedAreAborted(pending: seq<PendingTx>, p: PendingTx)
    requires p in pending && p.abort
    ensures Decides(FastAborts(pending), p.tx)
  {
    var k := |pending| - 1;
    var before, vs := FastAborts(pending[..k]), FastAborts(pending);
    if pending[k] == p {
      assert vs[|before|].0 == p.tx;
    } else {
      assert pending == pending[..k] + [pending[k]];
      FlaggedAreAborted(pending[..k], p);
      var j :| 0 <= j < |before| && before[j].0 == p.tx;
      assert vs[j].0 == p.tx;
    }
  }

  lemma LaterRound(c: Plan, st: TwoPcState, r: nat, terms: nat, terms': nat)
    requires NodeOk(c, st, r, terms) && terms <= terms'
    ensures NodeOk(c, st, r + 1, terms')
  {
  }

  // ---------------------------------------------------------------- receiving

  ghost predicate PacketOk(c: Plan, pkt: Packet, r: nat, terms: nat)
    requires c.n > 0
  {
    && |pkt.bits| == c.n && pkt.tx <= r
    && (pkt.abort ==> pkt.data != Empty)
    && (!pkt.abort ==> pkt.bits[r % c.n])
    && (pkt.data != Empty ==>
          pkt.tx == r < terms && pkt.data == Tx(r) && pkt.abort == c.aborts(r, r % c.n)
          && Voters(pkt.bits) == if pkt.abort then {} else {r % c.n})
    && (pkt.data == Empty ==> terms <= pkt.tx + 1)
    && (pkt.piggyback.Some? ==> Due(c, pkt.piggyback.value, r, terms))
  }

  lemma TakeOk(c: Plan, st: TwoPcState, i: nat, r: nat, terms: nat, pkt: Packet)
    requires ValidPlan(c) && i < c.n && i in c.parts(r) && NodeOk(c, st, r + 1, terms) && PacketOk(c, pkt, r, terms)
    ensures NodeOk(c, TakeTx(c, st, i, r, pkt), r + 1, terms)
  {
    hide Voters, Due;
  }

  lemma MergeOk(c: Plan, st: TwoPcState, r: nat, terms: nat, t: nat, bits: seq<bool>, abort: bool)
    requires NodeOk(c, st, r, terms) && (abort ==> Doomed(c, t))
    ensures NodeOk(c, st.(pending := MergedVotes(st.pending, t, bits, abort)), r, terms)
  {
  }

  lemma HeardOk(c: Plan, st: TwoPcState, i: nat, r: nat, terms: nat, pkt: Packet)
    requires ValidPlan(c) && i < c.n && i in c.parts(r) && NodeOk(c, st, r + 1, terms) && PacketOk(c, pkt, r, terms)
    ensures NodeOk(c, Heard(c, st, i, r, pkt), r + 1, terms)
  {
    TakeOk(c, st, i, r, terms, pkt);
    var st1 := TakeTx(c, st, i, r, pkt);
    MergeOk(c, st1, r + 1, terms, pkt.tx, pkt.bits, pkt.abort);
    var st2 := st1.(pending := MergedVotes(st1.pending, pkt.tx, pkt.bits, pkt.abort));
    MergeOk(c, st2, r + 1, terms, pkt.tx, OneBit(c.n, i), false);
    hide NodeOk, TakeTx, MergedVotes, OneBit, Voters;
  }

  /** From `st` to `st'` no transaction that is still being voted on is lost, but for doomed ones. */
  ghost predicate OpenAfter(c: Plan, st: TwoPcState, st': TwoPcState, r: nat) {
    forall p :: p in st.pending && p.tx + c.n > r && !Doomed(c, p.tx) ==> p in st'.pending
  }

  lemma FastOk(c: Plan, st: TwoPcState, r: nat, terms: nat)
    requires NodeOk(c, st, r, terms)
    ensures NodeOk(c, FinalizedAll(st, FastAborts(st.pending)), r, terms)
    ensures Keeps(st, FinalizedAll(st, FastAborts(st.pending)), FastAborts(st.pending))
    ensures forall q :: Unflagged(FinalizedAll(st, FastAborts(st.pending)), q)
  {
    FastAbortsAre(st.pending);
    var vs := FastAborts(st.pending);
    assert AllDue(c, vs, r, terms);
    FinalizeAllOk(c, st, r, terms, vs);
    var st' := FinalizedAll(st, vs);
    hide FastAborts, Due, EntryOk, FinalizedAll;
    forall k | 0 <= k < |st'.pending| ensures !st'.pending[k].abort {
      var p := st'.pending[k];
      assert p in st.pending && !InLog(st'.log, p.tx);
      assert p.abort ==> InLog(st'.log, p.tx) by {
        if p.abort {
          FlaggedAreAborted(st.pending, p);
          FinalizedLogs(st, vs, p.tx);
        }
      }
    }
  }

  lemma {:induction false} FinalizedLogs(st: TwoPcState, vs: seq<(nat, ProposalOutcome)>, t: nat)
    requires Decides(vs, t) || InLog(st.log, t)
    ensures InLog(FinalizedAll(st, vs).log, t)
  {
    if vs != [] {
      var k := |vs| - 1;
      var before := FinalizedAll(st, vs[..k]);
      LogGrows(before.log, vs[k]);
      if vs[k].0 != t {
        if Decides(vs, t) {
          var j :| 0 <= j < |vs| && vs[j].0 == t;
          assert vs[..k][j].0 == t;
        }
        FinalizedLogs(st, vs[..k], t);
      }
    }
  }

  /** Fast aborts and piggybacked verdicts touch no open transaction that is not doomed, and leave no flags. */
  lemma LearnOk(c: Plan, st: TwoPcState, r: nat, terms: nat, pkt: Packet)
    requires c.n > 0 && NodeOk(c, st, r + 1, terms) && PacketOk(c, pkt, r, terms)
    ensures NodeOk(c, Learned(st, pkt), r + 1, terms)
    ensures OpenAfter(c, st, Learned(st, pkt), r)
    ensures forall q :: Unflagged(Learned(st, pkt), q)
  {
    FastOk(c, st, r + 1, terms);
    FastAbortsDoomed(c, st, terms);
    hide NodeOk, Finalized, FastAborts;
    if pkt.piggyback.Some? {
      var v, st1 := pkt.piggyback.value, FinalizedAll(st, FastAborts(st.pending));
      FinalizeOk(c, st1, r + 1, terms, v);
      assert forall t: nat :: Decides([v], t) ==> t == v.0;
      FewerFlags(st1, Finalized(st1, v.0, v.1));
    }
  }

  lemma FewerFlags(st: TwoPcState, st': TwoPcState)
    requires (forall q :: Unflagged(st, q)) && forall p :: p in st'.pending ==> p in st.pending
    ensures forall q :: Unflagged(st', q)
  {
    forall k | 0 <= k < |st'.pending| ensures !st'.pending[k].abort {
      assert st'.pending[k] in st.pending;
      assert Unflagged(st, st'.pending[k].tx + 1);
    }
  }

  lemma FastAbortsDoomed(c: Plan, st: TwoPcState, terms: nat)
    requires forall k :: 0 <= k < |st.pending| ==> EntryOk(c, st.pending[k], terms)
    ensures forall t: nat :: Decides(FastAborts(st.pending), t) ==> Doomed(c, t)
  {
    FastAbortsAre(st.pending);
    hide FastAborts, Doomed;
  }

  lemma CloseOk(c: Plan, st: TwoPcState, r: nat, terms: nat)
    requires NodeOk(c, st, r + 1, terms)
    ensures NodeOk(c, Closed(st, r, c.n), r + 1, terms)
    ensures forall p :: p in st.pending && p.tx + c.n > r ==> p in Closed(st, r, c.n).pending
    ensures forall p :: p in Closed(st, r, c.n).pending ==> p in st.pending
  {
    VerdictsDue(c, st, r, terms);
    FinalizeAllOk(c, st, r + 1, terms, Verdicts(st.pending, |st.pending|, r, c.n));
    hide NodeOk, FinalizedAll, Verdicts;
  }

  lemma VerdictDue(c: Plan, log: seq<(nat, ProposalOutcome)>, r: nat, terms: nat, t: nat)
    requires AllDue(c, log, r, terms) && Verdict(log, t).Some?
    ensures Due(c, (t, Verdict(log, t).value), r, terms)
  {
    hide Verdict, Due;
  }

  // ---------------------------------------------------------------- the whole system

  ghost predicate AllOk(c: Plan, sys: Sys, r: nat) {
    && |sys.states| == c.n
    && (forall j :: 0 <= j < c.n ==> NodeOk(c, sys.states[j], r, sys.txCounter))
    && (sys.piggyback.Some? ==> Due(c, sys.piggyback.value, r, sys.txCounter))
    && Clocked(c, sys, r)
  }

  ghost predicate Clocked(c: Plan, sys: Sys, r: nat) {
    && sys.generated == sys.txCounter == (if r < c.txs then r else c.txs)
    && forall t: nat :: t < sys.txCounter ==> t in sys.starts && sys.starts[t] == c.preparedAt(t)
  }

  lemma NewTxOk(c: Plan, st: TwoPcState, r: nat, p: PendingTx)
    requires NodeOk(c, st, r, p.tx) && EntryOk(c, p, p.tx + 1)
    ensures NodeOk(c, st.(pending := st.pending + [p]), r + 1, p.tx + 1)
  {
    LaterRound(c, st, r, p.tx, p.tx + 1);
  }

  lemma ProposeOk(c: Plan, sys: Sys, r: nat)
    requires ValidPlan(c) && AllOk(c, sys, r)
    ensures NodeOk(c, WithProposal(c, sys, r), r + 1,
                   sys.txCounter + if sys.generated < c.txs then 1 else 0)
  {
    var i := r % c.n;
    assert NodeOk(c, sys.states[i], r, sys.txCounter);
    if sys.generated < c.txs {
      var st := WithProposal(c, sys, r);
      NewTxOk(c, sys.states[i], r, st.pending[|st.pending| - 1]);
    } else {
      LaterRound(c, sys.states[i], r, sys.txCounter, sys.txCounter);
    }
  }

  lemma {:induction false} EntryHere(pending: seq<PendingTx>, t: nat, p: PendingTx)
    requires p in pending && p.tx == t
    requires forall j, k :: 0 <= j < k < |pending| ==> pending[j].tx != pending[k].tx
    ensures Position(pending, t).Some? && pending[Position(pending, t).value] == p
  {
    var k :| 0 <= k < |pending| && pending[k] == p;
  }

  /** The flags of a fresh transaction are the initiator's alone; the initiator's own bit is set unless it aborts. */
  lemma FlagsOk(c: Plan, st: TwoPcState, t: nat, i: nat, r: nat, terms: nat)
    requires NodeOk(c, st, r, terms) && i < c.n
    ensures var (bits, abort) := FlagsFor(st, c.n, t, i);
      |bits| == c.n && (!abort ==> bits[i]) && (abort ==> exists p :: p in st.pending && p.tx == t && p.abort)
  {
  }

  /** What the initiator of round `t` enters for its new transaction: its vote, or its abort. */
  ghost function FreshEntry(c: Plan, t: nat): PendingTx
    requires c.n > 0
  {
    var abort := c.aborts(t, t % c.n);
    PendingTx(t, Tx(t), if abort then NoBits(c.n) else OneBit(c.n, t % c.n), abort, t)
  }

  lemma FreshFlags(c: Plan, st: TwoPcState, t: nat)
    requires c.n > 0 && Tidy(st) && FreshEntry(c, t) in st.pending
    ensures var (bits, abort) := FlagsFor(st, c.n, t, t % c.n);
      abort == c.aborts(t, t % c.n) && Voters(bits) == if abort then {} else {t % c.n}
  {
    EntryHere(st.pending, t, FreshEntry(c, t));
  }

  /** What the initiator holds once it has proposed and closed what was due. */
  ghost function Opened(c: Plan, sys: Sys, r: nat): TwoPcState
    requires |sys.states| == c.n > 0
  {
    var st := WithProposal(c, sys, r);
    FinalizedAll(st, Verdicts(st.pending, |st.pending|, r, c.n))
  }

  lemma OpenedOk(c: Plan, sys: Sys, r: nat)
    requires ValidPlan(c) && AllOk(c, sys, r)
    ensures NodeOk(c, Opened(c, sys, r), r + 1, sys.txCounter + (if sys.generated < c.txs then 1 else 0))
    ensures var st := WithProposal(c, sys, r);
      && (forall p :: p in st.pending && p.tx + c.n > r ==> p in Opened(c, sys, r).pending)
      && (forall p :: p in Opened(c, sys, r).pending ==> p in st.pending)
  {
    ProposeOk(c, sys, r);
    CloseOk(c, WithProposal(c, sys, r), r, sys.txCounter + (if sys.generated < c.txs then 1 else 0));
    hide NodeOk, WithProposal;
    assert Opened(c, sys, r) == Closed(WithProposal(c, sys, r), r, c.n);
  }

  lemma OthersOk(c: Plan, sys: Sys, r: nat, terms: nat)
    requires AllOk(c, sys, r) && sys.txCounter <= terms
    ensures forall j :: 0 <= j < c.n ==> NodeOk(c, sys.states[j], r + 1, terms)
  {
    forall j | 0 <= j < c.n ensures NodeOk(c, sys.states[j], r + 1, terms) {
      LaterRound(c, sys.states[j], r, sys.txCounter, terms);
    }
  }

  lemma OpenedState(c: Plan, sys: Sys, r: nat)
    requires |sys.states| == c.n > 0
    ensures Prepared(c, sys, r).0.states == sys.states[r % c.n := Opened(c, sys, r)]
    ensures Prepared(c, sys, r).1.tx == CurrentTx(c, sys)
    ensures (Prepared(c, sys, r).1.bits, Prepared(c, sys, r).1.abort)
         == FlagsFor(Opened(c, sys, r), c.n, CurrentTx(c, sys), r % c.n)
    ensures Prepared(c, sys, r).1.data == if sys.generated < c.txs then Tx(CurrentTx(c, sys)) else Empty
    ensures Prepared(c, sys, r).1.piggyback == sys.piggyback
  {
    hide WithProposal, FlagsFor, AnnouncedAll, FirstMissing, Verdicts, FinalizedAll;
  }

  lemma OpenedUnflagged(c: Plan, sys: Sys, r: nat)
    requires ValidPlan(c) && AllOk(c, sys, r) && Unflagged(sys.states[r % c.n], r)
    ensures Unflagged(Opened(c, sys, r), r)
  {
    OpenedOk(c, sys, r);
    var st, held := WithProposal(c, sys, r), Opened(c, sys, r);
    assert Unflagged(st, r);
    hide Opened, WithProposal;
    forall k | 0 <= k < |held.pending| ensures held.pending[k].abort ==> held.pending[k].tx >= r {
      assert held.pending[k] in st.pending;
    }
  }

  lemma PacketIsOk(c: Plan, sys: Sys, r: nat)
    requires ValidPlan(c) && AllOk(c, sys, r) && Unflagged(sys.states[r % c.n], r)
    ensures PacketOk(c, Prepared(c, sys, r).1, r, Prepared(c, sys, r).0.txCounter)
  {
    hide Prepared, NodeOk, Opened, FlagsFor, Voters;
    var (sys', pkt) := Prepared(c, sys, r);
    var i := r % c.n;
    OpenedState(c, sys, r);
    OpenedOk(c, sys, r);
    CounterStep(c, sys, r);
    FlagsOk(c, Opened(c, sys, r), pkt.tx, i, r + 1, sys'.txCounter);
    if sys.generated < c.txs {
      FreshIsOpen(c, sys, r);
      FreshFlags(c, Opened(c, sys, r), r);
    } else {
      OpenedUnflagged(c, sys, r);
      NoFlagsLeft(c, Opened(c, sys, r), r, sys'.txCounter);
    }
  }

  lemma NoFlagsLeft(c: Plan, st: TwoPcState, r: nat, terms: nat)
    requires NodeOk(c, st, r + 1, terms) && Unflagged(st, r) && terms <= r
    ensures forall p :: p in st.pending ==> !p.abort
  {
    forall p | p in st.pending ensures !p.abort {
      var k :| 0 <= k < |st.pending| && st.pending[k] == p;
      assert EntryOk(c, st.pending[k], terms);
    }
  }

  lemma CounterStep(c: Plan, sys: Sys, r: nat)
    requires |sys.states| == c.n > 0
    ensures Prepared(c, sys, r).0.txCounter == sys.txCounter + if sys.generated < c.txs then 1 else 0
    ensures Prepared(c, sys, r).0.generated == sys.generated + if sys.generated < c.txs then 1 else 0
    ensures Prepared(c, sys, r).0.starts
         == if sys.generated < c.txs then sys.starts[sys.txCounter := c.preparedAt(r)] else sys.starts
    ensures Prepared(c, sys, r).0.piggyback == sys.piggyback
  {
    hide WithProposal, FlagsFor, AnnouncedAll, FirstMissing, Verdicts, FinalizedAll;
  }

  lemma FreshIsOpen(c: Plan, sys: Sys, r: nat)
    requires ValidPlan(c) && AllOk(c, sys, r) && sys.generated < c.txs
    ensures Tidy(Opened(c, sys, r)) && FreshEntry(c, r) in Opened(c, sys, r).pending
  {
    OpenedOk(c, sys, r);
    var st := WithProposal(c, sys, r);
    assert st.pending[|st.pending| - 1] == FreshEntry(c, r);
    assert st.pending[|st.pending| - 1] in st.pending;
    hide Opened, WithProposal;
  }

  lemma PreparedNodes(c: Plan, sys: Sys, r: nat)
    requires ValidPlan(c) && AllOk(c, sys, r)
    ensures |sys.states| == c.n
    ensures forall j :: 0 <= j < c.n ==>
      NodeOk(c, Prepared(c, sys, r).0.states[j], r + 1, Prepared(c, sys, r).0.txCounter)
  {
    hide Prepared, NodeOk, Opened, Clocked, Due;
    OpenedState(c, sys, r);
    OpenedOk(c, sys, r);
    CounterStep(c, sys, r);
    OthersOk(c, sys, r, Prepared(c, sys, r).0.txCounter);
  }

  lemma PreparedClocked(c: Plan, sys: Sys, r: nat)
    requires ValidPlan(c) && AllOk(c, sys, r)
    ensures var sys' := Prepared(c, sys, r).0;
      && Clocked(c, sys', r + 1)
      && (sys'.piggyback.Some? ==> Due(c, sys'.piggyback.value, r + 1, sys'.txCounter))
  {
    hide Prepared, NodeOk, Doomed;
    CounterStep(c, sys, r);
  }

  /** Preparation keeps every node in order and sends an honest packet. */
  lemma PreparedOk(c: Plan, sys: Sys, r: nat)
    requires ValidPlan(c) && AllOk(c, sys, r) && Unflagged(sys.states[r % c.n], r)
    ensures AllOk(c, Prepared(c, sys, r).0, r + 1)
    ensures PacketOk(c, Prepared(c, sys, r).1, r, Prepared(c, sys, r).0.txCounter)
  {
    hide Prepared, NodeOk, PacketOk, Clocked, Due, Unflagged;
    PreparedNodes(c, sys, r);
    PreparedClocked(c, sys, r);
    PacketIsOk(c, sys, r);
  }

  // ---------------------------------------------------------------- processing

  /** A participant stays in order through the whole of its processing, and its log answers only with due verdicts. */
  lemma StepOk(c: Plan, st: TwoPcState, i: nat, r: nat, pkt: Packet, terms: nat)
    requires ValidPlan(c) && NodeOk(c, st, r + 1, terms) && i < c.n && i in c.parts(r)
    requires PacketOk(c, pkt, r, terms)
    ensures var st2 := Learned(Heard(c, st, i, r, pkt), pkt);
      && NodeOk(c, Closed(st2, r, c.n), r + 1, terms)
      && AllDue(c, st2.log, r + 1, terms)
      && Unflagged(Closed(st2, r, c.n), r + 1)
  {
    hide PacketOk, Heard, Learned, Closed, Tidy, FastAborts, AllDue;
    HeardOk(c, st, i, r, terms, pkt);
    var st1 := Heard(c, st, i, r, pkt);
    LearnOk(c, st1, r, terms, pkt);
    CloseOk(c, Learned(st1, pkt), r, terms);
    FewerFlags(Learned(st1, pkt), Closed(Learned(st1, pkt), r, c.n));
  }

  lemma ProcessNodeOk(c: Plan, sys: Sys, r: nat, pkt: Packet, i: nat)
    requires ValidPlan(c) && AllOk(c, sys, r + 1) && i < c.n
    requires PacketOk(c, pkt, r, sys.txCounter)
    ensures AllOk(c, ProcessNode(c, sys, r, pkt, i), r + 1)
    ensures ProcessNode(c, sys, r, pkt, i).txCounter == sys.txCounter
  {
    hide NodeOk, PacketOk, Heard, Learned, Closed, AnnouncedAll, FastAborts, Verdict, Due, AllDue;
    if i in c.parts(r) {
      StepOk(c, sys.states[i], i, r, pkt, sys.txCounter);
      var st2 := Learned(Heard(c, sys.states[i], i, r, pkt), pkt);
      if pkt.nack > 0 && Verdict(st2.log, pkt.nack).Some? {
        VerdictDue(c, st2.log, r + 1, sys.txCounter, pkt.nack);
      }
    }
  }

  lemma {:induction false} ProcessUpToOk(c: Plan, sys: Sys, r: nat, pkt: Packet, k: nat)
    requires ValidPlan(c) && AllOk(c, sys, r + 1) && k <= c.n
    requires PacketOk(c, pkt, r, sys.txCounter)
    ensures AllOk(c, ProcessUpTo(c, sys, r, pkt, k), r + 1)
    ensures ProcessUpTo(c, sys, r, pkt, k).txCounter == sys.txCounter
  {
    hide NodeOk, PacketOk, ProcessNode, Due;
    if k > 0 {
      ProcessUpToOk(c, sys, r, pkt, k - 1);
      ProcessNodeOk(c, ProcessUpTo(c, sys, r, pkt, k - 1), r, pkt, k - 1);
    }
  }

  // ---------------------------------------------------------------- flags do not outlive their round

  ghost predicate AllUnflagged(sys: Sys, r: nat) {
    forall j :: 0 <= j < |sys.states| ==> Unflagged(sys.states[j], r)
  }

  /** While round `r` is processed only its initiator, before its turn, may carry a flag. */
  ghost predicate UnflaggedBut(c: Plan, sys: Sys, r: nat, k: nat)
    requires c.n > 0 && |sys.states| == c.n
  {
    forall j :: 0 <= j < c.n && (j != r % c.n || j < k) ==> Unflagged(sys.states[j], r + 1)
  }

  lemma PreparedUnflagged(c: Plan, sys: Sys, r: nat)
    requires ValidPlan(c) && AllOk(c, sys, r) && AllUnflagged(sys, r)
    ensures UnflaggedBut(c, Prepared(c, sys, r).0, r, 0)
  {
    OpenedState(c, sys, r);
    hide Prepared, Opened;
    forall j: nat | j < c.n && j != r % c.n ensures Unflagged(sys.states[j], r + 1) {
      assert NodeOk(c, sys.states[j], r, sys.txCounter);
      NoneBefore(c, sys.states[j], r, sys.txCounter);
    }
  }

  lemma NoneBefore(c: Plan, st: TwoPcState, r: nat, terms: nat)
    requires NodeOk(c, st, r, terms) && Unflagged(st, r) && terms <= r
    ensures Unflagged(st, r + 1)
  {
    forall k | 0 <= k < |st.pending| ensures !st.pending[k].abort {
      assert EntryOk(c, st.pending[k], terms);
    }
  }

  lemma ProcessNodeUnflagged(c: Plan, sys: Sys, r: nat, pkt: Packet, k: nat)
    requires ValidPlan(c) && AllOk(c, sys, r + 1) && PacketOk(c, pkt, r, sys.txCounter) && k < c.n
    requires UnflaggedBut(c, sys, r, k)
    ensures UnflaggedBut(c, ProcessNode(c, sys, r, pkt, k), r, k + 1)
  {
    if k in c.parts(r) {
      StepOk(c, sys.states[k], k, r, pkt, sys.txCounter);
    }
    hide NodeOk, PacketOk, Heard, Learned, Closed, AnnouncedAll, FastAborts, Verdict, Due, AllDue, Unflagged;
  }

  lemma {:induction false} ProcessUpToUnflagged(c: Plan, sys: Sys, r: nat, pkt: Packet, k: nat)
    requires ValidPlan(c) && AllOk(c, sys, r + 1) && PacketOk(c, pkt, r, sys.txCounter) && k <= c.n
    requires UnflaggedBut(c, sys, r, 0)
    ensures UnflaggedBut(c, ProcessUpTo(c, sys, r, pkt, k), r, k)
  {
    assert |sys.states| == c.n;
    if k > 0 {
      ProcessUpToUnflagged(c, sys, r, pkt, k - 1);
      ProcessUpToOk(c, sys, r, pkt, k - 1);
      hide AllOk, PacketOk, ProcessNode, UnflaggedBut;
      ProcessNodeUnflagged(c, ProcessUpTo(c, sys, r, pkt, k - 1), r, pkt, k - 1);
    } else {
      hide AllOk, PacketOk, Unflagged;
    }
  }

  lemma RoundOk(c: Plan, sys: Sys, r: nat)
    requires ValidPlan(c) && AllOk(c, sys, r) && AllUnflagged(sys, r)
    ensures AllOk(c, RoundOf(c, sys, r), r + 1) && AllUnflagged(RoundOf(c, sys, r), r + 1)
  {
    hide NodeOk, PacketOk, Prepared, ProcessUpTo, ShouldStop, Due, Unflagged;
    PreparedOk(c, sys, r);
    PreparedUnflagged(c, sys, r);
    var (sys1, pkt) := Prepared(c, sys, r);
    ProcessUpToOk(c, sys1, r, pkt, c.n);
    ProcessUpToUnflagged(c, sys1, r, pkt, c.n);
  }

  /** The inductive invariant of every run, under any loss and any coins. */
  lemma {:induction false} ReachableOk(c: Plan, r: nat)
    requires ValidPlan(c)
    ensures AllOk(c, After(c, r), r) && AllUnflagged(After(c, r), r)
  {
    hide AllOk, RoundOf, AllUnflagged;
    if r > 0 {
      ReachableOk(c, r - 1);
      RoundOk(c, After(c, r - 1), r - 1);
    } else {
      StartOk(c);
    }
  }

  lemma StartOk(c: Plan)
    requires ValidPlan(c)
    ensures AllOk(c, Start(c.n), 0) && AllUnflagged(Start(c.n), 0)
  {
  }

  // ---------------------------------------------------------------- verdicts come late

  /** No node has Committed for transaction `t` in its log before round `t + n`, whatever is lost and whoever aborts. */
  lemma NoEarlyCommit(c: Plan, r: nat, i: nat, t: nat)
    requires ValidPlan(c) && i < c.n && (t, Committed) in After(c, r).states[i].log
    ensures t + c.n < r
  {
    ReachableOk(c, r);
    hide After;
    assert NodeOk(c, After(c, r).states[i], r, After(c, r).txCounter);
  }

  /** Unless a participant of its round aborted it, a transaction is in no log before its voting window is over. */
  lemma NoEarlyVerdict(c: Plan, r: nat, i: nat, t: nat)
    requires ValidPlan(c) && !Doomed(c, t) && i < c.n && InLog(After(c, r).states[i].log, t)
    ensures t + c.n < r
  {
    ReachableOk(c, r);
    hide After;
    assert NodeOk(c, After(c, r).states[i], r, After(c, r).txCounter);
  }

  /** Wherever a transaction is pending, its window opened in the round of its number, and it is not flagged. */
  lemma WindowsOpenTogether(c: Plan, r: nat, i: nat, k: nat)
    requires ValidPlan(c) && i < c.n && k < |After(c, r).states[i].pending|
    ensures var p := After(c, r).states[i].pending[k];
      p.startRound == p.tx < c.txs && !p.abort
  {
    ReachableOk(c, r);
    hide After;
    var sys := After(c, r);
    assert NodeOk(c, sys.states[i], r, sys.txCounter) && Unflagged(sys.states[i], r);
    assert EntryOk(c, sys.states[i].pending[k], sys.txCounter);
  }
}
