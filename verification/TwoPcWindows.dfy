/**
  The voting windows of the two-phase-commit pipeline: what becomes of every
  transaction at every node, under any losses and any coins.
 */
module TwoPcWindows {
  import opened Wrappers
  import opened Bitmaps
  import opened Messages
  import opened Metrics
  import opened Network
  import opened Ledger
  import opened TwoPcRun
  import opened TwoPcSafety

  // ---------------------------------------------------------------- the turn of each node

  /** A participant's state after its whole turn. */
  ghost function Turned(c: Plan, st: TwoPcState, j: nat, r: nat, pkt: Packet): TwoPcState {
    Closed(Learned(Heard(c, st, j, r, pkt), pkt), r, c.n)
  }

  lemma TurnOf(c: Plan, sys: Sys, r: nat, pkt: Packet, i: nat)
    requires |sys.states| == c.n && i < c.n
    ensures ProcessNode(c, sys, r, pkt, i).states
         == if i in c.parts(r) then sys.states[i := Turned(c, sys.states[i], i, r, pkt)] else sys.states
  {
    hide Heard, Learned, Closed, AnnouncedAll, FastAborts, Verdict;
  }

  /** After the turns of the first `k` nodes, exactly the participants among them have had theirs. */
  lemma {:induction false} TurnsTaken(c: Plan, sys: Sys, r: nat, pkt: Packet, k: nat, j: nat)
    requires |sys.states| == c.n && k <= c.n && j < c.n
    ensures ProcessUpTo(c, sys, r, pkt, k).states[j]
         == if j < k && j in c.parts(r) then Turned(c, sys.states[j], j, r, pkt) else sys.states[j]
  {
    hide Turned, ProcessNode;
    if k > 0 {
      TurnsTaken(c, sys, r, pkt, k - 1, j);
      TurnOf(c, ProcessUpTo(c, sys, r, pkt, k - 1), r, pkt, k - 1);
    }
  }

  lemma RoundOfNode(c: Plan, r: nat, j: nat)
    requires ValidPlan(c) && j < c.n
    ensures var (sys, pkt) := Prepared(c, After(c, r), r);
      After(c, r + 1).states[j] == if j in c.parts(r) then Turned(c, sys.states[j], j, r, pkt) else sys.states[j]
  {
    hide Prepared, ProcessUpTo, Turned, ShouldStop;
    var (sys, pkt) := Prepared(c, After(c, r), r);
    TurnsTaken(c, sys, r, pkt, c.n, j);
  }

  // ---------------------------------------------------------------- flags

  /** In round `r` node `j` takes part and aborts its transaction, by its own coin or by passing on the initiator's. */
  predicate SaysAbort(c: Plan, r: nat, j: nat)
    requires c.n > 0
  {
    j in c.parts(r) && (c.aborts(r, j) || c.aborts(r, r % c.n))
  }

  /** The state of node `j` when its turn comes in round `r`: it has not met the new transaction, or it proposed it. */
  ghost predicate AtTurn(c: Plan, st: TwoPcState, j: nat, r: nat, terms: nat)
    requires c.n > 0
  {
    && Unflagged(st, r)
    && if j == r % c.n then NodeOk(c, st, r + 1, terms) && (r < c.txs ==> FreshEntry(c, r) in st.pending)
       else NodeOk(c, st, r, if r < c.txs then r else c.txs)
  }

  /** After hearing round `r` a node has its transaction flagged exactly if it or the initiator aborts, and no other. */
  lemma HeardFlags(c: Plan, st: TwoPcState, j: nat, r: nat, terms: nat, pkt: Packet)
    requires ValidPlan(c) && j < c.n && j in c.parts(r) && terms == (if r < c.txs then r + 1 else c.txs)
    requires AtTurn(c, st, j, r, terms) && PacketOk(c, pkt, r, terms) && (pkt.data != Empty <==> r < c.txs)
    ensures var st1 := Heard(c, st, j, r, pkt);
      && (forall p :: p in st1.pending && p.abort ==> p.tx == r && r < c.txs)
      && ((exists p :: p in st1.pending && p.abort) <==> r < c.txs && SaysAbort(c, r, j))
  {
    var st1 := TakeTx(c, st, j, r, pkt);
    var st2 := Heard(c, st, j, r, pkt);
    TakenFlags(c, st, j, r, terms, pkt);
    VotedFlags(st1, j, c.n, pkt);
    hide TakeTx, Heard, AtTurn, PacketOk, Doomed;
  }

  /** Voting flags nothing but the packet's transaction, and that exactly if the packet says abort. */
  lemma VotedFlags(st: TwoPcState, i: nat, n: nat, pkt: Packet)
    ensures var st' := Voted(st, i, n, pkt);
      && |st'.pending| == |st.pending|
      && forall k :: 0 <= k < |st.pending| ==>
           st'.pending[k].tx == st.pending[k].tx
           && (st'.pending[k].abort <==> st.pending[k].abort || (pkt.abort && st.pending[k].tx == pkt.tx))
  {
  }

  /** The transaction of the packet is pending and nobody has aborted it: the node votes. */
  ghost predicate CastsVote(st: TwoPcState, pkt: Packet) {
    !pkt.abort && exists k :: 0 <= k < |st.pending| && st.pending[k].tx == pkt.tx && !st.pending[k].abort
  }

  /**
    Whatever is pending: the votes of the packet reach every entry up to its transaction, with
    the node's own exactly if it votes, and no entry past it.
   */
  lemma VotesCast(st: TwoPcState, i: nat, n: nat, pkt: Packet, k: nat)
    requires Tidy(st) && i < n == |pkt.bits| && k < |st.pending|
    requires forall p :: p in st.pending ==> |p.bits| == n
    ensures var before, after := st.pending[k], Voted(st, i, n, pkt).pending[k];
      Voters(after.bits)
      == if before.tx > pkt.tx then Voters(before.bits)
         else Voters(before.bits) + Voters(pkt.bits) + if CastsVote(st, pkt) then {i} else {}
  {
    hide Voters;
    var p, merged := st.pending[k], MergedVotes(st.pending, pkt.tx, pkt.bits, pkt.abort);
    assert p in st.pending;
    UnitedBits(p.bits, pkt.bits);
    UnitedBits(OrBits(p.bits, pkt.bits, n), OneBit(n, i));
    OneVoice(n, i);
    VoteIsCast(st, pkt);
    hide Position;
  }

  lemma UnitedBits(a: seq<bool>, b: seq<bool>)
    requires |a| == |b|
    ensures Voters(OrBits(a, b, |b|)) == Voters(a) + Voters(b)
  {
  }

  lemma VoteIsCast(st: TwoPcState, pkt: Packet)
    requires Tidy(st)
    ensures var merged := MergedVotes(st.pending, pkt.tx, pkt.bits, pkt.abort);
      var pos := Position(merged, pkt.tx);
      CastsVote(st, pkt) <==> pos.Some? && !merged[pos.value].abort
  {
    var merged := MergedVotes(st.pending, pkt.tx, pkt.bits, pkt.abort);
    var pos := Position(merged, pkt.tx);
    assert forall k :: 0 <= k < |merged| ==> merged[k].tx == st.pending[k].tx;
    if k :| 0 <= k < |st.pending| && st.pending[k].tx == pkt.tx {
      assert merged[k].tx == pkt.tx;
      assert pos.value == k;
    }
  }

  /**
    Whatever the node holds: a transaction it does not know is added behind the others, with
    the votes of the packet and its own unless its coin aborts, flagged by either's abort, its
    window opened now; one it knows, or a packet without one, changes nothing.
   */
  lemma TakesExactly(c: Plan, st: TwoPcState, i: nat, r: nat, pkt: Packet)
    requires i < |pkt.bits|
    ensures var st' := TakeTx(c, st, i, r, pkt);
      if pkt.data == Empty || HasEntryFor(st, pkt.tx) then st' == st
      else
        && st'.log == st.log && |st'.pending| == |st.pending| + 1 && st'.pending[..|st.pending|] == st.pending
        && var p := st'.pending[|st.pending|];
          && p.tx == pkt.tx && p.data == pkt.data && p.startRound == r && (p.abort <==> pkt.abort || c.aborts(r, i))
          && Voters(p.bits) == Voters(pkt.bits) + if c.aborts(r, i) then {} else {i}
  {
    hide Voters;
    AddedBit(pkt.bits, i);
  }

  ghost predicate HasEntryFor(st: TwoPcState, t: nat) {
    (exists k :: 0 <= k < |st.pending| && st.pending[k].tx == t) || exists k :: 0 <= k < |st.log| && st.log[k].0 == t
  }

  lemma AddedBit(bits: seq<bool>, i: nat)
    requires i < |bits|
    ensures Voters(WithBit(bits, i)) == Voters(bits) + {i}
  {
  }

  ghost predicate TakenAs(c: Plan, p: PendingTx, j: nat, r: nat, pkt: Packet)
    requires c.n > 0
  {
    p.tx == r && p.abort == if j == r % c.n then c.aborts(r, r % c.n) else c.aborts(r, j) || pkt.abort
  }

  /** Taking in the new transaction: it is there, flagged by the initiator or oneself, and nothing else is flagged. */
  lemma TakenFlags(c: Plan, st: TwoPcState, j: nat, r: nat, terms: nat, pkt: Packet)
    requires ValidPlan(c) && j < c.n && j in c.parts(r) && terms == (if r < c.txs then r + 1 else c.txs)
    requires AtTurn(c, st, j, r, terms) && PacketOk(c, pkt, r, terms) && (pkt.data != Empty <==> r < c.txs)
    ensures var st1 := TakeTx(c, st, j, r, pkt);
      && (forall k :: 0 <= k < |st1.pending| && st1.pending[k].abort ==>
            st1.pending[k].tx == r && r < c.txs && SaysAbort(c, r, j))
      && (r < c.txs ==> exists k :: 0 <= k < |st1.pending| && TakenAs(c, st1.pending[k], j, r, pkt))
  {
    var st1 := TakeTx(c, st, j, r, pkt);
    if j == r % c.n {
      if r < c.txs {
        var k :| 0 <= k < |st.pending| && st.pending[k] == FreshEntry(c, r);
        assert IsPending(st.pending, r);
        assert st1 == st && TakenAs(c, st1.pending[k], j, r, pkt);
        OnlyOne(st, FreshEntry(c, r));
      }
      forall k | 0 <= k < |st.pending| && st.pending[k].abort
        ensures st.pending[k].tx == r && r < c.txs && SaysAbort(c, r, j)
      {
        assert EntryOk(c, st.pending[k], terms);
      }
    } else {
      NotMetYet(c, st, r);
      if r < c.txs {
        assert TakenAs(c, st1.pending[|st.pending|], j, r, pkt);
      }
      forall k | 0 <= k < |st.pending| ensures !st.pending[k].abort {
        assert EntryOk(c, st.pending[k], if r < c.txs then r else c.txs);
      }
    }
  }

  lemma OnlyOne(st: TwoPcState, p: PendingTx)
    requires Tidy(st) && p in st.pending
    ensures forall k :: 0 <= k < |st.pending| && st.pending[k].tx == p.tx ==> st.pending[k] == p
  {
  }

  lemma NotMetYet(c: Plan, st: TwoPcState, r: nat)
    requires NodeOk(c, st, r, if r < c.txs then r else c.txs)
    ensures !IsPending(st.pending, r) && !InLog(st.log, r)
  {
    var terms := if r < c.txs then r else c.txs;
    assert forall k :: 0 <= k < |st.pending| ==> EntryOk(c, st.pending[k], terms);
    assert forall k :: 0 <= k < |st.log| ==> Due(c, st.log[k], r, terms);
  }

  lemma TurnsReady(c: Plan, r: nat)
    requires ValidPlan(c)
    ensures var (sys, pkt) := Prepared(c, After(c, r), r);
      && AllOk(c, sys, r + 1) && PacketOk(c, pkt, r, sys.txCounter) && (pkt.data != Empty <==> r < c.txs)
      && forall j: nat :: j < c.n ==> AtTurn(c, sys.states[j], j, r, sys.txCounter)
  {
    hide After, Prepared, Opened, NodeOk, PacketOk, Unflagged, AtTurn;
    var before := After(c, r);
    ReachableOk(c, r);
    PreparedOk(c, before, r);
    OpenedState(c, before, r);
    CounterStep(c, before, r);
    InitiatorReady(c, before, r);
    var (sys, pkt) := Prepared(c, before, r);
    forall j: nat | j < c.n ensures AtTurn(c, sys.states[j], j, r, sys.txCounter) {
      if j != r % c.n {
        assert NodeOk(c, before.states[j], r, before.txCounter) && Unflagged(before.states[j], r);
        OtherReady(c, before.states[j], j, r, sys.txCounter);
      }
    }
  }

  lemma InitiatorReady(c: Plan, sys: Sys, r: nat)
    requires ValidPlan(c) && AllOk(c, sys, r) && AllUnflagged(sys, r)
    ensures AtTurn(c, Opened(c, sys, r), r % c.n, r, sys.txCounter + if sys.generated < c.txs then 1 else 0)
  {
    hide Opened, NodeOk, FreshEntry;
    assert Unflagged(sys.states[r % c.n], r);
    hide Unflagged;
    OpenedOk(c, sys, r);
    OpenedUnflagged(c, sys, r);
    if r < c.txs {
      FreshIsOpen(c, sys, r);
    }
  }

  lemma OtherReady(c: Plan, st: TwoPcState, j: nat, r: nat, terms: nat)
    requires c.n > 0 && j != r % c.n && Unflagged(st, r) && NodeOk(c, st, r, if r < c.txs then r else c.txs)
    ensures AtTurn(c, st, j, r, terms)
  {
  }

  // ---------------------------------------------------------------- logs

  /** Verdicts never leave a log. */
  lemma {:induction false} LogKept(st: TwoPcState, vs: seq<(nat, ProposalOutcome)>, v: (nat, ProposalOutcome))
    requires v in st.log
    ensures v in FinalizedAll(st, vs).log
  {
    if vs != [] {
      LogKept(st, vs[..|vs| - 1], v);
    }
  }

  lemma TurnKeepsLog(c: Plan, st: TwoPcState, j: nat, r: nat, pkt: Packet, v: (nat, ProposalOutcome))
    requires v in st.log
    ensures v in Turned(c, st, j, r, pkt).log
  {
    hide FinalizedAll, Verdicts, FastAborts, MergedVotes, Position;
    var st1 := Heard(c, st, j, r, pkt);
    LogKept(st1, FastAborts(st1.pending), v);
    var st2 := Learned(st1, pkt);
    LogKept(st2, Verdicts(st2.pending, |st2.pending|, r, c.n), v);
  }

  /** Verdicts that all say the same about an undecided transaction are what its log entry says. */
  lemma {:induction false} FinalizedSays(st: TwoPcState, vs: seq<(nat, ProposalOutcome)>, t: nat, o: ProposalOutcome)
    requires !InLog(st.log, t) && (t, o) in vs
    requires forall k :: 0 <= k < |vs| && vs[k].0 == t ==> vs[k].1 == o
    ensures (t, o) in FinalizedAll(st, vs).log
  {
    var n := |vs| - 1;
    assert vs == vs[..n] + [vs[n]];
    if (t, o) in vs[..n] {
      FinalizedSays(st, vs[..n], t, o);
    } else {
      FinalizedSilent(st, vs[..n], t);
    }
  }

  /** Verdicts on other transactions leave this one alone. */
  lemma {:induction false} FinalizedSilent(st: TwoPcState, vs: seq<(nat, ProposalOutcome)>, t: nat)
    requires !Decides(vs, t)
    ensures InLog(FinalizedAll(st, vs).log, t) <==> InLog(st.log, t)
    ensures forall p: PendingTx :: p.tx == t ==> (p in FinalizedAll(st, vs).pending <==> p in st.pending)
  {
    hide Finalized, InLog;
    if vs != [] {
      var n := |vs| - 1;
      FinalizedSilent(st, vs[..n], t);
      OneSilent(FinalizedAll(st, vs[..n]), vs[n], t);
    }
  }

  lemma OneSilent(st: TwoPcState, v: (nat, ProposalOutcome), t: nat)
    requires v.0 != t
    ensures InLog(Finalized(st, v.0, v.1).log, t) <==> InLog(st.log, t)
    ensures forall p: PendingTx :: p.tx == t ==> (p in Finalized(st, v.0, v.1).pending <==> p in st.pending)
  {
    FinalizeKeeps(st, v);
    LogGrows(st.log, v);
    assert !Decides([v], t);
    hide InLog;
  }

  // ---------------------------------------------------------------- whose votes a node counts

  /** The votes that the packet of round `q` carries. */
  ghost function Carried(c: Plan, q: nat): set<nat>
    requires c.n > 0
  {
    Voters(Prepared(c, After(c, q), q).1.bits)
  }

  /**
    The votes for transaction `t` that a participant `j` of its round has heard of in the
    rounds before `r`: the proposer's, its own, and those carried in the later rounds it
    took part in.
   */
  ghost function VotesHeard(c: Plan, j: nat, t: nat, r: nat): (votes: set<nat>)
    requires c.n > 0
    ensures {t % c.n, j} <= votes
    decreases r
  {
    if r <= t + 1 then {t % c.n, j}
    else VotesHeard(c, j, t, r - 1) + if j in c.parts(r - 1) then Carried(c, r - 1) else {}
  }

  /** Everybody's vote commits. */
  ghost function Counted(c: Plan, votes: set<nat>): ProposalOutcome {
    if Upto(c.n) <= votes then Committed else Aborted
  }

  ghost predicate HasEntry(st: TwoPcState, t: nat, votes: set<nat>) {
    exists p :: p in st.pending && p.tx == t && Voters(p.bits) == votes
  }

  predicate Unknown(st: TwoPcState, t: nat) {
    !InLog(st.log, t) && !IsPending(st.pending, t)
  }

  // ---------------------------------------------------------------- when a transaction is settled

  /** The packet of round `q` brings a verdict on `t`. */
  ghost predicate Brings(c: Plan, q: nat, t: nat)
    requires c.n > 0
  {
    After(c, q).piggyback.Some? && After(c, q).piggyback.value.0 == t
  }

  /** The prepared half of round `q` closes the window of `t` at its initiator `j`. */
  predicate ClosesFirst(c: Plan, j: nat, t: nat, q: nat)
    requires c.n > 0
  {
    j == q % c.n && j in c.parts(t) && t + c.n <= q
  }

  /**
    Node `j`, undecided on `t` so far, decides it in round `q`: it aborts it in its own
    round, it is brought a verdict, or it took part in `t`'s round and the window is over.
   */
  ghost predicate Settles(c: Plan, j: nat, t: nat, q: nat)
    requires c.n > 0
  {
    && j in c.parts(q)
    && if q == t then SaysAbort(c, t, j)
       else q > t && (Brings(c, q, t) || (j in c.parts(t) && t + c.n <= q))
  }

  /** The round before `r` in which node `j` has decided `t`, if it has. */
  ghost function SettledAt(c: Plan, j: nat, t: nat, r: nat): (q: Option<nat>)
    requires c.n > 0
    ensures q.Some? ==> q.value < r && Settles(c, j, t, q.value)
  {
    if r == 0 then None
    else if SettledAt(c, j, t, r - 1).Some? then SettledAt(c, j, t, r - 1)
    else if Settles(c, j, t, r - 1) then Some(r - 1)
    else None
  }

  /** What node `j` decides on `t` if it does so in round `q`. */
  ghost function VerdictOf(c: Plan, j: nat, t: nat, q: nat): ProposalOutcome
    requires c.n > 0
  {
    if q == t then Aborted
    else if ClosesFirst(c, j, t, q) then Counted(c, VotesHeard(c, j, t, q))
    else if Brings(c, q, t) then After(c, q).piggyback.value.1
    else Counted(c, VotesHeard(c, j, t, q + 1))
  }

  /** What node `j` holds on `t` after `r` rounds: its verdict, or the votes it has heard, or nothing. */
  ghost predicate NodeExact(c: Plan, st: TwoPcState, j: nat, t: nat, r: nat)
    requires c.n > 0
  {
    var q := SettledAt(c, j, t, r);
    if q.Some? then (t, VerdictOf(c, j, t, q.value)) in st.log
    else if t < r && j in c.parts(t) then HasEntry(st, t, VotesHeard(c, j, t, r))
    else Unknown(st, t)
  }

  // ---------------------------------------------------------------- what one half-step does to a transaction

  lemma SilentKeeps(st: TwoPcState, vs: seq<(nat, ProposalOutcome)>, t: nat, votes: set<nat>)
    requires !Decides(vs, t)
    ensures HasEntry(st, t, votes) ==> HasEntry(FinalizedAll(st, vs), t, votes)
    ensures Unknown(st, t) ==> Unknown(FinalizedAll(st, vs), t)
  {
    FinalizedSilent(st, vs, t);
    hide FinalizedAll, Voters;
    var st' := FinalizedAll(st, vs);
    if p :| p in st.pending && p.tx == t && Voters(p.bits) == votes {
      assert p in st'.pending;
    }
  }

  lemma UnanimousEntry(n: nat, st: TwoPcState, p: PendingTx)
    requires Tidy(st) && p in st.pending && |p.bits| == n && !p.abort
    ensures Unanimous(st.pending, p.tx) <==> Upto(n) <= Voters(p.bits)
  {
    EntryHere(st.pending, p.tx, p);
    if Upto(n) <= Voters(p.bits) {
      forall j: nat | j < n ensures p.bits[j] {
        assert j in Upto(n);
      }
    }
  }

  /** No entry of `t` is flagged. */
  ghost predicate Clean(st: TwoPcState, t: nat) {
    forall p :: p in st.pending && p.tx == t ==> !p.abort
  }

  /** Closing windows: an entry whose window is over becomes a verdict on its votes, any other stays. */
  lemma ClosingEntry(c: Plan, st: TwoPcState, s: nat, terms: nat, t: nat, votes: set<nat>, r: nat)
    requires NodeOk(c, st, s, terms) && HasEntry(st, t, votes) && Clean(st, t)
    ensures var st' := Closed(st, r, c.n);
      if t + c.n <= r then (t, Counted(c, votes)) in st'.log else HasEntry(st', t, votes)
  {
    hide FinalizedAll, Verdicts, Unanimous, Voters, NodeOk, Tidy, InLog, Upto;
    var p :| p in st.pending && p.tx == t && Voters(p.bits) == votes;
    EntryIs(c, st, s, terms, p);
    var vs := Verdicts(st.pending, |st.pending|, r, c.n);
    if t + c.n <= r {
      UnanimousEntry(c.n, st, p);
      ClosesWith(st, p, r, c.n);
      FinalizedSays(st, vs, t, Counted(c, votes));
    } else {
      OthersClosed(c, st, s, terms, t, r);
      SilentKeeps(st, vs, t, votes);
    }
  }

  lemma EntryIs(c: Plan, st: TwoPcState, r: nat, terms: nat, p: PendingTx)
    requires NodeOk(c, st, r, terms) && p in st.pending
    ensures Tidy(st) && EntryOk(c, p, terms) && !InLog(st.log, p.tx)
  {
  }

  /** A window that is over gives one verdict. */
  lemma ClosesWith(st: TwoPcState, p: PendingTx, r: nat, n: nat)
    requires p in st.pending && r >= p.startRound + n
    ensures var vs, o := Verdicts(st.pending, |st.pending|, r, n),
                         if Unanimous(st.pending, p.tx) then Committed else Aborted;
      (p.tx, o) in vs && forall k :: 0 <= k < |vs| && vs[k].0 == p.tx ==> vs[k].1 == o
  {
    VerdictsAre(st.pending, |st.pending|, r, n);
    hide Verdicts, Unanimous;
    var k :| 0 <= k < |st.pending| && st.pending[k] == p;
  }

  /** Nothing closes a window that is not over, or that is not open. */
  lemma OthersClosed(c: Plan, st: TwoPcState, s: nat, terms: nat, t: nat, r: nat)
    requires NodeOk(c, st, s, terms) && (t + c.n <= r ==> !IsPending(st.pending, t))
    ensures !Decides(Verdicts(st.pending, |st.pending|, r, c.n), t)
  {
    VerdictsAre(st.pending, |st.pending|, r, c.n);
    hide Verdicts, Unanimous, Due, Tidy;
    var vs := Verdicts(st.pending, |st.pending|, r, c.n);
    forall k | 0 <= k < |vs| ensures vs[k].0 != t {
      var m :| 0 <= m < |st.pending| && st.pending[m].tx == vs[k].0 && r >= st.pending[m].startRound + c.n;
      assert EntryOk(c, st.pending[m], terms);
    }
  }

  lemma ClosingUnknown(c: Plan, st: TwoPcState, s: nat, terms: nat, t: nat, r: nat)
    requires NodeOk(c, st, s, terms) && Unknown(st, t)
    ensures Unknown(Closed(st, r, c.n), t)
  {
    hide FinalizedAll, Verdicts, NodeOk;
    var vs := Verdicts(st.pending, |st.pending|, r, c.n);
    OthersClosed(c, st, s, terms, t, r);
    SilentKeeps(st, vs, t, {});
  }

  lemma MergedEntry(st: TwoPcState, p: PendingTx, t: nat, bits: seq<bool>, abort: bool)
    requires p in st.pending && p.tx <= t && |p.bits| == |bits| && (abort ==> p.tx < t)
    ensures p.(bits := OrBits(p.bits, bits, |bits|), abort := p.abort) in MergedVotes(st.pending, t, bits, abort)
    ensures Voters(OrBits(p.bits, bits, |bits|)) == Voters(p.bits) + Voters(bits)
  {
    var k :| 0 <= k < |st.pending| && st.pending[k] == p;
    assert MergedVotes(st.pending, t, bits, abort)[k] == p.(bits := OrBits(p.bits, bits, |bits|), abort := p.abort);
  }

  lemma OneVoice(n: nat, i: nat)
    requires i < n
    ensures Voters(OneBit(n, i)) == {i}
  {
  }

  /** Voting adds the packet's votes to an entry that has one's own already. */
  lemma VotedEntry(st: TwoPcState, i: nat, n: nat, pkt: Packet, p: PendingTx)
    requires i < n && |pkt.bits| == n == |p.bits| && p in st.pending && p.tx <= pkt.tx
    requires (pkt.abort ==> p.tx < pkt.tx) && i in Voters(p.bits) + Voters(pkt.bits)
    ensures HasEntry(Voted(st, i, n, pkt), p.tx, Voters(p.bits) + Voters(pkt.bits))
  {
    var votes := Voters(p.bits) + Voters(pkt.bits);
    var st2 := st.(pending := MergedVotes(st.pending, pkt.tx, pkt.bits, pkt.abort));
    MergedEntry(st, p, pkt.tx, pkt.bits, pkt.abort);
    var p2 := p.(bits := OrBits(p.bits, pkt.bits, |pkt.bits|), abort := p.abort);
    OneVoice(n, i);
    assert p2 in st2.pending && Voters(p2.bits) == votes && |p2.bits| == n;
    hide OneBit, OrBits, Voters;
    if Voted(st, i, n, pkt) != st2 {
      MergedEntry(st2, p2, pkt.tx, OneBit(n, i), false);
      var p3 := p2.(bits := OrBits(p2.bits, OneBit(n, i), n), abort := p2.abort);
      assert votes + {i} == votes;
      assert p3 in Voted(st, i, n, pkt).pending;
    }
  }

  /** What a participant hears about a transaction it has pending: the packet's votes. */
  lemma HearsEntry(c: Plan, st: TwoPcState, i: nat, r: nat, terms: nat, pkt: Packet, t: nat, votes: set<nat>)
    requires i < c.n && NodeOk(c, st, r + 1, terms) && |pkt.bits| == c.n
    requires t <= pkt.tx && (pkt.abort ==> t < pkt.tx) && i in votes && HasEntry(st, t, votes)
    ensures HasEntry(Heard(c, st, i, r, pkt), t, votes + Voters(pkt.bits))
  {
    hide Voted, Voters, Due, Tidy;
    var p :| p in st.pending && p.tx == t && Voters(p.bits) == votes;
    var k :| 0 <= k < |st.pending| && st.pending[k] == p;
    assert EntryOk(c, p, terms);
    VotedEntry(TakeTx(c, st, i, r, pkt), i, c.n, pkt, p);
  }

  /** What it makes of a new one that neither it nor the packet aborts. */
  lemma HearsNew(c: Plan, st: TwoPcState, i: nat, r: nat, pkt: Packet)
    requires i < c.n && |pkt.bits| == c.n && pkt.data != Empty && !pkt.abort && !c.aborts(r, i) && Unknown(st, pkt.tx)
    ensures HasEntry(Heard(c, st, i, r, pkt), pkt.tx, Voters(pkt.bits) + {i})
  {
    var st1 := TakeTx(c, st, i, r, pkt);
    var p := st1.pending[|st.pending|];
    assert p in st1.pending && p.tx == pkt.tx && p.bits == WithBit(pkt.bits, i);
    assert Voters(p.bits) == Voters(pkt.bits) + {i};
    hide Voters, Voted, TakeTx, WithBit;
    VotedEntry(st1, i, c.n, pkt, p);
    assert Voters(p.bits) + Voters(pkt.bits) == Voters(pkt.bits) + {i};
  }

  lemma HearsNothing(c: Plan, st: TwoPcState, i: nat, r: nat, pkt: Packet, t: nat)
    requires Unknown(st, t) && (pkt.data != Empty ==> pkt.tx != t)
    ensures Unknown(Heard(c, st, i, r, pkt), t)
  {
    var st1 := TakeTx(c, st, i, r, pkt);
    VotedFlags(st1, i, c.n, pkt);
    hide Voted;
    var st2 := Voted(st1, i, c.n, pkt);
    assert forall k :: 0 <= k < |st1.pending| ==> st1.pending[k].tx != t;
    assert st2.log == st.log by {
      HeardLog(st1, i, c.n, pkt);
    }
  }

  lemma HeardLog(st: TwoPcState, i: nat, n: nat, pkt: Packet)
    ensures Voted(st, i, n, pkt).log == st.log
  {
  }

  /** Learning: a verdict the packet brings is taken over; else an unflagged transaction is left alone. */
  lemma LearnsOn(st: TwoPcState, pkt: Packet, t: nat, votes: set<nat>)
    requires Clean(st, t)
    ensures pkt.piggyback.Some? && pkt.piggyback.value.0 == t && !InLog(st.log, t) ==>
      pkt.piggyback.value in Learned(st, pkt).log
    ensures !(pkt.piggyback.Some? && pkt.piggyback.value.0 == t) ==>
      && (HasEntry(st, t, votes) ==> HasEntry(Learned(st, pkt), t, votes))
      && (Unknown(st, t) ==> Unknown(Learned(st, pkt), t))
  {
    var vs := FastAborts(st.pending);
    FastAbortsAre(st.pending);
    hide FastAborts, FinalizedAll, Voters;
    forall k | 0 <= k < |vs| ensures vs[k].0 != t {
      var m :| 0 <= m < |st.pending| && st.pending[m].tx == vs[k].0 && st.pending[m].abort;
      assert st.pending[m] in st.pending;
    }
    FinalizedSilent(st, vs, t);
    SilentKeeps(st, vs, t, votes);
    if pkt.piggyback.Some? {
      var v, st1 := pkt.piggyback.value, FinalizedAll(st, vs);
      LogGrows(st1.log, v);
      if v.0 != t {
        SilentKeeps(st1, [v], t, votes);
        OnlyVerdict(st1, v);
      }
    }
  }

  lemma OnlyVerdict(st: TwoPcState, v: (nat, ProposalOutcome))
    ensures FinalizedAll(st, [v]) == Finalized(st, v.0, v.1)
  {
    assert [v][..0] == [];
  }

  /** A flagged transaction is aborted on the spot. */
  lemma LearnsAbort(st: TwoPcState, pkt: Packet, p: PendingTx)
    requires Tidy(st) && p in st.pending && p.abort
    ensures (p.tx, Aborted) in Learned(st, pkt).log
  {
    var vs := FastAborts(st.pending);
    FastAbortsAre(st.pending);
    FlaggedAreAborted(st.pending, p);
    hide FastAborts, FinalizedAll;
    var k :| 0 <= k < |st.pending| && st.pending[k] == p;
    var m :| 0 <= m < |vs| && vs[m].0 == p.tx;
    assert vs[m] == (p.tx, Aborted);
    FinalizedSays(st, vs, p.tx, Aborted);
  }

  // ---------------------------------------------------------------- one round at one node

  /** What the rounds before `r` give for round `r`: an orderly preparation, an honest packet, everybody at its turn. */
  lemma RoundFacts(c: Plan, r: nat)
    requires ValidPlan(c)
    ensures AllOk(c, After(c, r), r) && AllUnflagged(After(c, r), r)
    ensures var (sys, pkt) := Prepared(c, After(c, r), r);
      && AllOk(c, sys, r + 1) && PacketOk(c, pkt, r, sys.txCounter) && (pkt.data != Empty <==> r < c.txs)
      && (forall j: nat :: j < c.n ==> AtTurn(c, sys.states[j], j, r, sys.txCounter))
      && sys.txCounter == (if r < c.txs then r + 1 else c.txs)
      && pkt.piggyback == After(c, r).piggyback && Voters(pkt.bits) == Carried(c, r)
      && sys.states == After(c, r).states[r % c.n := Opened(c, After(c, r), r)]
      && pkt.tx == if r < c.txs then r else if c.txs == 0 then 0 else c.txs - 1
  {
    hide After, Prepared, Opened, NodeOk, PacketOk, AtTurn, Voters;
    ReachableOk(c, r);
    TurnsReady(c, r);
    OpenedState(c, After(c, r), r);
  }

  lemma NodeAt(c: Plan, sys: Sys, r: nat, j: nat)
    requires AllOk(c, sys, r) && j < c.n
    ensures NodeOk(c, sys.states[j], r, sys.txCounter)
  {
  }

  /** A verdict that a packet of round `r` brings is on a transaction of an earlier round. */
  lemma BroughtIsOld(c: Plan, r: nat, t: nat)
    requires ValidPlan(c) && Brings(c, r, t)
    ensures t < r && t < c.txs && (!Doomed(c, t) ==> t + c.n < r)
  {
    ReachableOk(c, r);
    hide After;
    assert Due(c, After(c, r).piggyback.value, r, After(c, r).txCounter);
  }

  /** Between the halves of round `r`: a window closed by its initiator is a verdict, all else is as before. */
  ghost predicate HalfExact(c: Plan, st: TwoPcState, j: nat, t: nat, r: nat)
    requires c.n > 0
  {
    if ClosesFirst(c, j, t, r) then (t, Counted(c, VotesHeard(c, j, t, r))) in st.log
    else if j in c.parts(t) then HasEntry(st, t, VotesHeard(c, j, t, r))
    else Unknown(st, t)
  }

  lemma OpenedExact(c: Plan, sys: Sys, r: nat, t: nat)
    requires ValidPlan(c) && AllOk(c, sys, r) && AllUnflagged(sys, r) && t < r && t < c.txs
    requires if r % c.n in c.parts(t) then HasEntry(sys.states[r % c.n], t, VotesHeard(c, r % c.n, t, r))
             else Unknown(sys.states[r % c.n], t)
    ensures HalfExact(c, Opened(c, sys, r), r % c.n, t, r)
  {
    var i := r % c.n;
    var st, st1 := sys.states[i], WithProposal(c, sys, r);
    ProposeOk(c, sys, r);
    assert Unflagged(st, r);
    hide NodeOk, Voters, VotesHeard, Verdicts, FinalizedAll;
    assert Opened(c, sys, r) == Closed(st1, r, c.n);
    ProposedKeeps(c, sys, r, t, VotesHeard(c, i, t, r));
    hide WithProposal, Closed, Opened;
    var terms := sys.txCounter + if sys.generated < c.txs then 1 else 0;
    if i in c.parts(t) {
      ClosingEntry(c, st1, r + 1, terms, t, VotesHeard(c, i, t, r), r);
    } else {
      ClosingUnknown(c, st1, r + 1, terms, t, r);
    }
  }

  lemma ProposedKeeps(c: Plan, sys: Sys, r: nat, t: nat, votes: set<nat>)
    requires ValidPlan(c) && AllOk(c, sys, r) && t < r && t < c.txs && Unflagged(sys.states[r % c.n], r)
    ensures var st, st1 := sys.states[r % c.n], WithProposal(c, sys, r);
      && (HasEntry(st, t, votes) ==> HasEntry(st1, t, votes)) && (Unknown(st, t) ==> Unknown(st1, t))
      && Clean(st1, t)
  {
    hide Voters, NodeOk;
    var st, st1 := sys.states[r % c.n], WithProposal(c, sys, r);
    if p :| p in st.pending && p.tx == t && Voters(p.bits) == votes {
      assert p in st1.pending;
    }
    forall p | p in st1.pending && p.tx == t ensures !p.abort {
      var k :| 0 <= k < |st1.pending| && st1.pending[k] == p;
      assert st.pending[k] == p;
    }
  }

  /** A participant's turn in a round after that of `t`, undecided on `t` so far. */
  lemma TurnExact(c: Plan, st: TwoPcState, j: nat, r: nat, terms: nat, pkt: Packet, t: nat)
    requires ValidPlan(c) && j < c.n && j in c.parts(r) && t < r && t < c.txs && t <= pkt.tx
    requires NodeOk(c, st, r + 1, terms) && PacketOk(c, pkt, r, terms) && AtTurn(c, st, j, r, terms)
    requires terms == (if r < c.txs then r + 1 else c.txs) && (pkt.data != Empty <==> r < c.txs)
    requires pkt.piggyback == After(c, r).piggyback && Voters(pkt.bits) == Carried(c, r)
    requires !ClosesFirst(c, j, t, r) && HalfExact(c, st, j, t, r)
    ensures var st' := Turned(c, st, j, r, pkt);
      if Brings(c, r, t) then After(c, r).piggyback.value in st'.log
      else if j in c.parts(t) && t + c.n <= r then (t, Counted(c, VotesHeard(c, j, t, r + 1))) in st'.log
      else if j in c.parts(t) then HasEntry(st', t, VotesHeard(c, j, t, r + 1))
      else Unknown(st', t)
  {
    hide After, VotesHeard, Carried, Voters, Heard, Learned, Closed, AtTurn, HasEntry, Unknown, Verdicts,
         FinalizedAll, Due;
    var st1 := Heard(c, st, j, r, pkt);
    var votes := VotesHeard(c, j, t, r + 1);
    MoreHeard(c, j, t, r);
    HeardFlags(c, st, j, r, terms, pkt);
    assert pkt.data != Empty ==> pkt.tx == r;
    if j in c.parts(t) {
      HearsEntry(c, st, j, r, terms, pkt, t, VotesHeard(c, j, t, r));
    } else {
      HearsNothing(c, st, j, r, pkt, t);
    }
    HeardOk(c, st, j, r, terms, pkt);
    LearnOk(c, st1, r, terms, pkt);
    assert Clean(st1, t);
    hide NodeOk, PacketOk;
    UndecidedYet(st1, t, votes);
    LearnsOn(st1, pkt, t, votes);
    var st2 := Learned(st1, pkt);
    if Brings(c, r, t) {
      ClosingKeeps(c, st2, r, pkt.piggyback.value);
    } else if j in c.parts(t) {
      LearnedClean(c, st2, t);
      ClosingEntry(c, st2, r + 1, terms, t, votes, r);
    } else {
      ClosingUnknown(c, st2, r + 1, terms, t, r);
    }
  }

  lemma MoreHeard(c: Plan, j: nat, t: nat, r: nat)
    requires c.n > 0 && t < r
    ensures VotesHeard(c, j, t, r + 1) == VotesHeard(c, j, t, r) + if j in c.parts(r) then Carried(c, r) else {}
  {
  }

  lemma UndecidedYet(st: TwoPcState, t: nat, votes: set<nat>)
    requires Tidy(st) && (HasEntry(st, t, votes) || Unknown(st, t))
    ensures !InLog(st.log, t)
  {
  }

  lemma LearnedClean(c: Plan, st: TwoPcState, t: nat)
    requires forall q :: Unflagged(st, q)
    ensures Clean(st, t)
  {
    assert Unflagged(st, t + 1);
  }

  lemma ClosingKeeps(c: Plan, st: TwoPcState, r: nat, v: (nat, ProposalOutcome))
    requires v in st.log
    ensures v in Closed(st, r, c.n).log
  {
    LogKept(st, Verdicts(st.pending, |st.pending|, r, c.n), v);
  }

  /** A participant's turn in the round of the transaction itself: aborted on the spot, or the first two votes. */
  lemma FreshExact(c: Plan, st: TwoPcState, j: nat, r: nat, terms: nat, pkt: Packet)
    requires ValidPlan(c) && j < c.n && j in c.parts(r) && r < c.txs && terms == r + 1
    requires NodeOk(c, st, r + 1, terms) && PacketOk(c, pkt, r, terms) && AtTurn(c, st, j, r, terms)
    requires pkt.data != Empty && (pkt.piggyback.Some? ==> pkt.piggyback.value.0 != r)
    ensures var st' := Turned(c, st, j, r, pkt);
      if SaysAbort(c, r, j) then (r, Aborted) in st'.log else HasEntry(st', r, {r % c.n, j})
  {
    hide Voters, Heard, Learned, Closed, HasEntry, Verdicts, FinalizedAll, Due, TakeTx;
    var st1, votes := Heard(c, st, j, r, pkt), {r % c.n, j};
    HeardFlags(c, st, j, r, terms, pkt);
    HeardOk(c, st, j, r, terms, pkt);
    LearnOk(c, st1, r, terms, pkt);
    var st2 := Learned(st1, pkt);
    if SaysAbort(c, r, j) {
      var p :| p in st1.pending && p.abort;
      LearnsAbort(st1, pkt, p);
      ClosingKeeps(c, st2, r, (r, Aborted));
    } else {
      FreshHeard(c, st, j, r, terms, pkt);
      LearnsOn(st1, pkt, r, votes);
      LearnedClean(c, st2, r);
      ClosingEntry(c, st2, r + 1, terms, r, votes, r);
    }
  }

  lemma FreshHeard(c: Plan, st: TwoPcState, j: nat, r: nat, terms: nat, pkt: Packet)
    requires ValidPlan(c) && j < c.n && j in c.parts(r) && r < c.txs && terms == r + 1
    requires NodeOk(c, st, r + 1, terms) && PacketOk(c, pkt, r, terms) && AtTurn(c, st, j, r, terms)
    requires pkt.data != Empty && !SaysAbort(c, r, j)
    ensures HasEntry(Heard(c, st, j, r, pkt), r, {r % c.n, j})
  {
    hide Voters, Heard, Due;
    if j == r % c.n {
      OneVoice(c.n, j);
      assert HasEntry(st, r, {j});
      HearsEntry(c, st, j, r, terms, pkt, r, {j});
      assert {j} + Voters(pkt.bits) == {r % c.n, j};
    } else {
      NotMetYet(c, st, r);
      HearsNew(c, st, j, r, pkt);
      assert Voters(pkt.bits) + {j} == {r % c.n, j};
    }
  }

  lemma SettledStep(c: Plan, j: nat, t: nat, r: nat)
    requires c.n > 0
    ensures SettledAt(c, j, t, r + 1)
         == if SettledAt(c, j, t, r).Some? then SettledAt(c, j, t, r)
            else if Settles(c, j, t, r) then Some(r) else None
  {
    hide Settles;
  }

  lemma {:induction false} NotSettledBefore(c: Plan, j: nat, t: nat, r: nat)
    requires c.n > 0 && r <= t
    ensures SettledAt(c, j, t, r) == None
  {
    if r > 0 {
      NotSettledBefore(c, j, t, r - 1);
    }
  }

  /** A transaction of a later round is met by nobody. */
  lemma NotProposedYet(c: Plan, j: nat, t: nat, r: nat)
    requires ValidPlan(c) && j < c.n && r <= t
    ensures Unknown(After(c, r).states[j], t)
  {
    ReachableOk(c, r);
    hide After;
    var sys := After(c, r);
    NodeAt(c, sys, r, j);
    assert forall k :: 0 <= k < |sys.states[j].pending| ==> EntryOk(c, sys.states[j].pending[k], sys.txCounter);
    assert forall k :: 0 <= k < |sys.states[j].log| ==> Due(c, sys.states[j].log[k], r, sys.txCounter);
  }

  /** The round of the transaction. */
  lemma OwnRound(c: Plan, j: nat, t: nat)
    requires ValidPlan(c) && j < c.n && t < c.txs
    ensures NodeExact(c, After(c, t + 1).states[j], j, t, t + 1)
  {
    hide After, Prepared, Turned, AllOk, PacketOk, AtTurn, Opened, Unknown, HasEntry;
    NotSettledBefore(c, j, t, t);
    SettledStep(c, j, t, t);
    RoundFacts(c, t);
    RoundOfNode(c, t, j);
    if Brings(c, t, t) {
      BroughtIsOld(c, t, t);
    }
    hide SettledAt;
    var (sys, pkt) := Prepared(c, After(c, t), t);
    if j in c.parts(t) {
      NodeAt(c, sys, t + 1, j);
      FreshExact(c, sys.states[j], j, t, t + 1, pkt);
    } else {
      NotProposedYet(c, j, t, t);
    }
  }

  lemma PreparedHalf(c: Plan, j: nat, t: nat, r: nat)
    requires ValidPlan(c) && j < c.n && t < r && t < c.txs
    requires if j in c.parts(t) then HasEntry(After(c, r).states[j], t, VotesHeard(c, j, t, r))
             else Unknown(After(c, r).states[j], t)
    ensures HalfExact(c, Prepared(c, After(c, r), r).0.states[j], j, t, r)
  {
    hide After, Prepared, AllOk, PacketOk, AtTurn, Opened, Unknown, HasEntry, VotesHeard, AllUnflagged;
    RoundFacts(c, r);
    if j == r % c.n {
      hide HalfExact;
      OpenedExact(c, After(c, r), r, t);
    }
  }

  /** A later round, at a node that has not decided `t` yet. */
  lemma UndecidedRound(c: Plan, j: nat, t: nat, r: nat)
    requires ValidPlan(c) && j < c.n && t < r && t < c.txs && SettledAt(c, j, t, r) == None
    requires NodeExact(c, After(c, r).states[j], j, t, r)
    ensures NodeExact(c, After(c, r + 1).states[j], j, t, r + 1)
  {
    hide After, Prepared, Turned, AllOk, PacketOk, AtTurn, Opened, Unknown, HasEntry, VotesHeard, SettledAt, Brings,
         HalfExact;
    SettledStep(c, j, t, r);
    RoundFacts(c, r);
    RoundOfNode(c, r, j);
    PreparedHalf(c, j, t, r);
    MoreHeard(c, j, t, r);
    var (sys, pkt) := Prepared(c, After(c, r), r);
    if j in c.parts(r) {
      NodeAt(c, sys, r + 1, j);
      HalfToEnd(c, sys.states[j], j, r, sys.txCounter, pkt, t);
    } else {
      assert j != r % c.n;
      assert VotesHeard(c, j, t, r) + {} == VotesHeard(c, j, t, r);
    }
  }

  lemma HalfToEnd(c: Plan, st: TwoPcState, j: nat, r: nat, terms: nat, pkt: Packet, t: nat)
    requires ValidPlan(c) && j < c.n && j in c.parts(r) && t < r && t < c.txs && t <= pkt.tx
    requires NodeOk(c, st, r + 1, terms) && PacketOk(c, pkt, r, terms) && AtTurn(c, st, j, r, terms)
    requires terms == (if r < c.txs then r + 1 else c.txs) && (pkt.data != Empty <==> r < c.txs)
    requires pkt.piggyback == After(c, r).piggyback && Voters(pkt.bits) == Carried(c, r)
    requires HalfExact(c, st, j, t, r)
    ensures var st' := Turned(c, st, j, r, pkt);
      if Settles(c, j, t, r) then (t, VerdictOf(c, j, t, r)) in st'.log
      else if j in c.parts(t) then HasEntry(st', t, VotesHeard(c, j, t, r + 1))
      else Unknown(st', t)
  {
    hide After, Turned, NodeOk, PacketOk, AtTurn, Unknown, HasEntry, VotesHeard, Carried, Voters, Counted;
    if ClosesFirst(c, j, t, r) {
      TurnKeepsLog(c, st, j, r, pkt, (t, Counted(c, VotesHeard(c, j, t, r))));
    } else {
      TurnExact(c, st, j, r, terms, pkt, t);
    }
  }

  lemma PreparedKeepsLog(c: Plan, sys: Sys, r: nat, j: nat, v: (nat, ProposalOutcome))
    requires |sys.states| == c.n > 0 && j < c.n && v in sys.states[j].log
    ensures v in Prepared(c, sys, r).0.states[j].log
  {
    OpenedState(c, sys, r);
    hide Prepared, Verdicts, FinalizedAll;
    var st := WithProposal(c, sys, r);
    if j == r % c.n {
      LogKept(st, Verdicts(st.pending, |st.pending|, r, c.n), v);
    }
  }

  /** A verdict stays in the log. */
  lemma VerdictStays(c: Plan, j: nat, r: nat, v: (nat, ProposalOutcome))
    requires ValidPlan(c) && j < c.n && v in After(c, r).states[j].log
    ensures v in After(c, r + 1).states[j].log
  {
    hide After, Prepared, Turned;
    RoundOfNode(c, r, j);
    PreparedKeepsLog(c, After(c, r), r, j, v);
    var (sys, pkt) := Prepared(c, After(c, r), r);
    if j in c.parts(r) {
      TurnKeepsLog(c, sys.states[j], j, r, pkt, v);
    }
  }

  /**
    Under any losses and any coins, after every round, for every node and transaction: the
    node's log has the verdict of the round in which it decided; undecided, a participant of
    the transaction's round has it pending with exactly the votes it has heard; and others
    do not know it.
   */
  lemma {:induction false} ReachableExact(c: Plan, r: nat, j: nat, t: nat)
    requires ValidPlan(c) && j < c.n && t < c.txs
    ensures NodeExact(c, After(c, r).states[j], j, t, r)
  {
    hide After, Unknown, HasEntry, VotesHeard, Settles, VerdictOf;
    if r <= t {
      NotSettledBefore(c, j, t, r);
      NotProposedYet(c, j, t, r);
    } else if r == t + 1 {
      OwnRound(c, j, t);
    } else {
      ReachableExact(c, r - 1, j, t);
      var q := SettledAt(c, j, t, r - 1);
      if q.Some? {
        SettledStep(c, j, t, r - 1);
        VerdictStays(c, j, r - 1, (t, VerdictOf(c, j, t, q.value)));
      } else {
        UndecidedRound(c, j, t, r - 1);
      }
    }
  }
}
