/**
  How the two-phase-commit pipeline decides: an abort takes effect in the round of
  the transaction, everything else is decided by its proposer a full turn later.
  The records of a run in closed form, for any losses and any coins.
 */
module TwoPcDecisions {
  import opened Wrappers
  import opened Bitmaps
  import opened Messages
  import opened Metrics
  import opened Network
  import opened Rotation
  import opened Ledger
  import opened TwoPcRun
  import opened TwoPcSafety
  import opened TwoPcWindows

  // ---------------------------------------------------------------- the records in closed form

  /** The verdict of transaction `t`'s proposer when its window closes. */
  ghost function OutcomeAt(c: Plan, t: nat): ProposalOutcome
    requires c.n > 0
  {
    if Unanimous(WithProposal(c, After(c, t + c.n), t + c.n).pending, t) then Committed else Aborted
  }

  /** Round `q` ends the voting window of a transaction. */
  predicate Ending(c: Plan, q: nat) {
    c.n <= q < c.txs + c.n
  }

  /** Preparing round `q`: the transaction of a full turn ago is decided, if no participant of its round aborted it. */
  ghost function Closing(c: Plan, q: nat): seq<ProposalRecord>
    requires c.n > 0
  {
    if Ending(c, q) && !Doomed(c, q - c.n) then
      [Record(q - c.n, c.preparedAt(q - c.n), c.preparedAt(q), OutcomeAt(c, q - c.n))]
    else []
  }

  /** Round `q` is processed: its transaction is aborted at once, if a participant says so. */
  ghost function Aborting(c: Plan, q: nat): seq<ProposalRecord> {
    if q < c.txs && Doomed(c, q) then [Record(q, c.preparedAt(q), c.processedAt(q), Aborted)] else []
  }

  /** The records after `r` rounds. */
  ghost function RecordsAfter(c: Plan, r: nat): seq<ProposalRecord>
    requires c.n > 0
  {
    if r == 0 then [] else RecordsAfter(c, r - 1) + Closing(c, r - 1) + Aborting(c, r - 1)
  }

  /** Transaction `t` is decided by the rounds before `r`. */
  ghost predicate Decided(c: Plan, t: nat, r: nat) {
    t < c.txs && if Doomed(c, t) then t < r else t + c.n < r
  }

  ghost predicate OnRecord(c: Plan, sys: Sys, r: nat)
    requires c.n > 0
  {
    (forall t: nat :: t in sys.recorded <==> Decided(c, t, r)) && sys.records == RecordsAfter(c, r)
  }

  /** Between the halves of round `r`: the closing transaction is decided too. */
  ghost predicate HalfRecorded(c: Plan, sys: Sys, r: nat)
    requires c.n > 0
  {
    && (forall t: nat :: t in sys.recorded <==> Decided(c, t, r) || (Ending(c, r) && t == r - c.n && !Doomed(c, t)))
    && sys.records == RecordsAfter(c, r) + Closing(c, r)
  }

  // ---------------------------------------------------------------- a window closes

  lemma OutcomeIs(c: Plan, t: nat)
    requires c.n > 0
    ensures OutcomeAt(c, t)
         == if Unanimous(WithProposal(c, After(c, t + c.n), t + c.n).pending, t) then Committed else Aborted
  {
    hide Unanimous, WithProposal, After;
  }

  lemma VerdictGiven(pending: seq<PendingTx>, p: PendingTx, r: nat, n: nat)
    requires p in pending && r >= p.startRound + n
    ensures (p.tx, if Unanimous(pending, p.tx) then Committed else Aborted) in Verdicts(pending, |pending|, r, n)
  {
    VerdictsAre(pending, |pending|, r, n);
    hide Unanimous, Verdicts;
    var m :| 0 <= m < |pending| && pending[m] == p;
  }

  /** Before its window is over an undoomed transaction is decided by no participant of its round. */
  lemma {:induction false} OpenAsLong(c: Plan, j: nat, t: nat, r: nat)
    requires ValidPlan(c) && j < c.n && t < c.txs && j in c.parts(t) && !Doomed(c, t) && r <= t + c.n
    ensures SettledAt(c, j, t, r) == None
  {
    hide Brings, Doomed;
    if r > 0 {
      OpenAsLong(c, j, t, r - 1);
      SettledStep(c, j, t, r - 1);
      if Brings(c, r - 1, t) {
        BroughtIsOld(c, r - 1, t);
      }
      NobodyAborts(c, j, t);
    }
  }

  lemma NobodyAborts(c: Plan, j: nat, t: nat)
    requires ValidPlan(c) && j < c.n && j in c.parts(t) && !Doomed(c, t)
    ensures !SaysAbort(c, t, j)
  {
  }

  /**
    The round a full turn after transaction `t` belongs to the same proposer, which
    still has `t` pending, unless it is doomed, with exactly the votes it has heard.
   */
  lemma WindowCloses(c: Plan, t: nat) returns (p: PendingTx)
    requires ValidPlan(c) && !Doomed(c, t) && t < c.txs
    ensures var r := t + c.n;
      var st := WithProposal(c, After(c, r), r);
      && r % c.n == t % c.n
      && Tidy(st)
      && p in st.pending && p.tx == t && Voters(p.bits) == VotesHeard(c, t % c.n, t, r) && EntryOk(c, p, c.txs)
      && !p.abort
  {
    hide After, AllOk, AllUnflagged, Tidy, VotesHeard, EntryOk, Doomed, Voters, SettledAt, WithProposal, HasEntry;
    var r, i := t + c.n, t % c.n;
    SameTurn(c.n, t);
    ReachableOk(c, r);
    ReachableExact(c, r, i, t);
    OpenAsLong(c, i, t, r);
    p := StillPending(c, After(c, r), t, r, VotesHeard(c, i, t, r));
  }

  lemma StillPending(c: Plan, sys: Sys, t: nat, r: nat, votes: set<nat>) returns (p: PendingTx)
    requires ValidPlan(c) && AllOk(c, sys, r) && AllUnflagged(sys, r) && t < r
    requires HasEntry(sys.states[r % c.n], t, votes)
    ensures var st := WithProposal(c, sys, r);
      Tidy(st) && p in st.pending && p.tx == t && Voters(p.bits) == votes && EntryOk(c, p, c.txs) && !p.abort
  {
    hide Voters, NodeOk, Tidy;
    ProposeOk(c, sys, r);
    var st, st1 := sys.states[r % c.n], WithProposal(c, sys, r);
    p :| p in st.pending && p.tx == t && Voters(p.bits) == votes;
    assert p in st1.pending;
    EntryIs(c, st1, r + 1, sys.txCounter + (if sys.generated < c.txs then 1 else 0), p);
    assert Unflagged(st, r);
  }

  lemma SameTurn(n: nat, t: nat)
    requires n > 0
    ensures (t + n) % n == t % n
  {
    var turns := (t + n) / n - t / n;
    assert n == n * turns + ((t + n) % n - t % n);
    assert turns >= 2 ==> n * turns >= n * 2;
    assert turns <= 0 ==> n * turns <= 0;
  }

  // ---------------------------------------------------------------- what a preparation records

  /** The verdicts of a preparation are on transactions a full turn old. */
  lemma VerdictsAreOld(c: Plan, sys: Sys, r: nat)
    requires ValidPlan(c) && AllOk(c, sys, r)
    ensures var st := WithProposal(c, sys, r);
      forall k :: 0 <= k < |Verdicts(st.pending, |st.pending|, r, c.n)| ==>
        var v := Verdicts(st.pending, |st.pending|, r, c.n)[k];
        v.0 < c.txs && v.0 + c.n <= r && v.1 == if Unanimous(st.pending, v.0) then Committed else Aborted
  {
    ProposeOk(c, sys, r);
    var st := WithProposal(c, sys, r);
    VerdictsAre(st.pending, |st.pending|, r, c.n);
    hide WithProposal, Unanimous, Verdicts, Tidy, AllDue, Doomed;
  }

  lemma RecordsOf(c: Plan, sys: Sys, r: nat)
    requires |sys.states| == c.n > 0
    ensures var st, sys' := WithProposal(c, sys, r), Prepared(c, sys, r).0;
      (sys'.recorded, sys'.records)
      == AnnouncedAll(sys.recorded, sys.records, Verdicts(st.pending, |st.pending|, r, c.n), sys'.starts,
                      c.preparedAt(r))
  {
    hide WithProposal, FlagsFor, AnnouncedAll, FirstMissing, Verdicts, FinalizedAll;
  }

  /** The preparation of round `r` adds the verdict on transaction `r - n`, unless it was aborted, and nothing else. */
  lemma PreparedRecords(c: Plan, sys: Sys, r: nat)
    requires ValidPlan(c) && OnRecord(c, sys, r) && sys == After(c, r)
    ensures HalfRecorded(c, Prepared(c, sys, r).0, r)
  {
    hide After, WithProposal, Verdicts, Unanimous, Prepared, NodeOk, AnnouncedAll, OutcomeAt, VotesHeard, Tidy,
         Doomed, RecordsAfter, AllUnflagged;
    ReachableOk(c, r);
    VerdictsAreOld(c, sys, r);
    RecordsOf(c, sys, r);
    CounterStep(c, sys, r);
    var st := WithProposal(c, sys, r);
    var verdicts := Verdicts(st.pending, |st.pending|, r, c.n);
    var starts := Prepared(c, sys, r).0.starts;
    if Ending(c, r) && !Doomed(c, r - c.n) {
      var t := r - c.n;
      var p := WindowCloses(c, t);
      VerdictGiven(st.pending, p, r, c.n);
      OutcomeIs(c, t);
      AnnouncesOnly(sys.recorded, sys.records, verdicts, starts, c.preparedAt(r), t, OutcomeAt(c, t));
    } else {
      NothingToAnnounce(sys.recorded, sys.records, verdicts, starts, c.preparedAt(r));
      assert RecordsAfter(c, r) + [] == RecordsAfter(c, r);
    }
  }

  // ---------------------------------------------------------------- what processing a round records

  /** One of the first `k` nodes has said abort in round `r`, by its own coin or by passing on the initiator's. */
  ghost predicate DoomedBy(c: Plan, r: nat, k: nat)
    requires c.n > 0
  {
    exists j: nat :: j < k && SaysAbort(c, r, j)
  }

  lemma DoomedInTheEnd(c: Plan, r: nat)
    requires ValidPlan(c)
    ensures DoomedBy(c, r, c.n) <==> Doomed(c, r)
  {
    var i := r % c.n;
    if Doomed(c, r) {
      var j: nat :| j < c.n && j in c.parts(r) && c.aborts(r, j);
      assert SaysAbort(c, r, j);
    }
    if DoomedBy(c, r, c.n) {
      var j: nat :| j < c.n && SaysAbort(c, r, j);
      assert c.aborts(r, j) || c.aborts(r, i);
    }
  }

  lemma FlagsAnnounced(pending: seq<PendingTx>, r: nat)
    requires forall p :: p in pending && p.abort ==> p.tx == r
    ensures forall k :: 0 <= k < |FastAborts(pending)| ==> FastAborts(pending)[k] == (r, Aborted)
    ensures (exists p :: p in pending && p.abort) <==> (r, Aborted) in FastAborts(pending)
  {
    FastAbortsAre(pending);
    var vs := FastAborts(pending);
    forall k | 0 <= k < |vs| ensures vs[k] == (r, Aborted) {
      var m :| 0 <= m < |pending| && pending[m].tx == vs[k].0 && pending[m].abort;
      assert pending[m] in pending;
    }
    if p :| p in pending && p.abort {
      FlaggedAreAborted(pending, p);
      var k :| 0 <= k < |vs| && vs[k].0 == p.tx;
      assert vs[k] == (r, Aborted);
    }
    if (r, Aborted) in vs {
      var k :| 0 <= k < |vs| && vs[k] == (r, Aborted);
      var m :| 0 <= m < |pending| && pending[m].tx == vs[k].0 && pending[m].abort;
      assert pending[m] in pending;
    }
  }

  /** What processing has recorded once the first `k` nodes have had their turn. */
  ghost predicate PartRecorded(c: Plan, before: Sys, after: Sys, r: nat, k: nat)
    requires c.n > 0
  {
    if r < c.txs && DoomedBy(c, r, k) then
      && after.recorded == before.recorded + {r}
      && after.records == before.records + [Record(r, c.preparedAt(r), c.processedAt(r), Aborted)]
    else after.recorded == before.recorded && after.records == before.records
  }

  lemma {:induction false} OthersWait(c: Plan, sys: Sys, r: nat, pkt: Packet, k: nat, j: nat)
    requires |sys.states| == c.n && k <= j < c.n
    ensures ProcessUpTo(c, sys, r, pkt, k).states[j] == sys.states[j]
  {
    hide Heard, Learned, Closed, AnnouncedAll, FastAborts, Verdict;
    if k > 0 {
      OthersWait(c, sys, r, pkt, k - 1, j);
    }
  }

  /** The initiator's records at its turn: an abort is announced, if it is news. */
  lemma TurnRecords(c: Plan, sys: Sys, r: nat, pkt: Packet, i: nat)
    requires ValidPlan(c) && |sys.states| == c.n && i < c.n && AtTurn(c, sys.states[i], i, r, sys.txCounter)
    requires Clocked(c, sys, r + 1) && PacketOk(c, pkt, r, sys.txCounter) && (pkt.data != Empty <==> r < c.txs)
    ensures var sys' := ProcessNode(c, sys, r, pkt, i);
      (sys'.recorded, sys'.records)
      == if r < c.txs && SaysAbort(c, r, i)
         then Announce(sys.recorded, sys.records, r, Aborted, sys.starts, c.processedAt(r))
         else (sys.recorded, sys.records)
  {
    if i in c.parts(r) {
      HeardFlags(c, sys.states[i], i, r, sys.txCounter, pkt);
      var pending := Heard(c, sys.states[i], i, r, pkt).pending;
      FlagsAnnounced(pending, r);
      var verdicts := FastAborts(pending);
      hide Heard, Learned, Closed, Verdict, FastAborts, AtTurn, PacketOk;
      assert verdicts != [] ==> verdicts[0] in verdicts;
      if r in sys.recorded || !(r < c.txs) {
        SameAnnounced(sys.recorded, sys.records, verdicts, sys.starts, c.processedAt(r), r);
      } else {
        AnnouncesOnly(sys.recorded, sys.records, verdicts, sys.starts, c.processedAt(r), r, Aborted);
      }
    }
  }

  lemma SameAnnounced(known: set<nat>, records: seq<ProposalRecord>, verdicts: seq<(nat, ProposalOutcome)>,
                      starts: map<nat, nat>, slot: nat, r: nat)
    requires forall k :: 0 <= k < |verdicts| ==> verdicts[k].0 == r
    requires r in known || verdicts == []
    ensures AnnouncedAll(known, records, verdicts, starts, slot) == (known, records)
  {
    NothingToAnnounce(known, records, verdicts, starts, slot);
  }

  ghost predicate ReadyToProcess(c: Plan, sys: Sys, r: nat, pkt: Packet)
    requires c.n > 0
  {
    && AllOk(c, sys, r + 1) && PacketOk(c, pkt, r, sys.txCounter)
    && (pkt.data != Empty <==> r < c.txs) && r !in sys.recorded
    && forall j: nat :: j < c.n ==> AtTurn(c, sys.states[j], j, r, sys.txCounter)
  }

  lemma OneTurn(c: Plan, sys: Sys, r: nat, pkt: Packet, k: nat)
    requires ValidPlan(c) && ReadyToProcess(c, sys, r, pkt) && k < c.n && |sys.states| == c.n
    requires PartRecorded(c, sys, ProcessUpTo(c, sys, r, pkt, k), r, k)
    ensures PartRecorded(c, sys, ProcessUpTo(c, sys, r, pkt, k + 1), r, k + 1)
  {
    hide NodeOk, AllOk, PacketOk, ProcessNode, AtTurn, SaysAbort, PartRecorded, Clocked, Announce;
    ProcessUpToOk(c, sys, r, pkt, k);
    OthersWait(c, sys, r, pkt, k, k);
    var before := ProcessUpTo(c, sys, r, pkt, k);
    BooksClocked(c, before, r + 1);
    TurnRecords(c, before, r, pkt, k);
    PartStep(c, sys, before, ProcessUpTo(c, sys, r, pkt, k + 1), r, k);
  }

  lemma {:induction false} ProcessRecords(c: Plan, sys: Sys, r: nat, pkt: Packet, k: nat)
    requires ValidPlan(c) && ReadyToProcess(c, sys, r, pkt) && k <= c.n && |sys.states| == c.n
    ensures PartRecorded(c, sys, ProcessUpTo(c, sys, r, pkt, k), r, k)
  {
    hide ReadyToProcess, ProcessNode, PartRecorded;
    if k > 0 {
      ProcessRecords(c, sys, r, pkt, k - 1);
      OneTurn(c, sys, r, pkt, k - 1);
    } else {
      NobodyYet(c, sys, ProcessUpTo(c, sys, r, pkt, 0), r);
    }
  }

  lemma NobodyYet(c: Plan, sys: Sys, sys': Sys, r: nat)
    requires c.n > 0 && sys'.recorded == sys.recorded && sys'.records == sys.records
    ensures PartRecorded(c, sys, sys', r, 0)
  {
  }

  /** One more node's turn: an abort is recorded when it is the first. */
  lemma PartStep(c: Plan, sys: Sys, before: Sys, after: Sys, r: nat, k: nat)
    requires c.n > 0 && PartRecorded(c, sys, before, r, k) && r !in sys.recorded && Clocked(c, before, r + 1)
    requires (after.recorded, after.records)
          == if r < c.txs && SaysAbort(c, r, k)
             then Announce(before.recorded, before.records, r, Aborted, before.starts, c.processedAt(r))
             else (before.recorded, before.records)
    ensures PartRecorded(c, sys, after, r, k + 1)
  {
    DoomedByOneMore(c, r, k);
    hide DoomedBy, SaysAbort;
  }

  lemma BooksClocked(c: Plan, sys: Sys, r: nat)
    requires AllOk(c, sys, r)
    ensures Clocked(c, sys, r)
  {
  }

  lemma DoomedByOneMore(c: Plan, r: nat, k: nat)
    requires c.n > 0
    ensures DoomedBy(c, r, k + 1) <==> DoomedBy(c, r, k) || SaysAbort(c, r, k)
  {
    if SaysAbort(c, r, k) {
      assert k < k + 1;
    }
  }

  // ---------------------------------------------------------------- the records of a run

  lemma RoundRecords(c: Plan, r: nat)
    requires ValidPlan(c) && OnRecord(c, After(c, r), r)
    ensures OnRecord(c, After(c, r + 1), r + 1)
  {
    hide After, Prepared, AllOk, PacketOk, AtTurn, Closing, OutcomeAt, ProcessUpTo, OnRecord, HalfRecorded,
         DoomedBy, Doomed;
    PreparedRecords(c, After(c, r), r);
    TurnsReady(c, r);
    RoundBooks(c, r);
    var (sys, pkt) := Prepared(c, After(c, r), r);
    NotYetRecorded(c, sys, r);
    ProcessRecords(c, sys, r, pkt, c.n);
    DoomedInTheEnd(c, r);
    HalvesJoin(c, sys, After(c, r + 1), r);
  }

  lemma RoundBooks(c: Plan, r: nat)
    requires c.n > 0
    ensures var (sys, pkt) := Prepared(c, After(c, r), r);
      var sys' := ProcessUpTo(c, sys, r, pkt, c.n);
      After(c, r + 1).recorded == sys'.recorded && After(c, r + 1).records == sys'.records
  {
    hide Prepared, ProcessUpTo, ShouldStop;
  }

  lemma NotYetRecorded(c: Plan, sys: Sys, r: nat)
    requires c.n > 0 && HalfRecorded(c, sys, r)
    ensures r !in sys.recorded
  {
    hide Doomed, RecordsAfter, Closing;
  }

  /** Both halves of a round together. */
  lemma HalvesJoin(c: Plan, sys: Sys, sys': Sys, r: nat)
    requires c.n > 0 && HalfRecorded(c, sys, r)
    requires if r < c.txs && Doomed(c, r) then
               sys'.recorded == sys.recorded + {r}
               && sys'.records == sys.records + [Record(r, c.preparedAt(r), c.processedAt(r), Aborted)]
             else sys'.recorded == sys.recorded && sys'.records == sys.records
    ensures OnRecord(c, sys', r + 1)
  {
    hide Doomed, Closing;
    assert RecordsAfter(c, r) + Closing(c, r) + [] == RecordsAfter(c, r) + Closing(c, r);
  }

  /**
    Whatever is lost and whatever coins fall: after every round the records are, in
    order, the aborts in the rounds of their transactions and the verdicts of the
    proposers on all other transactions whose window is over, each once, closed in
    the preparation of the round a full turn after its own.
   */
  lemma {:induction false} DecidesOnTime(c: Plan, r: nat)
    requires ValidPlan(c)
    ensures forall t: nat :: t in After(c, r).recorded <==> Decided(c, t, r)
    ensures After(c, r).records == RecordsAfter(c, r)
  {
    hide RoundOf, Closing, Aborting, Doomed;
    if r > 0 {
      DecidesOnTime(c, r - 1);
      RoundRecords(c, r - 1);
      hide After;
    }
  }

  // ---------------------------------------------------------------- who commits

  /** The initiator of round `q` proposes and aborts its own proposal, and so sends nobody's vote. */
  predicate Silent(c: Plan, q: nat)
    requires c.n > 0
  {
    q < c.txs && c.aborts(q, q % c.n)
  }

  /** A packet carries its initiator's vote, unless that is silent, and while there are new transactions no other. */
  lemma CarriesItsInitiator(c: Plan, q: nat)
    requires ValidPlan(c)
    ensures !Silent(c, q) ==> q % c.n in Carried(c, q)
    ensures q < c.txs ==> Carried(c, q) == if Silent(c, q) then {} else {q % c.n}
  {
    RoundFacts(c, q);
    hide After, Prepared, AtTurn, Opened;
  }

  /**
    ... and afterwards the votes that its initiator has heard for the last transaction, as long
    as it has that pending.
   */
  lemma CarriesItsVotes(c: Plan, q: nat)
    requires ValidPlan(c) && 0 < c.txs <= q
    ensures var last, i := c.txs - 1, q % c.n;
      Carried(c, q) == if StillOpen(c, i, last, q) then VotesHeard(c, i, last, q) else {i}
  {
    hide After, Prepared, AllOk, PacketOk, AtTurn, Opened, FlagsFor, Unknown, HasEntry, VotesHeard, SettledAt, Voters,
         AllUnflagged, Doomed;
    var last, i := c.txs - 1, q % c.n;
    RoundFacts(c, q);
    OpenedState(c, After(c, q), q);
    var sys := Prepared(c, After(c, q), q).0;
    NodeAt(c, sys, q + 1, i);
    ReachableExact(c, q, i, last);
    if StillOpen(c, i, last, q) {
      PreparedHalf(c, i, last, q);
      CleanAtTurn(c, sys.states[i], i, q, sys.txCounter, last);
      FlagsOfEntry(c, sys.states[i], q + 1, sys.txCounter, last, i, VotesHeard(c, i, last, q));
    } else {
      LastIsGone(c, q);
      FlagsOfNothing(c, sys.states[i], last, i);
    }
  }

  /** Node `i` took part in the round of `t`, has not decided it before round `q`, and its window is not over then. */
  ghost predicate StillOpen(c: Plan, i: nat, t: nat, q: nat)
    requires c.n > 0
  {
    i in c.parts(t) && SettledAt(c, i, t, q) == None && q < t + c.n
  }

  /** What an initiator has decided, never had, or closes in this round is not pending once it has prepared. */
  lemma LastIsGone(c: Plan, q: nat)
    requires ValidPlan(c) && 0 < c.txs <= q && !StillOpen(c, q % c.n, c.txs - 1, q)
    ensures !IsPending(Prepared(c, After(c, q), q).0.states[q % c.n].pending, c.txs - 1)
  {
    hide After, Prepared, AllOk, PacketOk, AtTurn, Opened, VotesHeard, Voters, AllUnflagged, Counted;
    var last, i := c.txs - 1, q % c.n;
    RoundFacts(c, q);
    var before := After(c, q);
    var (sys, pkt) := Prepared(c, before, q);
    NodeAt(c, sys, q + 1, i);
    ReachableExact(c, q, i, last);
    var s := SettledAt(c, i, last, q);
    if s.Some? {
      PreparedKeepsLog(c, before, q, i, (last, VerdictOf(c, i, last, s.value)));
    } else {
      hide SettledAt, VerdictOf;
      PreparedHalf(c, i, last, q);
    }
  }

  lemma CleanAtTurn(c: Plan, st: TwoPcState, i: nat, r: nat, terms: nat, t: nat)
    requires c.n > 0 && AtTurn(c, st, i, r, terms) && t < r
    ensures Clean(st, t)
  {
    hide NodeOk, FreshEntry;
  }

  lemma FlagsOfEntry(c: Plan, st: TwoPcState, r: nat, terms: nat, t: nat, i: nat, votes: set<nat>)
    requires NodeOk(c, st, r, terms) && HasEntry(st, t, votes) && i in votes && i < c.n && Clean(st, t)
    ensures Voters(FlagsFor(st, c.n, t, i).0) == votes
  {
    var p :| p in st.pending && p.tx == t && Voters(p.bits) == votes;
    EntryHere(st.pending, t, p);
    EntryIs(c, st, r, terms, p);
    hide Tidy, AllDue;
  }

  lemma FlagsOfNothing(c: Plan, st: TwoPcState, t: nat, i: nat)
    requires !IsPending(st.pending, t) && i < c.n
    ensures Voters(FlagsFor(st, c.n, t, i).0) == {i}
  {
  }

  /** Node `j` hears a vote in every round of the voting window of `t` but its own. */
  ghost predicate Attends(c: Plan, j: nat, t: nat) {
    c.n > 0 && forall q: nat :: t < q < t + c.n && q % c.n != j ==> HeardIn(c, j, q)
  }

  predicate HeardIn(c: Plan, j: nat, q: nat)
    requires c.n > 0
  {
    j in c.parts(q) && !Silent(c, q)
  }

  lemma {:induction false} VotesOfAttender(c: Plan, j: nat, t: nat, r: nat)
    requires ValidPlan(c) && Attends(c, j, t) && t < r <= t + c.n
    ensures Inits(c.n, t, r) <= VotesHeard(c, j, t, r)
    decreases r
  {
    hide Inits, Carried;
    InitsSnoc(c.n, t, r - 1);
    if r > t + 1 {
      VotesOfAttender(c, j, t, r - 1);
      assert (r - 1) % c.n != j ==> HeardIn(c, j, r - 1);
      CarriesItsInitiator(c, r - 1);
    } else {
      InitsEmpty(c.n, t);
    }
  }

  /** A full turn of rounds is everybody's turn. */
  lemma FullTurn(n: nat, t: nat)
    requires n > 0
    ensures Inits(n, t, t + n) == Upto(n)
  {
    InitsExact(n, t, t + n - 1);
    InitsSnoc(n, t, t + n - 1);
    UptoSize(n);
    hide Inits, Upto;
    var all := Inits(n, t, t + n);
    SameSize(all, Upto(n));
  }

  lemma SameSize(a: set<nat>, b: set<nat>)
    requires a <= b && |a| == |b|
    ensures a == b
  {
    if a != b {
      var v :| v in b && v !in a;
      SubsetSize(a, b - {v});
    }
  }

  /** The initiator of a round that `j` misses, or in which it is silent, is a vote that `j` lacks for `t`. */
  lemma {:induction false} VoteMissed(c: Plan, j: nat, t: nat, q: nat, r: nat)
    requires ValidPlan(c) && t < q < t + c.n && q % c.n != j && !HeardIn(c, j, q) && t < r <= t + c.n && r <= c.txs
    ensures q % c.n !in VotesHeard(c, j, t, r)
    decreases r
  {
    hide Carried;
    DifferentTurns(c.n, t, q);
    if r > t + 1 {
      VoteMissed(c, j, t, q, r - 1);
      CarriesItsInitiator(c, r - 1);
      if r - 1 < q {
        DifferentTurns(c.n, r - 1, q);
      } else if q < r - 1 {
        DifferentTurns(c.n, q, r - 1);
      }
    }
  }

  /**
    Whatever is lost, exactly when a transaction that no participant of its round aborts
    commits: its proposer has heard everybody's vote.  It has if it takes part in all rounds
    of the voting window and none of their initiators aborts its own proposal; and only if so
    when every one of those rounds has a new transaction.
   */
  lemma CommitsIfAttended(c: Plan, t: nat)
    requires ValidPlan(c) && !Doomed(c, t) && t < c.txs
    ensures OutcomeAt(c, t) == Committed <==> Upto(c.n) <= VotesHeard(c, t % c.n, t, t + c.n)
    ensures Attends(c, t % c.n, t) ==> OutcomeAt(c, t) == Committed
    ensures t + c.n <= c.txs ==> (OutcomeAt(c, t) == Committed <==> Attends(c, t % c.n, t))
  {
    hide After, WithProposal, Unanimous, VotesHeard, Tidy, OutcomeAt, Inits, Upto, HeardIn, Voters;
    var r := t + c.n;
    var p := WindowCloses(c, t);
    UnanimousEntry(c.n, WithProposal(c, After(c, r), r), p);
    OutcomeIs(c, t);
    if Attends(c, t % c.n, t) {
      VotesOfAttender(c, t % c.n, t, r);
      FullTurn(c.n, t);
    } else if r <= c.txs {
      var q: nat :| t < q < t + c.n && q % c.n != t % c.n && !HeardIn(c, t % c.n, q);
      VoteMissed(c, t % c.n, t, q, r);
      InitiatorIsANode(c.n, q);
    }
  }

  lemma InitiatorIsANode(n: nat, q: nat)
    requires n > 0
    ensures q % n in Upto(n)
  {
  }

  /** With no abort coins at all, every transaction is decided by its proposer, a full turn after it was proposed. */
  lemma CalmRecords(c: Plan, r: nat, t: nat)
    requires ValidPlan(c) && (forall q: nat, i: nat :: !c.aborts(q, i))
    ensures t in After(c, r).recorded <==> t < c.txs && t + c.n < r
    ensures t < c.txs ==> (OutcomeAt(c, t) == Committed <==> Upto(c.n) <= VotesHeard(c, t % c.n, t, t + c.n))
    ensures t < c.txs && (forall q: nat :: t < q < t + c.n ==> t % c.n in c.parts(q)) ==> OutcomeAt(c, t) == Committed
    ensures t + c.n <= c.txs ==>
      (OutcomeAt(c, t) == Committed <==> forall q: nat :: t < q < t + c.n ==> t % c.n in c.parts(q))
  {
    DecidesOnTime(c, r);
    hide After, OutcomeAt, VotesHeard, Upto;
    assert !Doomed(c, t);
    if t < c.txs {
      CommitsIfAttended(c, t);
      assert forall q: nat :: HeardIn(c, t % c.n, q) <==> t % c.n in c.parts(q);
      forall q: nat | t < q < t + c.n ensures q % c.n != t % c.n {
        DifferentTurns(c.n, t, q);
      }
    }
  }
}
