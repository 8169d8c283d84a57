/**
  The two-phase-commit pipeline as the simulator runs it: node states and round
  hooks that update their fields in place, proved equal to the rounds of module
  TwoPcRun.
 */
module TwoPcPipeline {
  import opened Wrappers
  import opened Bitmaps
  import opened Messages
  import opened Nodes
  import opened Metrics
  import opened Network
  import opened Ledger
  import opened CiPipeline
  import opened TwoPcRun
  import TwoPcSafety
  import TwoPcLossless

  class NodeTwoPcState {
    var log: seq<(nat, ProposalOutcome)>
    var pending: seq<PendingTx>

    constructor ()
      ensures View() == FRESH
    {
      log, pending := [], [];
    }

    function View(): TwoPcState
      reads this
    {
      TwoPcState(log, pending)
    }

    method LogHas(t: nat) returns (found: bool)
      ensures found <==> InLog(log, t)
    {
      for k := 0 to |log|
        invariant forall j :: 0 <= j < k ==> log[j].0 != t
      {
        if log[k].0 == t {
          return true;
        }
      }
      return false;
    }

    method FindPending(t: nat) returns (pos: Option<nat>)
      ensures pos == Position(pending, t)
    {
      for k := 0 to |pending|
        invariant forall j :: 0 <= j < k ==> pending[j].tx != t
      {
        if pending[k].tx == t {
          PositionAt(pending, k);
          return Some(k);
        }
      }
      return None;
    }

    /** All ones, and no abort. */
    method CheckUnanimity(t: nat) returns (unanimous: bool)
      ensures unanimous == Unanimous(pending, t)
    {
      var pos := FindPending(t);
      if pos.None? || pending[pos.value].abort {
        return false;
      }
      var bits := pending[pos.value].bits;
      for j := 0 to |bits|
        invariant forall m :: 0 <= m < j ==> bits[m]
      {
        if !bits[j] {
          return false;
        }
      }
      return true;
    }

    /** Votes count for every pending transaction up to `t`, the abort flag for `t` alone. */
    method MergeVotesUpTo(t: nat, bits: seq<bool>, abort: bool)
      requires forall k :: 0 <= k < |pending| ==> |bits| <= |pending[k].bits|
      modifies this`pending
      ensures pending == MergedVotes(old(pending), t, bits, abort)
    {
      for k := 0 to |pending|
        invariant |pending| == |old(pending)|
        invariant forall j :: 0 <= j < k ==> pending[j] == MergedVotes(old(pending), t, bits, abort)[j]
        invariant forall j :: k <= j < |pending| ==> pending[j] == old(pending)[j]
      {
        if pending[k].tx <= t {
          var merged, _ := OrInto(pending[k].bits, bits, |bits|);
          pending := pending[k := pending[k].(bits := merged)];
          if abort && pending[k].tx == t {
            pending := pending[k := pending[k].(abort := true)];
          }
        }
      }
    }

    method FinalizeTx(t: nat, outcome: ProposalOutcome)
      modifies this
      ensures View() == Finalized(old(View()), t, outcome)
    {
      var logged := LogHas(t);
      if logged {
        return;
      }
      var pos := FindPending(t);
      if pos.Some? {
        pending := pending[..pos.value] + pending[pos.value + 1..];
      }
      log := log + [(t, outcome)];
    }

    /** The first transaction before `upTo` missing from both log and pending list. */
    method DetectGap(upTo: nat) returns (gap: Option<nat>)
      ensures gap == FirstMissing(View(), 0, upTo)
    {
      for t := 0 to upTo
        invariant FirstMissing(View(), 0, upTo) == FirstMissing(View(), t, upTo)
      {
        var logged := LogHas(t);
        var pos := FindPending(t);
        if !logged && pos.None? {
          return Some(t);
        }
      }
      return None;
    }

    /** Verdicts on the transactions whose voting window of `n` rounds is over. */
    method CloseWindows(r: nat, n: nat) returns (verdicts: seq<(nat, ProposalOutcome)>)
      ensures verdicts == Verdicts(pending, |pending|, r, n)
    {
      hide Unanimous;
      verdicts := [];
      for k := 0 to |pending|
        invariant verdicts == Verdicts(pending, k, r, n)
      {
        if r >= pending[k].startRound + n {
          var unanimous := CheckUnanimity(pending[k].tx);
          verdicts := verdicts + [(pending[k].tx, if unanimous then Committed else Aborted)];
        }
      }
    }

    method CollectAborts() returns (verdicts: seq<(nat, ProposalOutcome)>)
      ensures verdicts == FastAborts(pending)
    {
      verdicts := [];
      for k := 0 to |pending|
        invariant verdicts == FastAborts(pending[..k])
      {
        assert pending[..k + 1][..k] == pending[..k];
        if pending[k].abort {
          verdicts := verdicts + [(pending[k].tx, Aborted)];
        }
      }
      assert pending[..|pending|] == pending;
    }

    method FindVerdict(t: nat) returns (verdict: Option<ProposalOutcome>)
      ensures verdict == Verdict(log, t)
    {
      for k := 0 to |log|
        invariant Verdict(log, t) == Verdict(log[k..], t)
      {
        assert log[k..][1..] == log[k + 1..];
        if log[k].0 == t {
          return Some(log[k].1);
        }
      }
      return None;
    }

    method Propose(p: PendingTx)
      modifies this`pending
      ensures View() == old(View()).(pending := old(pending) + [p])
    {
      pending := pending + [p];
    }

    method Flags(n: nat, t: nat, i: nat) returns (bits: seq<bool>, abort: bool)
      requires i < n && forall k :: 0 <= k < |pending| ==> |pending[k].bits| == n
      ensures (bits, abort) == FlagsFor(View(), n, t, i)
    {
      bits, abort := NoBits(n), false;
      var pos := FindPending(t);
      if pos.Some? {
        bits, abort := pending[pos.value].bits, pending[pos.value].abort;
      }
      if !abort {
        bits := bits[i := true];
      }
    }

    /** A new transaction, with this node's vote or its abort. */
    method TakeNew(i: nat, r: nat, pkt: Packet, says: bool)
      requires i < |pkt.bits|
      modifies this`pending
      ensures View() == if pkt.data == Empty || IsPending(old(pending), pkt.tx) || InLog(log, pkt.tx) then old(View())
                        else old(View()).(pending := old(pending)
                               + [PendingTx(pkt.tx, pkt.data, if says then pkt.bits else WithBit(pkt.bits, i),
                                            pkt.abort || says, r)])
    {
      if pkt.data != Empty {
        var pos := FindPending(pkt.tx);
        var logged := LogHas(pkt.tx);
        if pos.None? && !logged {
          var bits, abort := pkt.bits, pkt.abort;
          if says {
            abort := true;
          } else {
            bits := bits[i := true];
          }
          pending := pending + [PendingTx(pkt.tx, pkt.data, bits, abort, r)];
        }
      }
    }

    /** Merge the packet's votes, and one's own unless the transaction is being aborted. */
    method Vote(i: nat, n: nat, pkt: Packet)
      requires |pkt.bits| == n && forall k :: 0 <= k < |pending| ==> |pending[k].bits| == n
      modifies this`pending
      ensures View() == Voted(old(View()), i, n, pkt)
    {
      MergeVotesUpTo(pkt.tx, pkt.bits, pkt.abort);
      var pos := FindPending(pkt.tx);
      if pos.Some? && !pending[pos.value].abort {
        MergeVotesUpTo(pkt.tx, OneBit(n, i), false);
      }
    }
  }

  lemma {:induction false} PositionAt(pending: seq<PendingTx>, k: nat)
    requires k < |pending|
    requires forall j :: 0 <= j < k ==> pending[j].tx != pending[k].tx
    ensures Position(pending, pending[k].tx) == Some(k)
  {
    if k > 0 {
      PositionAt(pending[1..], k - 1);
    }
  }

  // ---------------------------------------------------------------- the protocol over the core

  type Core = CiCore<Option<Packet>>

  /** The run of a pipeline configuration as the plan of module TwoPcRun, with the coins it will throw. */
  ghost function PlanFor(course: PipeConfig, txs: nat, coins: (nat, nat) -> bool): (c: Plan)
    requires ValidPipe(course)
    ensures ValidPlan(c)
  {
    Plan(|course.g|, txs, r => Takers(course, r), coins,
         r => RoundStart(course, r), r => RoundStart(course, r + 1))
  }

  /** ... in which the snapshot interval has no part. */
  ghost function PlanOf(config: PipeConfig, txs: nat, coins: (nat, nat) -> bool): (c: Plan)
    requires ValidPipe(config)
    ensures ValidPlan(c)
  {
    PlanFor(Course(config), txs, coins)
  }

  lemma PlanIs(config: PipeConfig, txs: nat, coins: (nat, nat) -> bool, r: nat)
    requires ValidPipe(config)
    ensures var c := PlanOf(config, txs, coins);
      && c.n == |config.g| && c.txs == txs && c.aborts == coins && c.parts(r) == Takers(config, r)
      && c.preparedAt(r) == RoundStart(config, r) && c.processedAt(r) == RoundStart(config, r + 1)
  {
    hide Takers, RoundStart, FloodRows;
    SameRounds(config, r, []);
    SameStart(config, r + 1);
  }

  /** Does the protocol ask to stop after `q` rounds? */
  ghost function Stops(c: Plan): nat -> bool
    requires c.n > 0
  {
    (q: nat) => After(c, q).stop
  }

  /** What every node reports as its progress in round `q`. */
  ghost function Informing(c: Plan): nat -> nat
    requires c.n > 0
  {
    (q: nat) => Informed(After(c, q).states)
  }

  ghost predicate Distinct(states: seq<NodeTwoPcState>) {
    forall i, j :: 0 <= i < j < |states| ==> states[i] != states[j]
  }

  ghost function Views(states: seq<NodeTwoPcState>): (vs: seq<TwoPcState>)
    reads states
    ensures |vs| == |states|
  {
    seq(|states|, i requires 0 <= i < |states| reads states => states[i].View())
  }

  method MakeStates(n: nat) returns (states: seq<NodeTwoPcState>)
    ensures |states| == n && Distinct(states) && fresh(states)
    ensures forall i :: 0 <= i < n ==> states[i].View() == FRESH
  {
    states := [];
    for k := 0 to n
      invariant |states| == k && Distinct(states) && fresh(states)
      invariant forall i :: 0 <= i < k ==> states[i].View() == FRESH
    {
      var state := new NodeTwoPcState();
      states := states + [state];
    }
  }

  ghost predicate Fitting(st: TwoPcState, n: nat) {
    forall k :: 0 <= k < |st.pending| ==> |st.pending[k].bits| == n
  }

  class TwoPcCi {
    const numTxs: nat
    const coins: (nat, nat) -> bool
    const states: seq<NodeTwoPcState>
    var txCounter: nat
    var generated: nat
    var starts: map<nat, nat>
    var recorded: set<nat>
    var piggyback: Option<(nat, ProposalOutcome)>
    var stop: bool

    constructor (n: nat, txs: nat, coins: (nat, nat) -> bool)
      ensures numTxs == txs && this.coins == coins && |states| == n && Distinct(states)
      ensures fresh(states) && State([]) == Start(n)
    {
      numTxs := txs;
      this.coins := coins;
      txCounter, generated, starts, recorded := 0, 0, map[], {};
      piggyback, stop := None, false;
      var created := MakeStates(n);
      states := created;
      new;
      assert Views(states) == seq(n, i => FRESH);
    }

    /** The global state, with the records the metrics hold. */
    ghost function State(records: seq<ProposalRecord>): Sys
      reads this, states
    {
      Sys(Views(states), txCounter, generated, starts, recorded, piggyback, records, stop)
    }

    // -------------------------------------------------------------- one node at a time

    method FinalizeAt(i: nat, t: nat, outcome: ProposalOutcome)
      requires Distinct(states) && i < |states|
      modifies states
      ensures Views(states) == old(Views(states))[i := Finalized(old(Views(states))[i], t, outcome)]
    {
      states[i].FinalizeTx(t, outcome);
      assert forall j :: 0 <= j < |states| && j != i ==> states[j].View() == old(states[j].View());
    }

    /** Finalize a list of verdicts at node `i`. */
    method FinalizeAllAt(i: nat, verdicts: seq<(nat, ProposalOutcome)>)
      requires Distinct(states) && i < |states|
      modifies states
      ensures Views(states) == old(Views(states))[i := FinalizedAll(old(Views(states))[i], verdicts)]
    {
      hide Views, Distinct, Finalized;
      ghost var views := Views(states);
      assert verdicts[..0] == [];
      for k := 0 to |verdicts|
        invariant Views(states) == views[i := FinalizedAll(views[i], verdicts[..k])]
      {
        assert verdicts[..k + 1][..k] == verdicts[..k];
        FinalizeAt(i, verdicts[k].0, verdicts[k].1);
      }
      assert verdicts[..|verdicts|] == verdicts;
    }

    method Announce(t: nat, outcome: ProposalOutcome, slot: nat, metrics: MetricsCollector)
      modifies this`recorded, metrics`proposals
      ensures (recorded, metrics.proposals)
           == Ledger.Announce(old(recorded), old(metrics.proposals), t, outcome, starts, slot)
    {
      if t !in recorded {
        recorded := recorded + {t};
        metrics.RecordProposal(t, if t in starts then starts[t] else 0, slot, outcome);
      }
    }

    /** Finalize a list of verdicts at node `i`, recording those that are news. */
    method ResolveAt(i: nat, verdicts: seq<(nat, ProposalOutcome)>, slot: nat, metrics: MetricsCollector)
      requires Distinct(states) && i < |states|
      modifies states, this`recorded, metrics`proposals
      ensures Views(states) == old(Views(states))[i := FinalizedAll(old(Views(states))[i], verdicts)]
      ensures (recorded, metrics.proposals)
           == AnnouncedAll(old(recorded), old(metrics.proposals), verdicts, starts, slot)
    {
      hide Views, Distinct, Finalized, Ledger.Announce;
      ghost var views := Views(states);
      assert verdicts[..0] == [];
      for k := 0 to |verdicts|
        invariant Views(states) == views[i := FinalizedAll(views[i], verdicts[..k])]
        invariant (recorded, metrics.proposals)
               == AnnouncedAll(old(recorded), old(metrics.proposals), verdicts[..k], starts, slot)
      {
        assert verdicts[..k + 1][..k] == verdicts[..k];
        FinalizeAt(i, verdicts[k].0, verdicts[k].1);
        Announce(verdicts[k].0, verdicts[k].1, slot, metrics);
      }
      assert verdicts[..|verdicts|] == verdicts;
    }

    method VerdictsAt(i: nat, r: nat, n: nat) returns (verdicts: seq<(nat, ProposalOutcome)>)
      requires i < |states|
      ensures verdicts == Verdicts(Views(states)[i].pending, |Views(states)[i].pending|, r, n)
    {
      assert states[i].View() == Views(states)[i];
      verdicts := states[i].CloseWindows(r, n);
    }

    method AbortsAt(i: nat) returns (verdicts: seq<(nat, ProposalOutcome)>)
      requires i < |states|
      ensures verdicts == FastAborts(Views(states)[i].pending)
    {
      assert states[i].View() == Views(states)[i];
      verdicts := states[i].CollectAborts();
    }

    // -------------------------------------------------------------- preparing

    /** The proposing half of a preparation: gap, new transaction if any. */
    method Open(i: nat, r: nat, slot: nat, ghost c: Plan, ghost sys: Sys) returns (t: nat, data: Data, nack: nat)
      requires Distinct(states) && |states| == c.n > 0 && numTxs == c.txs && coins == c.aborts && i == r % c.n
      requires Views(states) == sys.states && txCounter == sys.txCounter && generated == sys.generated
      requires starts == sys.starts
      modifies this`txCounter, this`generated, this`starts, states
      ensures Views(states) == sys.states[i := WithProposal(c, sys, r)]
      ensures txCounter == sys.txCounter + (if sys.generated < c.txs then 1 else 0)
      ensures generated == sys.generated + (if sys.generated < c.txs then 1 else 0)
      ensures t == CurrentTx(c, sys)
      ensures starts == (if sys.generated < c.txs then sys.starts[t := slot] else sys.starts)
      ensures data == (if sys.generated < c.txs then Tx(t) else Empty)
      ensures nack == var gap := FirstMissing(sys.states[i], 0, sys.txCounter); if gap.Some? then gap.value else 0
    {
      var state := states[i];
      assert state.View() == sys.states[i];
      var gap := state.DetectGap(txCounter);
      nack := if gap.Some? then gap.value else 0;
      if generated < numTxs {
        t, data := txCounter, Tx(txCounter);
        var abort := coins(r, i);
        state.Propose(PendingTx(t, data, if abort then NoBits(|states|) else OneBit(|states|, i), abort, r));
        txCounter := txCounter + 1;
        generated := generated + 1;
        starts := starts[t := slot];
      } else {
        t, data := if txCounter == 0 then 0 else txCounter - 1, Empty;
      }
      assert forall j :: 0 <= j < |states| && j != i ==> states[j].View() == sys.states[j];
    }

    /** The packet of initiator `i`. */
    method Compose(i: nat, t: nat, data: Data, nack: nat) returns (pkt: Packet)
      requires i < |states| && Fitting(Views(states)[i], |states|)
      ensures var (bits, abort) := FlagsFor(Views(states)[i], |states|, t, i);
        pkt == Packet(t, bits, abort, nack, data, i, piggyback)
    {
      assert states[i].View() == Views(states)[i];
      var bits, abort := states[i].Flags(|states|, t, i);
      pkt := Packet(t, bits, abort, nack, data, i, piggyback);
    }

    /** Before round `r`: initiator `i` proposes, closes what is due, and gets its packet ready. */
    method Prepare(i: nat, r: nat, slot: nat, metrics: MetricsCollector, ghost c: Plan) returns (pkt: Packet)
      requires Distinct(states) && |states| == c.n && numTxs == c.txs && coins == c.aborts
      requires ValidPlan(c) && i == r % c.n && slot == c.preparedAt(r)
      requires TwoPcSafety.AllOk(c, State(metrics.proposals), r)
      modifies this`txCounter, this`generated, this`starts, this`recorded, states, metrics`proposals
      ensures (State(metrics.proposals), pkt) == Prepared(c, old(State(metrics.proposals)), r)
    {
      hide TwoPcSafety.AllOk, FirstMissing, WithProposal, FinalizedAll, FlagsFor, AnnouncedAll, Verdicts, Views,
           Distinct, Prepared, Fitting;
      ghost var sys := State(metrics.proposals);
      OpenedFits(c, sys, r);
      var t, data, nack := Open(i, r, slot, c, sys);
      var verdicts := VerdictsAt(i, r, |states|);
      ResolveAt(i, verdicts, slot, metrics);
      pkt := Compose(i, t, data, nack);
      PreparedIs(c, sys, r, State(metrics.proposals), verdicts, nack, pkt);
    }

    /** Before a round of the core: prepare, and hand the packet to the initiator's radio. */
    method PrepareRound(core: Core)
      requires core.Running() && Distinct(states) && |states| == |core.config.g|
      requires TwoPcSafety.AllOk(PlanOf(core.config, numTxs, coins), State(core.metrics.proposals), core.roundNum)
      modifies this`txCounter, this`generated, this`starts, this`recorded, states
      modifies core.nodes`payload, core.metrics`proposals
      ensures core.Running() && core.roundNum == old(core.roundNum)
      ensures var (sys, pkt) :=
          Prepared(PlanOf(core.config, numTxs, coins), old(State(core.metrics.proposals)), core.roundNum);
        State(core.metrics.proposals) == sys && core.nodes[core.Initiator()].payload == Some(pkt)
      ensures Progress(core.nodes) == old(Progress(core.nodes))
    {
      hide TwoPcSafety.AllOk, Prepared, CiPipeline.Accounted, PlanOf, RoundStart;
      ghost var c, r := PlanOf(core.config, numTxs, coins), core.roundNum;
      PlanIs(core.config, numTxs, coins, r);
      var pkt := Prepare(core.Initiator(), core.roundNum, core.currentSlot, core.metrics, c);
      core.Load(Some(pkt));
    }

    // -------------------------------------------------------------- processing

    method TakeNewAt(i: nat, r: nat, pkt: Packet, ghost c: Plan)
      requires Distinct(states) && i < |states| && i < |pkt.bits| && coins == c.aborts
      modifies states
      ensures Views(states) == old(Views(states))[i := TakeTx(c, old(Views(states))[i], i, r, pkt)]
    {
      states[i].TakeNew(i, r, pkt, coins(r, i));
      assert forall j :: 0 <= j < |states| && j != i ==> states[j].View() == old(states[j].View());
    }

    method VoteAt(i: nat, pkt: Packet)
      requires Distinct(states) && i < |states| && |pkt.bits| == |states| && Fitting(Views(states)[i], |states|)
      modifies states
      ensures Views(states) == old(Views(states))[i := Voted(old(Views(states))[i], i, |states|, pkt)]
    {
      assert states[i].View() == Views(states)[i];
      states[i].Vote(i, |states|, pkt);
      assert forall j :: 0 <= j < |states| && j != i ==> states[j].View() == old(states[j].View());
    }

    /** Flagged transactions are aborted on the spot; a piggybacked verdict is taken over. */
    method LearnAt(i: nat, pkt: Packet, slot: nat, metrics: MetricsCollector)
      requires Distinct(states) && i < |states|
      modifies states, this`recorded, metrics`proposals
      ensures Views(states) == old(Views(states))[i := Learned(old(Views(states))[i], pkt)]
      ensures (recorded, metrics.proposals)
           == AnnouncedAll(old(recorded), old(metrics.proposals), FastAborts(old(Views(states))[i].pending), starts,
                           slot)
    {
      hide Views, Distinct, Finalized, FinalizedAll, AnnouncedAll, FastAborts;
      var aborts := AbortsAt(i);
      ResolveAt(i, aborts, slot, metrics);
      if pkt.piggyback.Some? {
        FinalizeAt(i, pkt.piggyback.value.0, pkt.piggyback.value.1);
      }
    }

    /** The verdict a preparing initiator will piggyback, if node `i` has the one asked for. */
    method AnswerNack(i: nat, nack: nat)
      requires i < |states|
      modifies this`piggyback
      ensures var verdict := if nack > 0 then Verdict(Views(states)[i].log, nack) else None;
        piggyback == if verdict.Some? then Some((nack, verdict.value)) else old(piggyback)
    {
      assert states[i].View() == Views(states)[i];
      if nack > 0 {
        var verdict := states[i].FindVerdict(nack);
        if verdict.Some? {
          piggyback := Some((nack, verdict.value));
        }
      }
    }

    method CloseAt(i: nat, r: nat)
      requires Distinct(states) && i < |states|
      modifies states
      ensures Views(states) == old(Views(states))[i := Closed(old(Views(states))[i], r, |states|)]
    {
      hide Views, Distinct, FinalizedAll, Verdicts;
      var verdicts := VerdictsAt(i, r, |states|);
      FinalizeAllAt(i, verdicts);
    }

    /** Participant `i` processes the packet of round `r`. */
    method Handle(i: nat, r: nat, pkt: Packet, slot: nat, metrics: MetricsCollector, ghost c: Plan)
      requires Distinct(states) && |states| == c.n && i < c.n && slot == c.processedAt(r) && coins == c.aborts
      requires ValidPlan(c) && i in c.parts(r)
      requires TwoPcSafety.AllOk(c, State(metrics.proposals), r + 1)
      requires TwoPcSafety.PacketOk(c, pkt, r, txCounter)
      modifies this`recorded, this`piggyback, states, metrics`proposals
      ensures State(metrics.proposals) == ProcessNode(c, old(State(metrics.proposals)), r, pkt, i)
    {
      hide TwoPcSafety.AllOk, TakeTx, Voted, Learned, Closed, Verdict, AnnouncedAll, FastAborts, Views,
           Distinct, Fitting;
      ghost var sys := State(metrics.proposals);
      TakenFits(c, sys, r, pkt, i);
      TakeNewAt(i, r, pkt, c);
      VoteAt(i, pkt);
      LearnAt(i, pkt, slot, metrics);
      AnswerNack(i, pkt.nack);
      CloseAt(i, r);
      assert Views(states) == sys.states[i := Closed(Learned(Heard(c, sys.states[i], i, r, pkt), pkt), r, c.n)];
    }

    /** Node `i`'s turn in the processing of round `r`. */
    method Turn(i: nat, r: nat, took: bool, pkt: Option<Packet>, slot: nat, metrics: MetricsCollector,
                ghost c: Plan, ghost sent: Packet)
      requires Distinct(states) && |states| == c.n && i < c.n && slot == c.processedAt(r) && coins == c.aborts
      requires ValidPlan(c) && took == (i in c.parts(r)) && (took ==> pkt == Some(sent))
      requires TwoPcSafety.AllOk(c, State(metrics.proposals), r + 1)
      requires TwoPcSafety.PacketOk(c, sent, r, txCounter)
      modifies this`recorded, this`piggyback, states, metrics`proposals
      ensures State(metrics.proposals) == ProcessNode(c, old(State(metrics.proposals)), r, sent, i)
    {
      hide TwoPcSafety.AllOk, TwoPcSafety.PacketOk, Heard, Learned, Closed, Verdict, AnnouncedAll, FastAborts, Views,
           Distinct;
      if took {
        Handle(i, r, pkt.value, slot, metrics, c);
      }
    }

    /** Every node's turn. */
    method Turns(took: seq<bool>, inbox: seq<Option<Packet>>, r: nat, slot: nat, metrics: MetricsCollector,
                 ghost c: Plan, ghost sent: Packet)
      requires Distinct(states) && |states| == c.n == |took| == |inbox| && coins == c.aborts
      requires ValidPlan(c) && slot == c.processedAt(r)
      requires forall i :: 0 <= i < c.n ==> (took[i] <==> i in c.parts(r)) && (took[i] ==> inbox[i] == Some(sent))
      requires TwoPcSafety.AllOk(c, State(metrics.proposals), r + 1)
      requires TwoPcSafety.PacketOk(c, sent, r, txCounter)
      modifies this`recorded, this`piggyback, states, metrics`proposals
      ensures State(metrics.proposals) == ProcessUpTo(c, old(State(metrics.proposals)), r, sent, c.n)
    {
      hide TwoPcSafety.NodeOk, TwoPcSafety.PacketOk, TwoPcSafety.Due, ProcessNode, Views, Distinct;
      ghost var sys := State(metrics.proposals);
      piggyback := None;
      for i := 0 to |states|
        invariant State(metrics.proposals) == ProcessUpTo(c, sys, r, sent, i)
      {
        TwoPcSafety.ProcessUpToOk(c, sys, r, sent, i);
        Turn(i, r, took[i], inbox[i], slot, metrics, c, sent);
      }
    }

    // -------------------------------------------------------------- the end of a round

    method LeastFinalized() returns (least: nat)
      requires states != []
      ensures least == Informed(Views(states))
    {
      least := |states[0].log|;
      for i := 1 to |states|
        invariant least == Informed(Views(states)[..i])
      {
        assert Views(states)[..i + 1][..i] == Views(states)[..i];
        if |states[i].log| < least {
          least := |states[i].log|;
        }
      }
      assert Views(states)[..|states|] == Views(states);
    }

    /** Report to every node whether it is complete and how far the slowest one is. */
    method ReportProgress(core: Core)
      requires core.Flooded() && |states| == |core.nodes|
      modifies core.nodes`goalReached, core.nodes`progressCount
      ensures core.Flooded()
      ensures forall i :: 0 <= i < |core.nodes| ==>
        && core.nodes[i].goalReached == (|Views(states)[i].log| >= numTxs)
        && core.nodes[i].progressCount == Informed(Views(states))
    {
      hide CiPipeline.Accounted, Informed, RoundStart, FinalWave;
      var least := LeastFinalized();
      for k := 0 to |states|
        invariant forall i :: 0 <= i < k ==>
          && core.nodes[i].goalReached == (|Views(states)[i].log| >= numTxs)
          && core.nodes[i].progressCount == least
      {
        assert Views(states)[k].log == states[k].log;
        core.nodes[k].goalReached := |states[k].log| >= numTxs;
        core.nodes[k].progressCount := least;
      }
      assert Meters(core.nodes) == old(Meters(core.nodes));
    }

    method CheckAllResolved() returns (all: bool)
      ensures all == AllResolved(Views(states), numTxs)
    {
      for i := 0 to |states|
        invariant forall j :: 0 <= j < i ==> |Views(states)[j].log| >= numTxs
      {
        assert states[i].View() == Views(states)[i];
        if |states[i].log| < numTxs {
          return false;
        }
      }
      return true;
    }

    method CheckStop(r: nat, ghost c: Plan, ghost records: seq<ProposalRecord>)
      requires c.txs == numTxs
      modifies this`stop
      ensures State(records) == var sys := old(State(records)); sys.(stop := sys.stop || ShouldStop(c, sys, r))
    {
      hide AllResolved, Views;
      var all := CheckAllResolved();
      if all && generated >= numTxs {
        stop := true;
      } else if r > numTxs + 1000 {
        stop := true;
      }
    }

    /** After a round's flood: every participant processes what it received. */
    method ProcessRound(core: Core, ghost sent: Packet)
      requires core.Flooded() && Distinct(states) && |states| == |core.config.g|
      requires forall i :: 0 <= i < |core.nodes| ==>
        (core.Participated(i) <==> i in Takers(core.config, core.roundNum))
        && (core.Participated(i) ==> core.nodes[i].payload == Some(sent))
      requires TwoPcSafety.AllOk(PlanOf(core.config, numTxs, coins), State(core.metrics.proposals), core.roundNum + 1)
      requires TwoPcSafety.PacketOk(PlanOf(core.config, numTxs, coins), sent, core.roundNum, txCounter)
      modifies this`recorded, this`piggyback, this`stop, states, core.metrics`proposals
      modifies core.nodes`goalReached, core.nodes`progressCount
      ensures core.Flooded()
      ensures State(core.metrics.proposals)
           == Processed(PlanOf(core.config, numTxs, coins), old(State(core.metrics.proposals)), core.roundNum, sent)
      ensures forall i :: 0 <= i < |core.nodes| ==>
        && core.nodes[i].goalReached == (|Views(states)[i].log| >= numTxs)
        && core.nodes[i].progressCount == Informed(Views(states))
    {
      hide TwoPcSafety.AllOk, TwoPcSafety.PacketOk, CiPipeline.Accounted, PlanOf, RoundStart, ProcessUpTo, ShouldStop,
           Distinct, Takers, Views, Informed, FinalWave;
      ghost var c, r := PlanOf(core.config, numTxs, coins), core.roundNum;
      PlanIs(core.config, numTxs, coins, r);
      var took, inbox := core.Inbox();
      Turns(took, inbox, core.roundNum, core.currentSlot, core.metrics, c, sent);
      ReportProgress(core);
      CheckStop(core.roundNum, c, core.metrics.proposals);
    }

    method Flood(core: Core)
      requires core.Running()
      modifies core`currentSlot, core`nextSnapshot, core.nodes, core.metrics`snapshots, core.metrics`history
      ensures core.Flooded() && core.roundNum == old(core.roundNum)
      ensures State(core.metrics.proposals) == old(State(core.metrics.proposals))
      ensures forall i :: 0 <= i < |core.nodes| ==>
        (core.Participated(i) <==> i in Takers(core.config, core.roundNum))
        && (core.Participated(i) ==> core.nodes[i].payload == old(core.nodes[core.Initiator()].payload))
      ensures Progress(core.nodes) == old(Progress(core.nodes))
      ensures core.metrics.history
           == old(core.metrics.history) + FloodRows(core.config, core.roundNum, old(Progress(core.nodes)))
    {
      hide CiPipeline.Accounted, RoundStart, Takers, FinalWave, FloodRows;
      core.FloodIdentical();
    }

    /** One whole round. */
    method RunRound(core: Core)
      requires core.Running() && Distinct(states) && |states| == |core.config.g|
      requires State(core.metrics.proposals) == After(PlanOf(core.config, numTxs, coins), core.roundNum)
      modifies this`txCounter, this`generated, this`starts, this`recorded, this`piggyback, this`stop, states
      modifies core`currentSlot, core`nextSnapshot, core.nodes, core.metrics
      ensures core.Flooded() && core.roundNum == old(core.roundNum)
      ensures State(core.metrics.proposals) == After(PlanOf(core.config, numTxs, coins), core.roundNum + 1)
      ensures forall i :: 0 <= i < |core.nodes| ==> core.nodes[i].progressCount == Informed(Views(states))
      ensures core.metrics.history
           == old(core.metrics.history) + FloodRows(core.config, core.roundNum, old(Progress(core.nodes)))
    {
      hide TwoPcSafety.AllOk, TwoPcSafety.PacketOk, CiPipeline.Accounted, PlanOf, RoundStart, Prepared, Processed,
           Distinct, Takers, Views, FinalWave, After, Informed, FloodRows, Everyone,
           CiCore<Option<Packet>>.Running, CiCore<Option<Packet>>.Flooded;
      core.IsValid();
      ghost var c, r := PlanOf(core.config, numTxs, coins), core.roundNum;
      ghost var (sys, sent) := Prepared(c, After(c, r), r);
      OneRound(c, r);
      PrepareRound(core);
      assert State(core.metrics.proposals) == sys;
      Flood(core);
      assert State(core.metrics.proposals) == sys;
      ProcessRound(core, sent);
    }

    method CountRound(core: Core)
      requires core.Flooded()
      modifies core`roundNum
      ensures core.Running() && core.roundNum == old(core.roundNum) + 1
      ensures State(core.metrics.proposals) == old(State(core.metrics.proposals))
    {
      hide CiPipeline.Accounted, RoundStart, FinalWave;
      core.roundNum := core.roundNum + 1;
    }

    // -------------------------------------------------------------- the run

    /** Everything is as the specification has it after `k` rounds. */
    ghost predicate Reached(core: Core, k: nat)
      reads this, states, core, core.nodes, core.metrics
    {
      && core.Sound() && core.currentSlot == RoundStart(core.config, k)
      && Distinct(states) && |states| == |core.config.g|
      && State(core.metrics.proposals) == After(PlanOf(core.config, numTxs, coins), k)
      && core.Reporting(Informing(PlanOf(core.config, numTxs, coins)), k)
    }

    /** One turn of the run loop: `more` says whether the loop goes on. */
    method RunOnce(core: Core, ghost k: nat) returns (more: bool, ghost k': nat)
      requires Reached(core, k) && core.roundNum == k < MAX_ROUNDS && !stop
      modifies this`txCounter, this`generated, this`starts, this`recorded, this`piggyback, this`stop, states
      modifies core`currentSlot, core`nextSnapshot, core`roundNum, core.nodes, core.metrics
      ensures Reached(core, k')
      ensures var stops := Stops(PlanOf(core.config, numTxs, coins));
        && k <= k' <= k + 1
        && (k' > k ==> GoesOn(core.config, stops, k))
        && (more ==> k' == k + 1 && core.roundNum == k' < MAX_ROUNDS && !stop)
        && (!more ==> !GoesOn(core.config, stops, k'))
    {
      hide PlanOf, RoundStart, After, Views, FinalWave, CiPipeline.Accounted, Distinct, History, Informing,
           CiCore<Option<Packet>>.Sound;
      core.IsValid();
      if core.currentSlot >= core.config.maxSlots {
        return false, k;
      }
      ghost var c := PlanOf(core.config, numTxs, coins);
      RunRound(core);
      InformingIs(c, k + 1);
      RoundReported(core, Informing(c), k, old(core.metrics.history), old(Progress(core.nodes)));
      k' := k + 1;
      if stop {
        return false, k';
      }
      CountRound(core);
      more := core.roundNum <= 1_000_000;
    }

    lemma ReadyToRun(core: Core)
      requires core.Running() && core.roundNum == 0 && core.metrics.proposals == []
      requires core.metrics.history == [] && Progress(core.nodes) == Everyone(|core.nodes|, 0)
      requires Distinct(states) && |states| == |core.config.g| && State([]) == Start(|states|)
      ensures Reached(core, 0) && !stop
    {
      hide Distinct, CiPipeline.Accounted;
      NobodyInformed(Start(|states|).states);
      PlanIs(core.config, numTxs, coins, 0);
    }

    /**
      A whole run: rounds until the protocol stops, the slots run out or the cap is
      reached.  `rounds` of them leave exactly the state the specification has after
      as many, and the books balanced.
     */
    method Run(core: Core) returns (ghost rounds: nat)
      requires core.Running() && core.roundNum == 0 && core.metrics.proposals == []
      requires core.metrics.history == [] && Progress(core.nodes) == Everyone(|core.nodes|, 0)
      requires Distinct(states) && |states| == |core.config.g| && State([]) == Start(|states|)
      modifies this`txCounter, this`generated, this`starts, this`recorded, this`piggyback, this`stop, states
      modifies core`currentSlot, core`nextSnapshot, core`roundNum, core.nodes, core.metrics
      ensures RunTakes(core.config, Stops(PlanOf(core.config, numTxs, coins)), rounds)
      ensures Reached(core, rounds)
    {
      hide Reached, Stops, PlanOf, GoesOn, State, Start, RoundStart, Distinct, CiPipeline.Accounted, Views;
      ghost var stops := Stops(PlanOf(core.config, numTxs, coins));
      ReadyToRun(core);
      rounds := 0;
      var more := true;
      while more
        invariant Reached(core, rounds)
        invariant more ==> core.roundNum == rounds < MAX_ROUNDS && !stop
        invariant forall q: nat :: q < rounds ==> GoesOn(core.config, stops, q)
        invariant !more ==> !GoesOn(core.config, stops, rounds)
        decreases if more then MAX_ROUNDS - rounds + 1 else 0
      {
        more, rounds := RunOnce(core, rounds);
      }
    }
  }

  lemma TakenFits(c: Plan, sys: Sys, r: nat, pkt: Packet, i: nat)
    requires ValidPlan(c) && TwoPcSafety.AllOk(c, sys, r + 1) && i < c.n && i in c.parts(r)
    requires TwoPcSafety.PacketOk(c, pkt, r, sys.txCounter)
    ensures |pkt.bits| == c.n && Fitting(TakeTx(c, sys.states[i], i, r, pkt), c.n)
  {
    assert TwoPcSafety.NodeOk(c, sys.states[i], r + 1, sys.txCounter);
    TwoPcSafety.TakeOk(c, sys.states[i], i, r, sys.txCounter, pkt);
    hide TakeTx, TwoPcSafety.Tidy, TwoPcSafety.AllDue;
    var st := TakeTx(c, sys.states[i], i, r, pkt);
    assert forall k :: 0 <= k < |st.pending| ==> TwoPcSafety.EntryOk(c, st.pending[k], sys.txCounter);
  }

  lemma LosslessPlan(config: PipeConfig, txs: nat, coins: (nat, nat) -> bool)
    requires ValidPipe(config) && Connected(config.g) && config.ci.roundSlots.None? && PatientLinks(config)
    ensures TwoPcLossless.Lossless(PlanOf(config, txs, coins))
  {
    hide RoundStart, Connected, Takers, PlanOf, PatientLinks;
    var c := PlanOf(config, txs, coins);
    forall r: nat, i: nat | i < c.n ensures i in c.parts(r) {
      PlanIs(config, txs, coins, r);
      EverybodyTakesPart(config, r, i);
    }
  }

  /** The rounds of a run without losses. */
  ghost function LosslessRounds(c: Plan): nat
    requires c.n > 0
  {
    Least(Least(TwoPcLossless.RoundsNeeded(c, c.txs), c.txs + 1002), MAX_ROUNDS)
  }

  /**
    A whole run on a connected network with patient links, the default round length and
    enough slots, for any coins: it takes exactly the rounds those need, unless the idle-round
    timeout or the cap on rounds comes first; every log holds exactly the verdicts due by then,
    and all are complete exactly if the run was not cut short.
   */
  lemma PatientRun(config: PipeConfig, txs: nat, coins: (nat, nat) -> bool, rounds: nat)
    requires ValidPipe(config) && Connected(config.g) && config.ci.roundSlots.None? && PatientLinks(config)
    requires txs >= 1
    requires forall q: nat :: q < LosslessRounds(PlanOf(config, txs, coins)) ==> RoundStart(config, q) < config.maxSlots
    requires RunTakes(config, Stops(PlanOf(config, txs, coins)), rounds)
    ensures var c := PlanOf(config, txs, coins);
      && rounds == LosslessRounds(c)
      && (forall j: nat, t: nat, o :: j < c.n && t < txs ==>
            ((t, o) in After(c, rounds).states[j].log
             <==> o == TwoPcLossless.LosslessVerdict(c, j, t) && TwoPcLossless.DecidedIn(c, j, t) < rounds))
      && (AllResolved(After(c, rounds).states, txs) <==> rounds == TwoPcLossless.RoundsNeeded(c, txs))
  {
    hide RoundStart, After, Connected, Takers, PlanOf, PatientLinks, AllResolved, TwoPcLossless.Lossless,
         TwoPcLossless.RoundsNeeded, TwoPcLossless.LosslessVerdict, TwoPcLossless.DecidedIn;
    var c := PlanOf(config, txs, coins);
    LosslessPlan(config, txs, coins);
    PlanIs(config, txs, coins, 0);
    forall q: nat ensures Stops(c)(q) <==> q >= Least(TwoPcLossless.RoundsNeeded(c, txs), txs + 1002) {
      TwoPcLossless.LosslessLength(c, q);
    }
    assert RunTakes(config, Stops(c), LosslessRounds(c));
    RunLengthUnique(config, Stops(c), rounds, LosslessRounds(c));
    forall j: nat, t: nat, o | j < c.n && t < txs
      ensures (t, o) in After(c, rounds).states[j].log
        <==> o == TwoPcLossless.LosslessVerdict(c, j, t) && TwoPcLossless.DecidedIn(c, j, t) < rounds
    {
      TwoPcLossless.LosslessLogs(c, rounds, j, t, o);
    }
    TwoPcLossless.ResolvedExactly(c, rounds);
  }

  lemma {:induction false} NobodyInformed(states: seq<TwoPcState>)
    requires states != [] && forall i :: 0 <= i < |states| ==> states[i].log == []
    ensures Informed(states) == 0
  {
    if |states| > 1 {
      NobodyInformed(states[..|states| - 1]);
    }
  }

  lemma InformingIs(c: Plan, q: nat)
    requires c.n > 0
    ensures Informing(c)(q) == Informed(After(c, q).states)
  {
    hide After, Informed;
  }

  /** One more round reported. */
  lemma RoundReported(core: Core, progress: nat -> nat, r: nat, history: seq<Snapshot>, before: seq<nat>)
    requires core.Flooded() && history == History(core.config, progress, r)
    requires before == Everyone(|core.config.g|, progress(r))
    requires core.metrics.history == history + FloodRows(core.config, r, before)
    requires forall i :: 0 <= i < |core.nodes| ==> core.nodes[i].progressCount == progress(r + 1)
    ensures core.Reporting(progress, r + 1)
  {
    hide CiPipeline.Accounted, FloodRows, RoundStart, FinalWave;
  }

  /** A round of the specification, in its two halves. */
  lemma OneRound(c: Plan, r: nat)
    requires ValidPlan(c)
    ensures TwoPcSafety.AllOk(c, After(c, r), r)
    ensures var (sys, sent) := Prepared(c, After(c, r), r);
      && After(c, r + 1) == Processed(c, sys, r, sent)
      && TwoPcSafety.AllOk(c, sys, r + 1) && TwoPcSafety.PacketOk(c, sent, r, sys.txCounter)
  {
    TwoPcSafety.ReachableOk(c, r);
    TwoPcSafety.PreparedOk(c, After(c, r), r);
  }

  lemma OpenedFits(c: Plan, sys: Sys, r: nat)
    requires ValidPlan(c) && TwoPcSafety.AllOk(c, sys, r)
    ensures var st := WithProposal(c, sys, r);
      Fitting(FinalizedAll(st, Verdicts(st.pending, |st.pending|, r, c.n)), c.n)
  {
    TwoPcSafety.OpenedOk(c, sys, r);
    hide WithProposal, FinalizedAll, Verdicts, TwoPcSafety.Tidy, TwoPcSafety.AllDue;
    var st := TwoPcSafety.Opened(c, sys, r);
    assert forall k :: 0 <= k < |st.pending| ==>
        TwoPcSafety.EntryOk(c, st.pending[k], sys.txCounter + (if sys.generated < c.txs then 1 else 0));
  }

  /** The preparation of a round, put together from its parts. */
  lemma PreparedIs(c: Plan, sys: Sys, r: nat, sys': Sys, verdicts: seq<(nat, ProposalOutcome)>, nack: nat, pkt: Packet)
    requires |sys.states| == c.n > 0
    requires var i, proposing, t := r % c.n, sys.generated < c.txs, CurrentTx(c, sys);
      var st := WithProposal(c, sys, r);
      var st' := FinalizedAll(st, verdicts);
      var (bits, abort) := FlagsFor(st', c.n, t, i);
      && verdicts == Verdicts(st.pending, |st.pending|, r, c.n)
      && sys'.states == sys.states[i := st']
      && sys'.txCounter == sys.txCounter + (if proposing then 1 else 0)
      && sys'.generated == sys.generated + (if proposing then 1 else 0)
      && sys'.starts == (if proposing then sys.starts[t := c.preparedAt(r)] else sys.starts)
      && (sys'.recorded, sys'.records)
         == AnnouncedAll(sys.recorded, sys.records, verdicts, sys'.starts, c.preparedAt(r))
      && sys'.piggyback == sys.piggyback && sys'.stop == sys.stop
      && nack == (var gap := FirstMissing(sys.states[i], 0, sys.txCounter); if gap.Some? then gap.value else 0)
      && pkt == Packet(t, bits, abort, nack, if proposing then Tx(t) else Empty, i, sys.piggyback)
    ensures (sys', pkt) == Prepared(c, sys, r)
  {
    hide FirstMissing, WithProposal, FinalizedAll, FlagsFor, AnnouncedAll, Verdicts;
  }

  /**
    Two whole runs that differ in nothing but the snapshot interval, one sampling every
    slot: both take the same rounds and slots, leave the same protocol state and records
    and charge the same to each radio state, and the coarser snapshots are exactly the
    others at the multiples of its interval.
   */
  lemma SampledRun(full: TwoPcCi, fullCore: Core, a: nat, coarse: TwoPcCi, coarseCore: Core, b: nat)
    requires full.numTxs == coarse.numTxs && full.coins == coarse.coins
    requires fullCore.config == coarseCore.config.(interval := 1)
    requires full.Reached(fullCore, a) && coarse.Reached(coarseCore, b)
    requires RunTakes(fullCore.config, Stops(PlanOf(fullCore.config, full.numTxs, full.coins)), a)
    requires RunTakes(coarseCore.config, Stops(PlanOf(coarseCore.config, coarse.numTxs, coarse.coins)), b)
    ensures a == b && full.State(fullCore.metrics.proposals) == coarse.State(coarseCore.metrics.proposals)
    ensures fullCore.currentSlot == coarseCore.currentSlot
    ensures forall s: NodeState :: Total(Meters(fullCore.nodes), s) == Total(Meters(coarseCore.nodes), s)
    ensures SampledEvery(fullCore.metrics.snapshots, coarseCore.metrics.snapshots, coarseCore.config.interval)
  {
    hide CiPipeline.Accounted, RoundStart, RunTakes, After, History, Total, Meters, SampledEvery, Stops, Informing,
         PlanFor, Views;
    assert Course(fullCore.config) == Course(coarseCore.config);
    var c := PlanOf(coarseCore.config, coarse.numTxs, coarse.coins);
    CiPipeline.SampledRun(fullCore, coarseCore, Stops(c), Informing(c), a, b);
  }
}
