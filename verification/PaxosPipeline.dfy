/**
  The Paxos pipeline as the simulator runs it: node states and round hooks that
  update their fields in place, proved equal to the rounds of module PaxosRun.
 */
module PaxosPipeline {
  import opened Wrappers
  import opened Bitmaps
  import opened Messages
  import opened Nodes
  import opened Metrics
  import opened Network
  import opened Ledger
  import opened CiPipeline
  import opened PaxosNode
  import opened PaxosRun
  import PaxosSafety
  import PaxosLossless

  class NodePaxosState {
    var highestSeen: Option<nat>
    var lastAccepted: Option<nat>
    var log: seq<(nat, Data)>
    var pending: seq<Pending>

    constructor ()
      ensures View() == FRESH
    {
      highestSeen, lastAccepted, log, pending := None, None, [], [];
    }

    function View(): PaxosState
      reads this
    {
      PaxosState(highestSeen, lastAccepted, log, pending)
    }

    method LogHas(t: nat) returns (found: bool)
      ensures found <==> InLog(log, t)
    {
      for k := 0 to |log|
        invariant forall j :: 0 <= j < k ==> log[j].0 != t
      {
        if log[k].0 == t {
          return true;
        }
      }
      return false;
    }

    method FindPending(t: nat) returns (pos: Option<nat>)
      ensures pos == Position(pending, t)
    {
      for k := 0 to |pending|
        invariant forall j :: 0 <= j < k ==> pending[j].term != t
      {
        if pending[k].term == t {
          PositionAt(pending, k);
          return Some(k);
        }
      }
      return None;
    }

    /** Votes count for every pending proposal up to a term. */
    method MergeVotesUpTo(upTo: nat, bits: seq<bool>)
      requires forall k :: 0 <= k < |pending| ==> |bits| <= |pending[k].bits|
      modifies this`pending
      ensures pending == MergedVotes(old(pending), upTo, bits)
    {
      for k := 0 to |pending|
        invariant |pending| == |old(pending)|
        invariant forall j :: 0 <= j < k ==> pending[j] == MergedVotes(old(pending), upTo, bits)[j]
        invariant forall j :: k <= j < |pending| ==> pending[j] == old(pending)[j]
      {
        if pending[k].term <= upTo {
          var merged, _ := OrInto(pending[k].bits, bits, |bits|);
          pending := pending[k := pending[k].(bits := merged)];
        }
      }
    }

    method CheckQuorum(t: nat) returns (reached: bool)
      ensures reached == QuorumReached(pending, t)
    {
      var pos := FindPending(t);
      if pos.None? {
        return false;
      }
      var votes := CountVotes(pending[pos.value].bits);
      return votes >= |pending[pos.value].bits| / 2 + 1;
    }

    method CommitTerm(t: nat)
      modifies this`log, this`pending, this`lastAccepted
      ensures View() == CommittedTerm(old(View()), t)
    {
      var logged := LogHas(t);
      if logged {
        return;
      }
      var pos := FindPending(t);
      if pos.Some? {
        var p := pending[pos.value];
        pending := pending[..pos.value] + pending[pos.value + 1..];
        log := log + [(t, p.data)];
      }
      if !(lastAccepted.Some? && lastAccepted.value >= t) {
        lastAccepted := Some(t);
      }
    }

    /** Commit every term up to `upTo`, listing those that were not in the log. */
    method CommitUpTo(upTo: nat) returns (newly: seq<nat>)
      modifies this`log, this`pending, this`lastAccepted
      ensures (View(), newly) == CommittedUpTo(old(View()), upTo)
    {
      hide CommittedTerm, InLog;
      newly := [];
      assert newly + CommittedUpTo(View(), upTo).1 == CommittedUpTo(View(), upTo).1;
      for t := 0 to upTo + 1
        invariant CommittedUpTo(old(View()), upTo)
               == (CommittedRange(View(), t, upTo).0, newly + CommittedRange(View(), t, upTo).1)
      {
        var logged := LogHas(t);
        if !logged {
          ghost var later := CommittedRange(CommittedTerm(View(), t), t + 1, upTo);
          CommitTerm(t);
          assert newly + ([t] + later.1) == newly + [t] + later.1;
          newly := newly + [t];
        }
      }
      assert newly + [] == newly;
    }

    /** The first term before `upTo` missing from both log and pending list. */
    method DetectGap(upTo: nat) returns (gap: Option<nat>)
      ensures gap == Gap(View(), upTo)
    {
      var t := if lastAccepted.Some? then lastAccepted.value + 1 else 0;
      while t < upTo
        invariant Gap(View(), upTo) == GapFrom(View(), t, upTo)
      {
        var logged := LogHas(t);
        var pos := FindPending(t);
        if !logged && pos.None? {
          return Some(t);
        }
        t := t + 1;
      }
      return None;
    }

    /** The highest pending term with a majority. */
    method BestQuorum() returns (best: Option<nat>)
      ensures best == HighestQuorum(pending, |pending|)
    {
      hide QuorumReached;
      best := None;
      for k := 0 to |pending|
        invariant best == HighestQuorum(pending, k)
      {
        var reached := CheckQuorum(pending[k].term);
        if reached && (if best.Some? then best.value else 0) <= pending[k].term {
          best := Some(pending[k].term);
        }
      }
    }

    method Propose(t: nat, data: Data, bits: seq<bool>)
      modifies this`pending
      ensures pending == old(pending) + [Pending(t, data, bits)]
    {
      pending := pending + [Pending(t, data, bits)];
    }

    method CommitQuorum() returns (newly: seq<nat>)
      modifies this`log, this`pending, this`lastAccepted
      ensures (View(), newly) == QuorumCommit(old(View()))
    {
      var best := BestQuorum();
      newly := [];
      if best.Some? {
        newly := CommitUpTo(best.value);
      }
    }

    method Flags(n: nat, t: nat, i: nat) returns (bits: seq<bool>)
      requires i < n && forall k :: 0 <= k < |pending| ==> |pending[k].bits| == n
      ensures bits == FlagsFor(View(), n, t, i)
    {
      var pos := FindPending(t);
      bits := if pos.Some? then pending[pos.value].bits else NoBits(n);
      bits := bits[i := true];
    }

    method Learn(pkt: Packet) returns (newly: seq<nat>)
      modifies this`log, this`pending, this`lastAccepted
      ensures (View(), newly) == LearnCommits(old(View()), pkt)
    {
      newly := [];
      if pkt.lastAccepted.Some? {
        newly := CommitUpTo(pkt.lastAccepted.value);
      }
    }

    method TakeNew(t: nat, data: Data, bits: seq<bool>)
      modifies this`pending
      ensures View() == TakeProposal(old(View()), t, data, bits)
    {
      var pos := FindPending(t);
      var logged := LogHas(t);
      if pos.None? && !logged {
        pending := pending + [Pending(t, data, bits)];
      }
    }

    method TakeIn(i: nat, n: nat, pkt: Packet)
      requires |pkt.bits| == n && forall k :: 0 <= k < |pending| ==> |pending[k].bits| == n
      modifies this`highestSeen, this`pending
      ensures View() == TakenIn(old(View()), i, n, pkt)
    {
      if (if highestSeen.Some? then highestSeen.value else 0) < pkt.currentTerm {
        highestSeen := Some(pkt.currentTerm);
      }
      assert View() == NoteTerm(old(View()), pkt.currentTerm);
      if pkt.data != Empty {
        TakeNew(pkt.currentTerm, pkt.data, pkt.bits);
      }
      MergeVotesUpTo(pkt.currentTerm, pkt.bits);
      MergeVotesUpTo(pkt.currentTerm, OneBit(n, i));
    }

    method TakePiggyback(i: nat, n: nat, pkt: Packet)
      modifies this`pending
      ensures View() == Piggybacked(old(View()), i, n, pkt)
    {
      if pkt.pbTerm.Some? {
        TakeNew(pkt.pbTerm.value, pkt.pbData, OneBit(n, i));
      }
    }

    /** What this node can supply for a term somebody misses: from its log, or else its pending list. */
    method FindData(t: nat) returns (data: Option<Data>)
      ensures data == Supply(View(), t)
    {
      for k := 0 to |log|
        invariant forall j :: 0 <= j < k ==> log[j].0 != t
      {
        if log[k].0 == t {
          LogDataAt(log, t, k);
          return Some(log[k].1);
        }
      }
      var pos := FindPending(t);
      return if pos.Some? then Some(pending[pos.value].data) else None;
    }
  }

  lemma {:induction false} LogDataAt(log: seq<(nat, Data)>, t: nat, k: nat)
    requires k < |log| && log[k].0 == t && forall j :: 0 <= j < k ==> log[j].0 != t
    ensures InLog(log, t) && LogData(log, t) == log[k].1
  {
    if k > 0 {
      LogDataAt(log[1..], t, k - 1);
    }
  }

  method CountVotes(bits: seq<bool>) returns (votes: nat)
    ensures votes == Votes(bits)
  {
    votes := 0;
    for k := 0 to |bits|
      invariant votes == Votes(bits[..k])
    {
      assert bits[..k + 1][..k] == bits[..k];
      if bits[k] {
        votes := votes + 1;
      }
    }
    assert bits[..|bits|] == bits;
  }

  // ---------------------------------------------------------------- the protocol over the core

  type Core = CiCore<Option<Packet>>

  /** The run of a pipeline configuration as the plan of module PaxosRun: the floods decide who takes part and when. */
  ghost function PlanFor(course: PipeConfig, proposals: nat): (c: Plan)
    requires ValidPipe(course)
    ensures ValidPlan(c)
  {
    Plan(|course.g|, proposals, HopDiameter(course.g) * 5,
         r => Takers(course, r), r => RoundStart(course, r), r => RoundStart(course, r + 1))
  }

  /** ... in which the snapshot interval has no part. */
  ghost function PlanOf(config: PipeConfig, proposals: nat): (c: Plan)
    requires ValidPipe(config)
    ensures ValidPlan(c)
  {
    PlanFor(Course(config), proposals)
  }

  /** Does the protocol ask to stop after `q` rounds? */
  ghost function Stops(c: Plan): nat -> bool
    requires c.n > 0
  {
    (q: nat) => After(c, q).stop
  }

  /** What every node reports as its progress in round `q`. */
  ghost function Informing(c: Plan): nat -> nat
    requires c.n > 0
  {
    (q: nat) => Informed(After(c, q).states)
  }

  lemma PlanIs(config: PipeConfig, proposals: nat, r: nat)
    requires ValidPipe(config)
    ensures var c := PlanOf(config, proposals);
      && c.n == |config.g| && c.proposals == proposals && c.drain == HopDiameter(config.g) * 5
      && c.parts(r) == Takers(config, r)
      && c.preparedAt(r) == RoundStart(config, r) && c.processedAt(r) == RoundStart(config, r + 1)
  {
    hide Takers, RoundStart, FloodRows, HopDiameter;
    SameRounds(config, r, []);
    SameStart(config, r + 1);
  }

  ghost predicate Distinct(states: seq<NodePaxosState>) {
    forall i, j :: 0 <= i < j < |states| ==> states[i] != states[j]
  }

  ghost function Views(states: seq<NodePaxosState>): (vs: seq<PaxosState>)
    reads states
    ensures |vs| == |states|
  {
    seq(|states|, i requires 0 <= i < |states| reads states => states[i].View())
  }

  class PaxosCi {
    const numProposals: nat
    const states: seq<NodePaxosState>
    var termCounter: nat
    var generated: nat
    var starts: map<nat, nat>
    var committed: set<nat>
    var pbTerm: Option<nat>
    var pbData: Data
    var stop: bool

    constructor (n: nat, proposals: nat)
      ensures numProposals == proposals && |states| == n && Distinct(states)
      ensures fresh(states) && State([]) == Start(n)
    {
      numProposals := proposals;
      termCounter, generated, starts, committed := 0, 0, map[], {};
      pbTerm, pbData, stop := None, Empty, false;
      var created := MakeStates(n);
      states := created;
      new;
      assert Views(states) == seq(n, i => FRESH);
    }

    /** The global state, with the records the metrics hold. */
    ghost function State(records: seq<ProposalRecord>): Sys
      reads this, states
    {
      Sys(Views(states), termCounter, generated, starts, committed, pbTerm, pbData, records, stop)
    }

    /** Announce newly committed terms. */
    method Announce(newly: seq<nat>, slot: nat, metrics: MetricsCollector)
      modifies this`committed, metrics`proposals
      ensures (committed, metrics.proposals)
           == Announced(old(committed), old(metrics.proposals), newly, starts, slot)
    {
      assert newly[..0] == [];
      for k := 0 to |newly|
        invariant (committed, metrics.proposals)
               == Announced(old(committed), old(metrics.proposals), newly[..k], starts, slot)
      {
        assert newly[..k + 1][..k] == newly[..k];
        var t := newly[k];
        if t !in committed {
          committed := committed + {t};
          metrics.RecordProposal(t, if t in starts then starts[t] else 0, slot, Committed);
        }
      }
      assert newly[..|newly|] == newly;
    }

    /** The proposing half of a preparation: gap, new term if any. */
    method Open(i: nat, slot: nat, ghost sys: Sys) returns (t: nat, data: Data, nack: nat)
      requires Distinct(states) && i < |states|
      requires Views(states) == sys.states && termCounter == sys.termCounter && generated == sys.generated
      requires starts == sys.starts
      modifies this`termCounter, this`generated, this`starts, states
      ensures Views(states) == sys.states[i := WithProposal(sys, |states|, numProposals, i)]
      ensures termCounter == sys.termCounter + (if sys.generated < numProposals then 1 else 0)
      ensures generated == sys.generated + (if sys.generated < numProposals then 1 else 0)
      ensures t == CurrentTerm(sys, numProposals)
      ensures starts == (if sys.generated < numProposals then sys.starts[t := slot] else sys.starts)
      ensures data == (if sys.generated < numProposals then Tx(t) else Empty)
      ensures nack == var gap := Gap(sys.states[i], sys.termCounter); if gap.Some? then gap.value else 0
    {
      var state := states[i];
      assert state.View() == sys.states[i];
      var gap := state.DetectGap(termCounter);
      nack := if gap.Some? then gap.value else 0;
      if generated < numProposals {
        t, data := termCounter, Tx(termCounter);
        state.Propose(t, data, OneBit(|states|, i));
        termCounter := termCounter + 1;
        generated := generated + 1;
        starts := starts[t := slot];
      } else {
        t, data := if termCounter == 0 then 0 else termCounter - 1, Empty;
      }
      assert forall j :: 0 <= j < |states| && j != i ==> states[j].View() == sys.states[j];
    }

    /** The quorum commit of node `i`. */
    method CommitAt(i: nat) returns (newly: seq<nat>)
      requires Distinct(states) && i < |states|
      modifies states
      ensures Views(states) == old(Views(states))[i := QuorumCommit(old(Views(states))[i]).0]
      ensures newly == QuorumCommit(old(Views(states))[i]).1
    {
      newly := states[i].CommitQuorum();
      assert forall j :: 0 <= j < |states| && j != i ==> states[j].View() == old(states[j].View());
    }

    /** The packet of initiator `i`. */
    method Compose(i: nat, t: nat, data: Data, nack: nat) returns (pkt: Packet)
      requires i < |states|
      requires forall k :: 0 <= k < |Views(states)[i].pending| ==> |Views(states)[i].pending[k].bits| == |states|
      ensures pkt == Packet(t, Views(states)[i].lastAccepted, FlagsFor(Views(states)[i], |states|, t, i), nack, i, data,
                            pbTerm, pbData)
    {
      assert states[i].View() == Views(states)[i];
      var bits := states[i].Flags(|states|, t, i);
      pkt := Packet(t, states[i].lastAccepted, bits, nack, i, data, pbTerm, pbData);
    }

    /** Before round `r`: initiator `i` proposes, commits what has a majority, and gets its packet ready. */
    method Prepare(i: nat, slot: nat, metrics: MetricsCollector, ghost c: Plan, ghost r: nat) returns (pkt: Packet)
      requires Distinct(states) && |states| == c.n && numProposals == c.proposals
      requires ValidPlan(c) && i == r % c.n && slot == c.preparedAt(r)
      requires PaxosSafety.AllOk(c, State(metrics.proposals), r)
      modifies this`termCounter, this`generated, this`starts, this`committed, states, metrics`proposals
      ensures (State(metrics.proposals), pkt) == Prepared(c, old(State(metrics.proposals)), r)
    {
      hide PaxosSafety.AllOk, Gap, WithProposal, QuorumCommit, FlagsFor, Announced, Views, Distinct, Prepared;
      ghost var sys := State(metrics.proposals);
      BitsFit(c, sys, r);
      var t, data, nack := Open(i, slot, sys);
      var newly := CommitAt(i);
      Announce(newly, slot, metrics);
      pkt := Compose(i, t, data, nack);
      PreparedIs(c, sys, r, State(metrics.proposals), newly, nack, pkt);
    }

    /** Before a round of the core: prepare, and hand the packet to the initiator's radio. */
    method PrepareRound(core: Core)
      requires core.Running() && Distinct(states) && |states| == |core.config.g|
      requires PaxosSafety.AllOk(PlanOf(core.config, numProposals), State(core.metrics.proposals), core.roundNum)
      modifies this`termCounter, this`generated, this`starts, this`committed, states
      modifies core.nodes`payload, core.metrics`proposals
      ensures core.Running() && core.roundNum == old(core.roundNum)
      ensures var (sys, pkt) :=
          Prepared(PlanOf(core.config, numProposals), old(State(core.metrics.proposals)), core.roundNum);
        State(core.metrics.proposals) == sys && core.nodes[core.Initiator()].payload == Some(pkt)
      ensures Progress(core.nodes) == old(Progress(core.nodes))
    {
      hide PaxosSafety.AllOk, Prepared, CiPipeline.Accounted, PlanOf, RoundStart;
      ghost var c, r := PlanOf(core.config, numProposals), core.roundNum;
      PlanIs(core.config, numProposals, r);
      var pkt := Prepare(core.Initiator(), core.currentSlot, core.metrics, c, r);
      core.Load(Some(pkt));
    }

    // -------------------------------------------------------------- processing

    method LearnAt(i: nat, pkt: Packet) returns (newly: seq<nat>)
      requires Distinct(states) && i < |states|
      modifies states
      ensures Views(states) == old(Views(states))[i := LearnCommits(old(Views(states))[i], pkt).0]
      ensures newly == LearnCommits(old(Views(states))[i], pkt).1
    {
      newly := states[i].Learn(pkt);
      assert forall j :: 0 <= j < |states| && j != i ==> states[j].View() == old(states[j].View());
    }

    method TakeInAt(i: nat, pkt: Packet)
      requires Distinct(states) && i < |states| && |pkt.bits| == |states|
      requires forall k :: 0 <= k < |Views(states)[i].pending| ==> |Views(states)[i].pending[k].bits| == |states|
      modifies states
      ensures Views(states) == old(Views(states))[i := TakenIn(old(Views(states))[i], i, |states|, pkt)]
    {
      assert states[i].View() == Views(states)[i];
      states[i].TakeIn(i, |states|, pkt);
      assert forall j :: 0 <= j < |states| && j != i ==> states[j].View() == old(states[j].View());
    }

    method TakePiggybackAt(i: nat, pkt: Packet)
      requires Distinct(states) && i < |states|
      modifies states
      ensures Views(states) == old(Views(states))[i := Piggybacked(old(Views(states))[i], i, |states|, pkt)]
    {
      states[i].TakePiggyback(i, |states|, pkt);
      assert forall j :: 0 <= j < |states| && j != i ==> states[j].View() == old(states[j].View());
    }

    /** What a preparing initiator will piggyback, if node `i` can supply the term asked for. */
    method AnswerNack(i: nat, nack: nat)
      requires i < |states|
      modifies this`pbTerm, this`pbData
      ensures var supply := if nack > 0 then Supply(Views(states)[i], nack) else None;
        && pbTerm == (if supply.Some? then Some(nack) else old(pbTerm))
        && pbData == (if supply.Some? then supply.value else old(pbData))
    {
      assert states[i].View() == Views(states)[i];
      if nack > 0 {
        var data := states[i].FindData(nack);
        if data.Some? {
          pbTerm, pbData := Some(nack), data.value;
        }
      }
    }

    /** Participant `i` processes the packet of round `r`. */
    method Handle(i: nat, pkt: Packet, slot: nat, metrics: MetricsCollector, ghost c: Plan, ghost r: nat)
      requires Distinct(states) && |states| == c.n && i < c.n && slot == c.processedAt(r)
      requires ValidPlan(c) && i in c.parts(r)
      requires PaxosSafety.AllOk(c, State(metrics.proposals), r + 1)
      requires PaxosSafety.PacketOk(c.n, pkt, r, termCounter)
      modifies this`committed, this`pbTerm, this`pbData, states, metrics`proposals
      ensures State(metrics.proposals) == ProcessNode(c, old(State(metrics.proposals)), r, pkt, i)
    {
      hide PaxosSafety.AllOk, LearnCommits, TakenIn, Piggybacked, Supply, Announced, Views, Distinct;
      ghost var sys := State(metrics.proposals);
      LearnedFits(c, sys, r, pkt, i);
      var newly := LearnAt(i, pkt);
      Announce(newly, slot, metrics);
      TakeInAt(i, pkt);
      AnswerNack(i, pkt.nack);
      TakePiggybackAt(i, pkt);
    }

    /** Is node `i` done?  A participant must have every proposal in its log, a bystander a long enough log. */
    method CheckDone(i: nat, participated: bool) returns (done: bool)
      requires i < |states|
      ensures done == NodeDone(numProposals, Views(states)[i], participated)
    {
      assert states[i].View() == Views(states)[i];
      if |states[i].log| < numProposals {
        return false;
      }
      if participated {
        for t := 0 to numProposals
          invariant forall u :: 0 <= u < t ==> InLog(states[i].log, u)
        {
          var logged := states[i].LogHas(t);
          if !logged {
            return false;
          }
        }
      }
      return true;
    }

    /** Node `i`'s turn in the processing of round `r`. */
    method Turn(i: nat, took: bool, pkt: Option<Packet>, slot: nat, metrics: MetricsCollector,
                ghost c: Plan, ghost r: nat, ghost sent: Packet) returns (done: bool)
      requires Distinct(states) && |states| == c.n && numProposals == c.proposals && i < c.n && slot == c.processedAt(r)
      requires ValidPlan(c) && took == (i in c.parts(r)) && (took ==> pkt == Some(sent))
      requires PaxosSafety.AllOk(c, State(metrics.proposals), r + 1)
      requires PaxosSafety.PacketOk(c.n, sent, r, termCounter)
      modifies this`committed, this`pbTerm, this`pbData, states, metrics`proposals
      ensures State(metrics.proposals) == ProcessNode(c, old(State(metrics.proposals)), r, sent, i)
      ensures done == NodeDone(c.proposals, Views(states)[i], i in c.parts(r))
    {
      hide PaxosSafety.AllOk, PaxosSafety.PacketOk, Received, LearnCommits, Announced, Supply, Absorbed, Views,
           Distinct, NodeDone;
      if took {
        Handle(i, pkt.value, slot, metrics, c, r);
      }
      done := CheckDone(i, took);
    }

    /** Every node's turn. */
    method Turns(took: seq<bool>, inbox: seq<Option<Packet>>, slot: nat, metrics: MetricsCollector,
                 ghost c: Plan, ghost r: nat, ghost sent: Packet) returns (allDone: bool)
      requires Distinct(states) && |states| == c.n == |took| == |inbox| && numProposals == c.proposals
      requires ValidPlan(c) && slot == c.processedAt(r)
      requires forall i :: 0 <= i < c.n ==> (took[i] <==> i in c.parts(r)) && (took[i] ==> inbox[i] == Some(sent))
      requires PaxosSafety.AllOk(c, State(metrics.proposals), r + 1)
      requires PaxosSafety.PacketOk(c.n, sent, r, termCounter)
      modifies this`committed, this`pbTerm, this`pbData, states, metrics`proposals
      ensures State(metrics.proposals) == ProcessUpTo(c, old(State(metrics.proposals)), r, sent, c.n)
      ensures allDone == AllDone(c, State(metrics.proposals), r)
    {
      hide PaxosSafety.NodeOk, PaxosSafety.PacketOk, ProcessNode, Views, Distinct, NodeDone;
      ghost var sys := State(metrics.proposals);
      pbTerm, pbData := None, Empty;
      allDone := true;
      for i := 0 to |states|
        invariant State(metrics.proposals) == ProcessUpTo(c, sys, r, sent, i)
        invariant allDone <==> forall j :: 0 <= j < i ==> NodeDone(c.proposals, Views(states)[j], j in c.parts(r))
      {
        PaxosSafety.ProcessUpToOk(c, sys, r, sent, i);
        OnlyOneMoves(c, State(metrics.proposals), r, sent, i);
        var done := Turn(i, took[i], inbox[i], slot, metrics, c, r, sent);
        allDone := allDone && done;
      }
    }

    method LeastInformed() returns (least: nat)
      requires states != []
      ensures least == Informed(Views(states))
    {
      least := |states[0].log|;
      for i := 1 to |states|
        invariant least == Informed(Views(states)[..i])
      {
        assert Views(states)[..i + 1][..i] == Views(states)[..i];
        if |states[i].log| < least {
          least := |states[i].log|;
        }
      }
      assert Views(states)[..|states|] == Views(states);
    }

    /** Report to every node whether it is complete and how far the slowest one is. */
    method ReportProgress(core: Core)
      requires core.Flooded() && |states| == |core.nodes|
      modifies core.nodes`goalReached, core.nodes`progressCount
      ensures core.Flooded()
      ensures forall i :: 0 <= i < |core.nodes| ==>
        && core.nodes[i].goalReached == (|Views(states)[i].log| == numProposals)
        && core.nodes[i].progressCount == Informed(Views(states))
    {
      hide CiPipeline.Accounted, Informed, RoundStart, FinalWave;
      var least := LeastInformed();
      for k := 0 to |states|
        invariant forall i :: 0 <= i < k ==>
          && core.nodes[i].goalReached == (|Views(states)[i].log| == numProposals)
          && core.nodes[i].progressCount == least
      {
        assert Views(states)[k].log == states[k].log;
        core.nodes[k].goalReached := |states[k].log| == numProposals;
        core.nodes[k].progressCount := least;
      }
      assert Meters(core.nodes) == old(Meters(core.nodes));
    }

    /** The stop rules, checked in order. */
    method CheckStop(core: Core, allDone: bool, ghost c: Plan)
      requires ValidPipe(core.config) && c == PlanOf(core.config, numProposals)
      requires allDone == AllDone(c, State(core.metrics.proposals), core.roundNum)
      modifies this`stop
      ensures State(core.metrics.proposals)
           == var sys := old(State(core.metrics.proposals)); sys.(stop := sys.stop || ShouldStop(c, sys, core.roundNum))
    {
      hide AllDone, Views, PlanOf, Takers, RoundStart;
      PlanIs(core.config, numProposals, core.roundNum);
      if allDone && generated >= numProposals {
        stop := true;
        return;
      }
      if |committed| == numProposals {
        var diameter := Diameter(core.config.g);
        if core.roundNum > numProposals + diameter * 5 {
          stop := true;
          return;
        }
      }
      if core.roundNum > numProposals + 1000 {
        stop := true;
      }
    }

    /** After a round's flood: every participant processes what it received. */
    method ProcessRound(core: Core, ghost sent: Packet)
      requires core.Flooded() && Distinct(states) && |states| == |core.config.g|
      requires forall i :: 0 <= i < |core.nodes| ==>
        (core.Participated(i) <==> i in Takers(core.config, core.roundNum))
        && (core.Participated(i) ==> core.nodes[i].payload == Some(sent))
      requires PaxosSafety.AllOk(PlanOf(core.config, numProposals), State(core.metrics.proposals), core.roundNum + 1)
      requires PaxosSafety.PacketOk(|core.config.g|, sent, core.roundNum, termCounter)
      modifies this`committed, this`pbTerm, this`pbData, this`stop, states, core.metrics`proposals
      modifies core.nodes`goalReached, core.nodes`progressCount
      ensures core.Flooded()
      ensures State(core.metrics.proposals)
           == Processed(PlanOf(core.config, numProposals), old(State(core.metrics.proposals)), core.roundNum, sent)
      ensures forall i :: 0 <= i < |core.nodes| ==>
        && core.nodes[i].goalReached == (|Views(states)[i].log| == numProposals)
        && core.nodes[i].progressCount == Informed(Views(states))
    {
      hide PaxosSafety.AllOk, PaxosSafety.PacketOk, CiPipeline.Accounted, PlanOf, RoundStart, ProcessUpTo, ShouldStop,
           Distinct, AllDone, Takers, Views, Informed, FinalWave;
      ghost var c, r := PlanOf(core.config, numProposals), core.roundNum;
      PlanIs(core.config, numProposals, r);
      var took, inbox := core.Inbox();
      var allDone := Turns(took, inbox, core.currentSlot, core.metrics, c, r, sent);
      ReportProgress(core);
      CheckStop(core, allDone, c);
    }

    /** One whole round. */
    method RunRound(core: Core)
      requires core.Running() && Distinct(states) && |states| == |core.config.g|
      requires State(core.metrics.proposals) == After(PlanOf(core.config, numProposals), core.roundNum)
      modifies this`termCounter, this`generated, this`starts, this`committed, this`pbTerm, this`pbData, this`stop
      modifies states
      modifies core`currentSlot, core`nextSnapshot, core.nodes, core.metrics
      ensures core.Flooded() && core.roundNum == old(core.roundNum)
      ensures State(core.metrics.proposals) == After(PlanOf(core.config, numProposals), core.roundNum + 1)
      ensures forall i :: 0 <= i < |core.nodes| ==> core.nodes[i].progressCount == Informed(Views(states))
      ensures core.metrics.history
           == old(core.metrics.history) + FloodRows(core.config, core.roundNum, old(Progress(core.nodes)))
    {
      hide PaxosSafety.AllOk, PaxosSafety.PacketOk, CiPipeline.Accounted, PlanOf, RoundStart, Prepared, Processed,
           Distinct, Takers, Views, FinalWave, After, Informed, FloodRows, Everyone,
           CiCore<Option<Packet>>.Running, CiCore<Option<Packet>>.Flooded;
      core.IsValid();
      ghost var c, r := PlanOf(core.config, numProposals), core.roundNum;
      ghost var (sys, sent) := Prepared(c, After(c, r), r);
      OneRound(c, r);
      PrepareRound(core);
      assert State(core.metrics.proposals) == sys;
      Flood(core);
      assert State(core.metrics.proposals) == sys;
      ProcessRound(core, sent);
    }

    method Flood(core: Core)
      requires core.Running()
      modifies core`currentSlot, core`nextSnapshot, core.nodes, core.metrics`snapshots, core.metrics`history
      ensures core.Flooded() && core.roundNum == old(core.roundNum)
      ensures State(core.metrics.proposals) == old(State(core.metrics.proposals))
      ensures forall i :: 0 <= i < |core.nodes| ==>
        (core.Participated(i) <==> i in Takers(core.config, core.roundNum))
        && (core.Participated(i) ==> core.nodes[i].payload == old(core.nodes[core.Initiator()].payload))
      ensures Progress(core.nodes) == old(Progress(core.nodes))
      ensures core.metrics.history
           == old(core.metrics.history) + FloodRows(core.config, core.roundNum, old(Progress(core.nodes)))
    {
      hide CiPipeline.Accounted, RoundStart, Takers, FinalWave, FloodRows;
      core.FloodIdentical();
    }

    method CountRound(core: Core)
      requires core.Flooded()
      modifies core`roundNum
      ensures core.Running() && core.roundNum == old(core.roundNum) + 1
      ensures State(core.metrics.proposals) == old(State(core.metrics.proposals))
    {
      hide CiPipeline.Accounted, RoundStart, FinalWave;
      core.roundNum := core.roundNum + 1;
    }

    /** Everything is as the specification has it after `k` rounds. */
    ghost predicate Reached(core: Core, k: nat)
      reads this, states, core, core.nodes, core.metrics
    {
      && core.Sound() && core.currentSlot == RoundStart(core.config, k)
      && Distinct(states) && |states| == |core.config.g|
      && State(core.metrics.proposals) == After(PlanOf(core.config, numProposals), k)
      && core.Reporting(Informing(PlanOf(core.config, numProposals)), k)
    }

    /** One turn of the run loop: `more` says whether the loop goes on. */
    method RunOnce(core: Core, ghost k: nat) returns (more: bool, ghost k': nat)
      requires Reached(core, k) && core.roundNum == k < MAX_ROUNDS && !stop
      modifies this`termCounter, this`generated, this`starts, this`committed, this`pbTerm, this`pbData, this`stop
      modifies states
      modifies core`currentSlot, core`nextSnapshot, core`roundNum, core.nodes, core.metrics
      ensures Reached(core, k')
      ensures var stops := Stops(PlanOf(core.config, numProposals));
        && k <= k' <= k + 1
        && (k' > k ==> GoesOn(core.config, stops, k))
        && (more ==> k' == k + 1 && core.roundNum == k' < MAX_ROUNDS && !stop)
        && (!more ==> !GoesOn(core.config, stops, k'))
    {
      hide PlanOf, RoundStart, After, Views, FinalWave, CiPipeline.Accounted, Distinct, History, Informing,
           CiCore<Option<Packet>>.Sound;
      core.IsValid();
      if core.currentSlot >= core.config.maxSlots {
        return false, k;
      }
      ghost var c := PlanOf(core.config, numProposals);
      RunRound(core);
      InformingIs(c, k + 1);
      RoundReported(core, Informing(c), k, old(core.metrics.history), old(Progress(core.nodes)));
      k' := k + 1;
      if stop {
        return false, k';
      }
      CountRound(core);
      more := core.roundNum <= 1_000_000;
    }

    lemma ReadyToRun(core: Core)
      requires core.Running() && core.roundNum == 0 && core.metrics.proposals == []
      requires core.metrics.history == [] && Progress(core.nodes) == Everyone(|core.nodes|, 0)
      requires Distinct(states) && |states| == |core.config.g| && State([]) == Start(|states|)
      ensures Reached(core, 0) && !stop
    {
      hide Distinct, CiPipeline.Accounted;
      NobodyInformed(Start(|states|).states);
      PlanIs(core.config, numProposals, 0);
    }

    /**
      A whole run: rounds until the protocol stops, the slots run out or the cap is
      reached.  `rounds` of them leave exactly the state the specification has after
      as many, and the books balanced.
     */
    method Run(core: Core) returns (ghost rounds: nat)
      requires core.Running() && core.roundNum == 0 && core.metrics.proposals == []
      requires core.metrics.history == [] && Progress(core.nodes) == Everyone(|core.nodes|, 0)
      requires Distinct(states) && |states| == |core.config.g| && State([]) == Start(|states|)
      modifies this`termCounter, this`generated, this`starts, this`committed, this`pbTerm, this`pbData, this`stop
      modifies states
      modifies core`currentSlot, core`nextSnapshot, core`roundNum, core.nodes, core.metrics
      ensures RunTakes(core.config, Stops(PlanOf(core.config, numProposals)), rounds)
      ensures Reached(core, rounds)
    {
      hide Reached, Stops, PlanOf, GoesOn, State, Start, RoundStart, Distinct, CiPipeline.Accounted, Views;
      ghost var stops := Stops(PlanOf(core.config, numProposals));
      ReadyToRun(core);
      rounds := 0;
      var more := true;
      while more
        invariant Reached(core, rounds)
        invariant more ==> core.roundNum == rounds < MAX_ROUNDS && !stop
        invariant forall q: nat :: q < rounds ==> GoesOn(core.config, stops, q)
        invariant !more ==> !GoesOn(core.config, stops, rounds)
        decreases if more then MAX_ROUNDS - rounds + 1 else 0
      {
        more, rounds := RunOnce(core, rounds);
      }
    }
  }

  lemma EverybodyInPlan(config: PipeConfig, proposals: nat)
    requires ValidPipe(config) && Connected(config.g) && config.ci.roundSlots.None? && PatientLinks(config)
    ensures var c := PlanOf(config, proposals); forall r: nat, i: nat :: i < c.n ==> i in c.parts(r)
  {
    hide RoundStart, Connected, Takers, PlanOf, PatientLinks;
    var c := PlanOf(config, proposals);
    forall r: nat, i: nat | i < c.n ensures i in c.parts(r) {
      PlanIs(config, proposals, r);
      EverybodyTakesPart(config, r, i);
    }
  }

  /**
    A whole run on a connected network with patient links, the default round length
    and enough slots: it takes exactly half a turn more rounds than proposals, unless the
    idle-round timeout or the cap on rounds comes first.  All logs are then the same first
    terms in order, each recorded from the preparation of its own round to that of the round
    half a turn later; they are complete exactly if the run was not cut short.
   */
  lemma PatientRun(config: PipeConfig, proposals: nat, rounds: nat)
    requires ValidPipe(config) && Connected(config.g) && config.ci.roundSlots.None? && PatientLinks(config)
    requires proposals >= 1
    requires forall q: nat :: q < Least(proposals + Least(|config.g| / 2, 1002), MAX_ROUNDS) ==>
      RoundStart(config, q) < config.maxSlots
    requires RunTakes(config, Stops(PlanOf(config, proposals)), rounds)
    ensures rounds == Least(proposals + Least(|config.g| / 2, 1002), MAX_ROUNDS)
    ensures var c := PlanOf(config, proposals);
      var sys, done := After(c, rounds), PaxosLossless.Done(c, rounds);
      && sys.records == PaxosLossless.RecordsUpTo(c, done)
      && (forall i :: 0 <= i < |sys.states| ==> sys.states[i].log == PaxosLossless.Logged(done))
      && (done == proposals <==> rounds == proposals + |config.g| / 2)
  {
    hide RoundStart, After, Connected, Takers, PlanOf, PatientLinks;
    var c := PlanOf(config, proposals);
    EverybodyInPlan(config, proposals);
    PlanIs(config, proposals, 0);
    var k := Least(PaxosLossless.Rounds(c), MAX_ROUNDS);
    forall q: nat ensures Stops(c)(q) <==> q >= PaxosLossless.Rounds(c) {
      PaxosLossless.LosslessLength(c, q);
    }
    assert RunTakes(config, Stops(c), k);
    RunLengthUnique(config, Stops(c), rounds, k);
    PaxosLossless.LosslessExact(c, rounds);
    var done := PaxosLossless.Done(c, rounds);
    forall i: nat | i < c.n ensures After(c, rounds).states[i].log == PaxosLossless.Logged(done) {
      PaxosLossless.IdenticalLogs(c, rounds, i);
    }
  }

  lemma {:induction false} NobodyInformed(states: seq<PaxosState>)
    requires states != [] && forall i :: 0 <= i < |states| ==> states[i].log == []
    ensures Informed(states) == 0
  {
    if |states| > 1 {
      NobodyInformed(states[..|states| - 1]);
    }
  }

  lemma InformingIs(c: Plan, q: nat)
    requires c.n > 0
    ensures Informing(c)(q) == Informed(After(c, q).states)
  {
    hide After, Informed;
  }

  /** One more round reported. */
  lemma RoundReported(core: Core, progress: nat -> nat, r: nat, history: seq<Snapshot>, before: seq<nat>)
    requires core.Flooded() && history == History(core.config, progress, r)
    requires before == Everyone(|core.config.g|, progress(r))
    requires core.metrics.history == history + FloodRows(core.config, r, before)
    requires forall i :: 0 <= i < |core.nodes| ==> core.nodes[i].progressCount == progress(r + 1)
    ensures core.Reporting(progress, r + 1)
  {
    hide CiPipeline.Accounted, FloodRows, RoundStart, FinalWave;
  }

  /** A round of the specification, in its two halves. */
  lemma OneRound(c: Plan, r: nat)
    requires ValidPlan(c)
    ensures PaxosSafety.AllOk(c, After(c, r), r)
    ensures var (sys, sent) := Prepared(c, After(c, r), r);
      && After(c, r + 1) == Processed(c, sys, r, sent)
      && PaxosSafety.AllOk(c, sys, r + 1) && PaxosSafety.PacketOk(c.n, sent, r, sys.termCounter)
  {
    PaxosSafety.ReachableOk(c, r);
    PaxosSafety.PreparedOk(c, After(c, r), r);
  }

  lemma OnlyOneMoves(c: Plan, sys: Sys, r: nat, pkt: Packet, i: nat)
    requires |sys.states| == c.n && i < c.n
    ensures forall j :: 0 <= j < c.n && j != i ==> ProcessNode(c, sys, r, pkt, i).states[j] == sys.states[j]
  {
    hide Received, LearnCommits, Announced, Supply, Absorbed;
  }

  lemma LearnedFits(c: Plan, sys: Sys, r: nat, pkt: Packet, i: nat)
    requires ValidPlan(c) && PaxosSafety.AllOk(c, sys, r + 1) && i < c.n
    requires PaxosSafety.PacketOk(c.n, pkt, r, sys.termCounter)
    ensures |pkt.bits| == c.n
    ensures var st := LearnCommits(sys.states[i], pkt).0;
      forall k :: 0 <= k < |st.pending| ==> |st.pending[k].bits| == c.n
  {
    assert PaxosSafety.NodeOk(c.n, sys.states[i], i, r + 1, sys.termCounter);
    hide CommittedUpTo;
    if pkt.lastAccepted.Some? {
      PaxosSafety.CommitOk(c.n, sys.states[i], i, r + 1, sys.termCounter, pkt.lastAccepted.value);
    }
  }

  /** The preparation of a round, put together from its parts. */
  lemma PreparedIs(c: Plan, sys: Sys, r: nat, sys': Sys, newly: seq<nat>, nack: nat, pkt: Packet)
    requires |sys.states| == c.n > 0
    requires var i := r % c.n;
      var proposing, t := sys.generated < c.proposals, CurrentTerm(sys, c.proposals);
      var (st', newly') := QuorumCommit(WithProposal(sys, c.n, c.proposals, i));
      && newly == newly'
      && sys'.states == sys.states[i := st']
      && sys'.termCounter == sys.termCounter + (if proposing then 1 else 0)
      && sys'.generated == sys.generated + (if proposing then 1 else 0)
      && sys'.starts == (if proposing then sys.starts[t := c.preparedAt(r)] else sys.starts)
      && (sys'.committed, sys'.records) == Announced(sys.committed, sys.records, newly, sys'.starts, c.preparedAt(r))
      && sys'.pbTerm == sys.pbTerm && sys'.pbData == sys.pbData && sys'.stop == sys.stop
      && nack == (var gap := Gap(sys.states[i], sys.termCounter); if gap.Some? then gap.value else 0)
      && pkt == Packet(t, st'.lastAccepted, FlagsFor(st', c.n, t, i), nack, i, if proposing then Tx(t) else Empty,
                       sys.pbTerm, sys.pbData)
    ensures (sys', pkt) == Prepared(c, sys, r)
  {
    hide Gap, WithProposal, QuorumCommit, FlagsFor, Announced;
  }

  lemma BitsFit(c: Plan, sys: Sys, r: nat)
    requires ValidPlan(c) && PaxosSafety.AllOk(c, sys, r)
    ensures var st := QuorumCommit(WithProposal(sys, c.n, c.proposals, r % c.n)).0;
      forall k :: 0 <= k < |st.pending| ==> |st.pending[k].bits| == c.n
  {
    var i, st := r % c.n, WithProposal(sys, c.n, c.proposals, r % c.n);
    var terms := sys.termCounter + if sys.generated < c.proposals then 1 else 0;
    PaxosSafety.ProposeOk(c, sys, r);
    PaxosSafety.ProposalEarned(c, sys, r);
    PaxosSafety.QuorumCommitOk(c.n, st, i, r, terms);
    hide WithProposal, QuorumCommit;
    assert PaxosSafety.NodeOk(c.n, QuorumCommit(st).0, i, r + 1, terms);
  }

  method MakeStates(n: nat) returns (states: seq<NodePaxosState>)
    ensures |states| == n && Distinct(states) && fresh(states)
    ensures forall i :: 0 <= i < n ==> states[i].View() == FRESH
  {
    states := [];
    for k := 0 to n
      invariant |states| == k && Distinct(states) && fresh(states)
      invariant forall i :: 0 <= i < k ==> states[i].View() == FRESH
    {
      var state := new NodePaxosState();
      states := states + [state];
    }
  }

  /**
    Two whole runs that differ in nothing but the snapshot interval, one sampling every
    slot: both take the same rounds and slots, leave the same protocol state and records
    and charge the same to each radio state, and the coarser snapshots are exactly the
    others at the multiples of its interval.
   */
  lemma SampledRun(full: PaxosCi, fullCore: Core, a: nat, coarse: PaxosCi, coarseCore: Core, b: nat)
    requires full.numProposals == coarse.numProposals && fullCore.config == coarseCore.config.(interval := 1)
    requires full.Reached(fullCore, a) && coarse.Reached(coarseCore, b)
    requires RunTakes(fullCore.config, Stops(PlanOf(fullCore.config, full.numProposals)), a)
    requires RunTakes(coarseCore.config, Stops(PlanOf(coarseCore.config, coarse.numProposals)), b)
    ensures a == b && full.State(fullCore.metrics.proposals) == coarse.State(coarseCore.metrics.proposals)
    ensures fullCore.currentSlot == coarseCore.currentSlot
    ensures forall s: NodeState :: Total(Meters(fullCore.nodes), s) == Total(Meters(coarseCore.nodes), s)
    ensures SampledEvery(fullCore.metrics.snapshots, coarseCore.metrics.snapshots, coarseCore.config.interval)
  {
    hide CiPipeline.Accounted, RoundStart, RunTakes, After, History, Total, Meters, SampledEvery, Stops, Informing,
         PlanFor, Views;
    assert Course(fullCore.config) == Course(coarseCore.config);
    var c := PlanOf(coarseCore.config, coarse.numProposals);
    CiPipeline.SampledRun(fullCore, coarseCore, Stops(c), Informing(c), a, b);
  }
}
