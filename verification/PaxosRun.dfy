/**
  Paxos over the constructive-interference pipeline as a function of rounds.

  Which nodes take part in the flood of a round is an oracle, constrained only to
  contain the initiator, so the safety results hold under any loss.
 */
module PaxosRun {
  import opened Wrappers
  import opened Bitmaps
  import opened Messages
  import opened Metrics
  import opened Ledger
  import opened PaxosNode

  datatype Packet = Packet(
    currentTerm: nat,
    lastAccepted: Option<nat>,
    bits: seq<bool>,
    nack: nat,
    sender: nat,
    data: Data,
    pbTerm: Option<nat>,
    pbData: Data)

  datatype Sys = Sys(
    states: seq<PaxosState>,
    termCounter: nat,
    generated: nat,
    starts: map<nat, nat>,
    committed: set<nat>,
    pbTerm: Option<nat>,
    pbData: Data,
    records: seq<ProposalRecord>,
    stop: bool)

  /** A run: `n` nodes, `proposals` to make, who participates in which round, and when rounds start and end. */
  datatype Plan = Plan(
    n: nat,
    proposals: nat,
    drain: nat,
    parts: nat -> set<nat>,
    preparedAt: nat -> nat,
    processedAt: nat -> nat)

  ghost predicate ValidPlan(c: Plan) {
    c.n >= 2 && forall r: nat :: r % c.n in c.parts(r)
  }

  function Start(n: nat): Sys {
    Sys(seq(n, i => FRESH), 0, 0, map[], {}, None, Empty, [], false)
  }

  // ---------------------------------------------------------------- preparing a round

  function CurrentTerm(sys: Sys, proposals: nat): nat {
    if sys.generated < proposals || sys.termCounter == 0 then sys.termCounter else sys.termCounter - 1
  }

  /** The initiator's state with its own new proposal, if it still makes one. */
  function WithProposal(sys: Sys, n: nat, proposals: nat, i: nat): PaxosState
    requires i < |sys.states|
  {
    var st := sys.states[i];
    if sys.generated < proposals then
      st.(pending := st.pending + [Pending(sys.termCounter, Tx(sys.termCounter), OneBit(n, i))])
    else st
  }

  /** Local quorum check: commit up to the highest term with a majority. */
  function QuorumCommit(st: PaxosState): (PaxosState, seq<nat>) {
    var hq := HighestQuorum(st.pending, |st.pending|);
    if hq.Some? then CommittedUpTo(st, hq.value) else (st, [])
  }

  function FlagsFor(st: PaxosState, n: nat, t: nat, i: nat): (bits: seq<bool>)
  {
    var pos := Position(st.pending, t);
    WithBit(if pos.Some? then st.pending[pos.value].bits else NoBits(n), i)
  }

  function Prepared(c: Plan, sys: Sys, r: nat): (out: (Sys, Packet))
    requires |sys.states| == c.n > 0
    ensures |out.0.states| == c.n
  {
    var i := r % c.n;
    var gap := Gap(sys.states[i], sys.termCounter);
    var nack := if gap.Some? then gap.value else 0;
    var proposing := sys.generated < c.proposals;
    var t := CurrentTerm(sys, c.proposals);
    var st := WithProposal(sys, c.n, c.proposals, i);
    var starts := if proposing then sys.starts[t := c.preparedAt(r)] else sys.starts;
    var (st', newly) := QuorumCommit(st);
    var (committed, records) := Announced(sys.committed, sys.records, newly, starts, c.preparedAt(r));
    (sys.(states := sys.states[i := st'],
          termCounter := sys.termCounter + (if proposing then 1 else 0),
          generated := sys.generated + (if proposing then 1 else 0),
          starts := starts, committed := committed, records := records),
     Packet(t, st'.lastAccepted, FlagsFor(st', c.n, t, i), nack, i, if proposing then Tx(t) else Empty,
            sys.pbTerm, sys.pbData))
  }

  // ---------------------------------------------------------------- processing a round

  function LearnCommits(st: PaxosState, pkt: Packet): (PaxosState, seq<nat>) {
    if pkt.lastAccepted.Some? then CommittedUpTo(st, pkt.lastAccepted.value) else (st, [])
  }

  function NoteTerm(st: PaxosState, t: nat): PaxosState {
    if (if st.highestSeen.Some? then st.highestSeen.value else 0) < t then st.(highestSeen := Some(t)) else st
  }

  function TakeProposal(st: PaxosState, t: nat, data: Data, bits: seq<bool>): PaxosState {
    if IsPending(st.pending, t) || InLog(st.log, t) then st
    else st.(pending := st.pending + [Pending(t, data, bits)])
  }

  /** The proposal and the votes of the packet, and one's own vote. */
  function TakenIn(st: PaxosState, i: nat, n: nat, pkt: Packet): PaxosState {
    var st1 := NoteTerm(st, pkt.currentTerm);
    var st2 := if pkt.data != Empty then TakeProposal(st1, pkt.currentTerm, pkt.data, pkt.bits) else st1;
    st2.(pending := MergedVotes(MergedVotes(st2.pending, pkt.currentTerm, pkt.bits), pkt.currentTerm, OneBit(n, i)))
  }

  /** A participant takes in the commits of a packet, then its proposal and its votes. */
  function Absorbed(st: PaxosState, i: nat, n: nat, pkt: Packet): PaxosState {
    TakenIn(LearnCommits(st, pkt).0, i, n, pkt)
  }

  function Piggybacked(st: PaxosState, i: nat, n: nat, pkt: Packet): PaxosState {
    if pkt.pbTerm.Some? then TakeProposal(st, pkt.pbTerm.value, pkt.pbData, OneBit(n, i)) else st
  }

  /** ... and then the piggybacked proposal, with nobody's vote but its own. */
  function Received(st: PaxosState, i: nat, n: nat, pkt: Packet): PaxosState {
    Piggybacked(Absorbed(st, i, n, pkt), i, n, pkt)
  }

  /** What a node can supply for a term somebody misses. */
  function Supply(st: PaxosState, t: nat): Option<Data> {
    if exists k :: 0 <= k < |st.log| && st.log[k].0 == t then Some(LogData(st.log, t))
    else
      var pos := Position(st.pending, t);
      if pos.Some? then Some(st.pending[pos.value].data) else None
  }

  function LogData(log: seq<(nat, Data)>, t: nat): Data
    requires InLog(log, t)
  {
    if log[0].0 == t then log[0].1
    else
      assert forall i :: 0 < i < |log| ==> log[i] == log[1..][i - 1];
      LogData(log[1..], t)
  }

  function ProcessNode(c: Plan, sys: Sys, r: nat, pkt: Packet, i: nat): (sys': Sys)
    requires |sys.states| == c.n && i < c.n
    ensures |sys'.states| == c.n
  {
    if i !in c.parts(r) then sys
    else
      var st := sys.states[i];
      var newly := LearnCommits(st, pkt).1;
      var (committed, records) := Announced(sys.committed, sys.records, newly, sys.starts, c.processedAt(r));
      var supply := if pkt.nack > 0 then Supply(Absorbed(st, i, c.n, pkt), pkt.nack) else None;
      sys.(states := sys.states[i := Received(st, i, c.n, pkt)],
           committed := committed, records := records,
           pbTerm := if supply.Some? then Some(pkt.nack) else sys.pbTerm,
           pbData := if supply.Some? then supply.value else sys.pbData)
  }

  function ProcessUpTo(c: Plan, sys: Sys, r: nat, pkt: Packet, k: nat): (sys': Sys)
    requires |sys.states| == c.n && k <= c.n
    ensures |sys'.states| == c.n
  {
    if k == 0 then sys.(pbTerm := None, pbData := Empty)
    else ProcessNode(c, ProcessUpTo(c, sys, r, pkt, k - 1), r, pkt, k - 1)
  }

  /** A participant is done when its log holds every proposal, a bystander when its log is long enough. */
  predicate NodeDone(proposals: nat, st: PaxosState, participated: bool) {
    |st.log| >= proposals && (participated ==> forall t :: 0 <= t < proposals ==> InLog(st.log, t))
  }

  predicate AllDone(c: Plan, sys: Sys, r: nat) {
    forall i :: 0 <= i < |sys.states| ==> NodeDone(c.proposals, sys.states[i], i in c.parts(r))
  }

  /** How many proposals every node has in its log. */
  function Informed(states: seq<PaxosState>): (k: nat)
    requires states != []
  {
    var k := |states[|states| - 1].log|;
    if |states| == 1 then k
    else
      var m := Informed(states[..|states| - 1]);
      if k < m then k else m
  }

  /** No node has less, and some node has no more. */
  lemma {:induction false} InformedIsLeast(states: seq<PaxosState>)
    requires states != []
    ensures forall i :: 0 <= i < |states| ==> Informed(states) <= |states[i].log|
    ensures exists i :: 0 <= i < |states| && Informed(states) == |states[i].log|
  {
    var n := |states| - 1;
    assert Informed(states) <= |states[n].log|;
    if n > 0 {
      InformedIsLeast(states[..n]);
      var i :| 0 <= i < n && Informed(states[..n]) == |states[..n][i].log|;
      assert Informed(states) == |states[n].log| || Informed(states) == |states[i].log|;
      assert forall k :: 0 <= k < n ==> states[..n][k] == states[k];
    }
  }

  predicate ShouldStop(c: Plan, sys: Sys, r: nat) {
    || (AllDone(c, sys, r) && sys.generated >= c.proposals)
    || (|sys.committed| == c.proposals && r > c.proposals + c.drain)
    || r > c.proposals + 1000
  }

  function Processed(c: Plan, sys: Sys, r: nat, pkt: Packet): Sys
    requires |sys.states| == c.n > 0
  {
    var sys' := ProcessUpTo(c, sys, r, pkt, c.n);
    sys'.(stop := sys'.stop || ShouldStop(c, sys', r))
  }

  function RoundOf(c: Plan, sys: Sys, r: nat): (sys': Sys)
    requires |sys.states| == c.n > 0
    ensures |sys'.states| == c.n
  {
    var (sys1, pkt) := Prepared(c, sys, r);
    Processed(c, sys1, r, pkt)
  }

  /** The system after `r` rounds. */
  function After(c: Plan, r: nat): (sys: Sys)
    requires c.n > 0
    ensures |sys.states| == c.n
  {
    if r == 0 then Start(c.n) else RoundOf(c, After(c, r - 1), r - 1)
  }
}
