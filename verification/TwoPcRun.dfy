/**
  Two-phase commit over the constructive-interference pipeline, as a function of
  rounds.  Participation and the abort coins are oracles.
 */
module TwoPcRun {
  import opened Wrappers
  import opened Bitmaps
  import opened Messages
  import opened Metrics
  import opened Ledger

  // ---------------------------------------------------------------- one node

  datatype PendingTx = PendingTx(tx: nat, data: Data, bits: seq<bool>, abort: bool, startRound: nat)

  datatype TwoPcState = TwoPcState(log: seq<(nat, ProposalOutcome)>, pending: seq<PendingTx>)

  const FRESH := TwoPcState([], [])

  predicate InLog(log: seq<(nat, ProposalOutcome)>, t: nat) {
    exists k :: 0 <= k < |log| && log[k].0 == t
  }

  predicate IsPending(pending: seq<PendingTx>, t: nat) {
    exists k :: 0 <= k < |pending| && pending[k].tx == t
  }

  /** The first pending entry of transaction `t`, if any. */
  function Position(pending: seq<PendingTx>, t: nat): (r: Option<nat>)
    ensures r.Some? ==> r.value < |pending| && pending[r.value].tx == t
    ensures r.Some? <==> IsPending(pending, t)
  {
    if pending == [] then None
    else if pending[0].tx == t then Some(0)
    else
      var r := Position(pending[1..], t);
      assert forall k :: 0 < k < |pending| ==> pending[k] == pending[1..][k - 1];
      if r.Some? then Some(r.value + 1) else None
  }

  predicate Unanimous(pending: seq<PendingTx>, t: nat) {
    var pos := Position(pending, t);
    pos.Some? && !pending[pos.value].abort && AllSet(pending[pos.value].bits)
  }

  /** Votes count for every transaction up to `t`, the abort flag for `t` alone. */
  function MergedVotes(pending: seq<PendingTx>, t: nat, bits: seq<bool>, abort: bool): (r: seq<PendingTx>)
    ensures |r| == |pending|
  {
    seq(|pending|, k requires 0 <= k < |pending| =>
      var p := pending[k];
      if p.tx <= t then p.(bits := OrBits(p.bits, bits, |bits|), abort := p.abort || (abort && p.tx == t)) else p)
  }

  function Finalized(st: TwoPcState, t: nat, outcome: ProposalOutcome): TwoPcState {
    if InLog(st.log, t) then st
    else
      var pos := Position(st.pending, t);
      TwoPcState(st.log + [(t, outcome)],
                 if pos.Some? then st.pending[..pos.value] + st.pending[pos.value + 1..] else st.pending)
  }

  function FinalizedAll(st: TwoPcState, verdicts: seq<(nat, ProposalOutcome)>): TwoPcState {
    if verdicts == [] then st
    else
      var last := verdicts[|verdicts| - 1];
      Finalized(FinalizedAll(st, verdicts[..|verdicts| - 1]), last.0, last.1)
  }

  /** Verdicts on the first `k` pending transactions whose voting window of `n` rounds is over. */
  function Verdicts(pending: seq<PendingTx>, k: nat, r: nat, n: nat): seq<(nat, ProposalOutcome)>
    requires k <= |pending|
  {
    if k == 0 then []
    else
      var p := pending[k - 1];
      Verdicts(pending, k - 1, r, n)
      + if r >= p.startRound + n then [(p.tx, if Unanimous(pending, p.tx) then Committed else Aborted)] else []
  }

  function FastAborts(pending: seq<PendingTx>): seq<(nat, ProposalOutcome)> {
    if pending == [] then []
    else
      FastAborts(pending[..|pending| - 1])
      + if pending[|pending| - 1].abort then [(pending[|pending| - 1].tx, Aborted)] else []
  }

  function FirstMissing(st: TwoPcState, t: nat, upTo: nat): Option<nat>
    decreases upTo - t
  {
    if t >= upTo then None
    else if !InLog(st.log, t) && !IsPending(st.pending, t) then Some(t)
    else FirstMissing(st, t + 1, upTo)
  }

  /** What the log says about transaction `t`. */
  function Verdict(log: seq<(nat, ProposalOutcome)>, t: nat): (v: Option<ProposalOutcome>)
    ensures v.Some? ==> (t, v.value) in log
  {
    if log == [] then None
    else if log[0].0 == t then Some(log[0].1)
    else Verdict(log[1..], t)
  }

  // ---------------------------------------------------------------- the system

  datatype Packet = Packet(
    tx: nat,
    bits: seq<bool>,
    abort: bool,
    nack: nat,
    data: Data,
    sender: nat,
    piggyback: Option<(nat, ProposalOutcome)>)

  datatype Sys = Sys(
    states: seq<TwoPcState>,
    txCounter: nat,
    generated: nat,
    starts: map<nat, nat>,
    recorded: set<nat>,
    piggyback: Option<(nat, ProposalOutcome)>,
    records: seq<ProposalRecord>,
    stop: bool)

  /** `aborts(r, i)`: the coin node `i` throws in round `r`, if it throws one, says abort. */
  datatype Plan = Plan(
    n: nat,
    txs: nat,
    parts: nat -> set<nat>,
    aborts: (nat, nat) -> bool,
    preparedAt: nat -> nat,
    processedAt: nat -> nat)

  ghost predicate ValidPlan(c: Plan) {
    c.n >= 2 && forall r: nat :: r % c.n in c.parts(r)
  }

  function Start(n: nat): Sys {
    Sys(seq(n, i => FRESH), 0, 0, map[], {}, None, [], false)
  }

  // ---------------------------------------------------------------- preparing a round

  /** The initiator's state with its own new transaction, if it still makes one. */
  function WithProposal(c: Plan, sys: Sys, r: nat): TwoPcState
    requires |sys.states| == c.n > 0
  {
    var i, st := r % c.n, sys.states[r % c.n];
    if sys.generated < c.txs then
      var abort := c.aborts(r, i);
      st.(pending := st.pending + [PendingTx(sys.txCounter, Tx(sys.txCounter),
                                             if abort then NoBits(c.n) else OneBit(c.n, i), abort, r)])
    else st
  }

  function CurrentTx(c: Plan, sys: Sys): nat {
    if sys.generated < c.txs || sys.txCounter == 0 then sys.txCounter else sys.txCounter - 1
  }

  function FlagsFor(st: TwoPcState, n: nat, t: nat, i: nat): (seq<bool>, bool) {
    var pos := Position(st.pending, t);
    var bits := if pos.Some? then st.pending[pos.value].bits else NoBits(n);
    var abort := pos.Some? && st.pending[pos.value].abort;
    (if abort then bits else WithBit(bits, i), abort)
  }

  function Prepared(c: Plan, sys: Sys, r: nat): (out: (Sys, Packet))
    requires |sys.states| == c.n > 0
    ensures |out.0.states| == c.n
  {
    var i := r % c.n;
    var gap := FirstMissing(sys.states[i], 0, sys.txCounter);
    var proposing := sys.generated < c.txs;
    var t := CurrentTx(c, sys);
    var st := WithProposal(c, sys, r);
    var starts := if proposing then sys.starts[t := c.preparedAt(r)] else sys.starts;
    var verdicts := Verdicts(st.pending, |st.pending|, r, c.n);
    var st' := FinalizedAll(st, verdicts);
    var (recorded, records) := AnnouncedAll(sys.recorded, sys.records, verdicts, starts, c.preparedAt(r));
    var (bits, abort) := FlagsFor(st', c.n, t, i);
    (sys.(states := sys.states[i := st'],
          txCounter := sys.txCounter + (if proposing then 1 else 0),
          generated := sys.generated + (if proposing then 1 else 0),
          starts := starts, recorded := recorded, records := records),
     Packet(t, bits, abort, if gap.Some? then gap.value else 0, if proposing then Tx(t) else Empty, i, sys.piggyback))
  }

  // ---------------------------------------------------------------- processing a round

  /** A participant takes in a new transaction, with its own vote or its own abort. */
  function TakeTx(c: Plan, st: TwoPcState, i: nat, r: nat, pkt: Packet): TwoPcState {
    if pkt.data == Empty || IsPending(st.pending, pkt.tx) || InLog(st.log, pkt.tx) then st
    else
      var abort := c.aborts(r, i);
      st.(pending := st.pending + [PendingTx(pkt.tx, pkt.data, if abort then pkt.bits else WithBit(pkt.bits, i),
                                             pkt.abort || abort, r)])
  }

  /** ... merges the votes of the packet, and its own unless the transaction is being aborted ... */
  function Voted(st: TwoPcState, i: nat, n: nat, pkt: Packet): TwoPcState {
    var pending := MergedVotes(st.pending, pkt.tx, pkt.bits, pkt.abort);
    var pos := Position(pending, pkt.tx);
    if pos.Some? && !pending[pos.value].abort then
      st.(pending := MergedVotes(pending, pkt.tx, OneBit(n, i), false))
    else st.(pending := pending)
  }

  function Heard(c: Plan, st: TwoPcState, i: nat, r: nat, pkt: Packet): TwoPcState {
    Voted(TakeTx(c, st, i, r, pkt), i, c.n, pkt)
  }

  /** ... aborts what is flagged, learns the piggybacked verdict ... */
  function Learned(st: TwoPcState, pkt: Packet): TwoPcState {
    var st' := FinalizedAll(st, FastAborts(st.pending));
    if pkt.piggyback.Some? then Finalized(st', pkt.piggyback.value.0, pkt.piggyback.value.1) else st'
  }

  /** ... and closes the transactions whose window is over. */
  function Closed(st: TwoPcState, r: nat, n: nat): TwoPcState {
    FinalizedAll(st, Verdicts(st.pending, |st.pending|, r, n))
  }

  function ProcessNode(c: Plan, sys: Sys, r: nat, pkt: Packet, i: nat): (sys': Sys)
    requires |sys.states| == c.n && i < c.n
    ensures |sys'.states| == c.n
  {
    if i !in c.parts(r) then sys
    else
      var st1 := Heard(c, sys.states[i], i, r, pkt);
      var st2 := Learned(st1, pkt);
      var (recorded, records) :=
        AnnouncedAll(sys.recorded, sys.records, FastAborts(st1.pending), sys.starts, c.processedAt(r));
      var verdict := if pkt.nack > 0 then Verdict(st2.log, pkt.nack) else None;
      sys.(states := sys.states[i := Closed(st2, r, c.n)], recorded := recorded, records := records,
           piggyback := if verdict.Some? then Some((pkt.nack, verdict.value)) else sys.piggyback)
  }

  function ProcessUpTo(c: Plan, sys: Sys, r: nat, pkt: Packet, k: nat): (sys': Sys)
    requires |sys.states| == c.n && k <= c.n
    ensures |sys'.states| == c.n
  {
    if k == 0 then sys.(piggyback := None)
    else ProcessNode(c, ProcessUpTo(c, sys, r, pkt, k - 1), r, pkt, k - 1)
  }

  /** How many transactions every node has finalized. */
  function Informed(states: seq<TwoPcState>): (k: nat)
    requires states != []
  {
    var k := |states[|states| - 1].log|;
    if |states| == 1 then k
    else
      var m := Informed(states[..|states| - 1]);
      if k < m then k else m
  }

  /** No node has less, and some node has no more. */
  lemma {:induction false} InformedIsLeast(states: seq<TwoPcState>)
    requires states != []
    ensures forall i :: 0 <= i < |states| ==> Informed(states) <= |states[i].log|
    ensures exists i :: 0 <= i < |states| && Informed(states) == |states[i].log|
  {
    var n := |states| - 1;
    assert Informed(states) <= |states[n].log|;
    if n > 0 {
      InformedIsLeast(states[..n]);
      var i :| 0 <= i < n && Informed(states[..n]) == |states[..n][i].log|;
      assert Informed(states) == |states[n].log| || Informed(states) == |states[i].log|;
      assert forall k :: 0 <= k < n ==> states[..n][k] == states[k];
    }
  }

  predicate AllResolved(states: seq<TwoPcState>, txs: nat) {
    forall i :: 0 <= i < |states| ==> |states[i].log| >= txs
  }

  predicate ShouldStop(c: Plan, sys: Sys, r: nat) {
    || (AllResolved(sys.states, c.txs) && sys.generated >= c.txs)
    || r > c.txs + 1000
  }

  function Processed(c: Plan, sys: Sys, r: nat, pkt: Packet): (sys': Sys)
    requires |sys.states| == c.n
    ensures |sys'.states| == c.n
  {
    var done := ProcessUpTo(c, sys, r, pkt, c.n);
    done.(stop := done.stop || ShouldStop(c, done, r))
  }

  function RoundOf(c: Plan, sys: Sys, r: nat): (sys': Sys)
    requires |sys.states| == c.n > 0
    ensures |sys'.states| == c.n
  {
    var (sys1, pkt) := Prepared(c, sys, r);
    Processed(c, sys1, r, pkt)
  }

  /** The system after `r` rounds. */
  function After(c: Plan, r: nat): (sys: Sys)
    requires c.n > 0
    ensures |sys.states| == c.n
  {
    if r == 0 then Start(c.n) else RoundOf(c, After(c, r - 1), r - 1)
  }
}
