/**
  Totally ordered multicast over the constructive-interference pipeline, as a
  function of rounds.  Participation in each flood is an oracle, constrained only
  to contain the initiator.
 */
module TomRun {
  import opened Wrappers
  import opened Messages
  import opened Metrics
  import opened Ledger

  // ---------------------------------------------------------------- one node

  datatype TomState = TomState(
    lastDelivered: Option<nat>,
    highestSeen: Option<nat>,
    store: map<nat, Data>,
    delivered: seq<(nat, Data)>)

  const FRESH := TomState(None, None, map[], [])

  function NextExpected(st: TomState): nat {
    if st.lastDelivered.Some? then st.lastDelivered.value + 1 else 0
  }

  function Raised(highest: Option<nat>, t: nat): Option<nat> {
    if highest.Some? && highest.value >= t then highest else Some(t)
  }

  function Inserted(st: TomState, t: nat, d: Data): TomState {
    if t in st.store then st
    else st.(store := st.store[t := d], highestSeen := Raised(st.highestSeen, t))
  }

  /** The stored terms still to be delivered. */
  function Waiting(st: TomState): set<nat> {
    set t | t in st.store && t >= NextExpected(st)
  }

  function DeliverOne(st: TomState): TomState
    requires NextExpected(st) in st.store
  {
    var next := NextExpected(st);
    st.(delivered := st.delivered + [(next, st.store[next])], lastDelivered := Some(next))
  }

  lemma FewerWaiting(st: TomState)
    requires NextExpected(st) in st.store
    ensures Waiting(DeliverOne(st)) < Waiting(st)
  {
    assert NextExpected(st) in Waiting(st);
  }

  /** Deliver consecutive terms for as long as the next one is in the store. */
  function Deliver(st: TomState): TomState
    decreases Waiting(st)
  {
    if NextExpected(st) in st.store then
      FewerWaiting(st);
      Deliver(DeliverOne(st))
    else st
  }

  /** The first term of `t ..= upTo` missing from the store. */
  function FirstMissing(store: map<nat, Data>, t: nat, upTo: nat): (r: Option<nat>)
    ensures r.Some? ==> t <= r.value <= upTo && r.value !in store
    decreases upTo + 1 - t
  {
    if t > upTo then None
    else if t !in store then Some(t)
    else FirstMissing(store, t + 1, upTo)
  }

  function Gap(st: TomState): (r: Option<nat>)
    ensures r.Some? ==> st.highestSeen.Some? && r.value <= st.highestSeen.value
  {
    if st.highestSeen.Some? then FirstMissing(st.store, NextExpected(st), st.highestSeen.value) else None
  }

  // ---------------------------------------------------------------- the system

  datatype Packet = Packet(
    currentTerm: nat,
    hasMessage: bool,
    data: Data,
    sender: nat,
    nack: nat,
    pbTerm: Option<nat>,
    pbData: Data)

  datatype Sys = Sys(
    states: seq<TomState>,
    nextTerm: nat,
    published: nat,
    starts: map<nat, nat>,
    global: set<nat>,
    pbTerm: Option<nat>,
    pbData: Data,
    records: seq<ProposalRecord>,
    stop: bool)

  datatype Plan = Plan(
    n: nat,
    messages: nat,
    drain: nat,
    parts: nat -> set<nat>,
    preparedAt: nat -> nat,
    processedAt: nat -> nat)

  ghost predicate ValidPlan(c: Plan) {
    c.n >= 2 && forall r: nat :: r % c.n in c.parts(r)
  }

  function Start(n: nat): Sys {
    Sys(seq(n, i => FRESH), 0, 0, map[], {}, None, Empty, [], false)
  }

  // ---------------------------------------------------------------- preparing a round

  function MinExpected(states: seq<TomState>): nat
    requires states != []
  {
    var last := NextExpected(states[|states| - 1]);
    if |states| == 1 then last
    else
      var m := MinExpected(states[..|states| - 1]);
      if last < m then last else m
  }

  /** The message of term `t` at the first node that has it. */
  function FindMessage(states: seq<TomState>, t: nat): (d: Option<Data>)
    ensures d.Some? <==> exists i :: 0 <= i < |states| && t in states[i].store
    ensures d.Some? ==> exists i :: 0 <= i < |states| && t in states[i].store && states[i].store[t] == d.value
  {
    if states == [] then None
    else if t in states[0].store then Some(states[0].store[t])
    else
      var d := FindMessage(states[1..], t);
      assert forall i :: 0 < i < |states| ==> states[i] == states[1..][i - 1];
      d
  }

  function Repairs(states: seq<TomState>, i: nat, t: nat): Option<Data>
    requires i < |states|
  {
    if t in states[i].store then Some(states[i].store[t]) else FindMessage(states, t)
  }

  function LastTerm(sys: Sys): nat {
    if sys.nextTerm == 0 then 0 else sys.nextTerm - 1
  }

  /** The initiator's own part of a packet: a new message, a repair of the earliest undelivered one, or nothing. */
  datatype Floated = Floated(sys: Sys, term: nat, hasMessage: bool, data: Data)

  function Float(c: Plan, sys: Sys, r: nat): (f: Floated)
    requires |sys.states| == c.n > 0
    ensures |f.sys.states| == c.n
  {
    var i := r % c.n;
    if sys.published < c.messages then
      var t := sys.nextTerm;
      Floated(sys.(states := sys.states[i := Deliver(Inserted(sys.states[i], t, Msg(t)))],
                   starts := sys.starts[t := c.preparedAt(r)],
                   nextTerm := t + 1, published := sys.published + 1),
              t, true, Msg(t))
    else
      var need := MinExpected(sys.states);
      var found := Repairs(sys.states, i, need);
      if need < c.messages && found.Some? then
        Floated(sys.(states := sys.states[i := Inserted(sys.states[i], need, found.value)]), need, true, found.value)
      else Floated(sys, LastTerm(sys), false, Empty)
  }

  /** What the initiator can piggyback for the term asked for in the round before. */
  function PiggybackOf(sys: Sys, i: nat): Option<Data>
    requires i < |sys.states|
  {
    if sys.pbTerm.None? then None
    else if sys.pbTerm.value in sys.states[i].store then Some(sys.states[i].store[sys.pbTerm.value])
    else if sys.pbData != Empty then Some(sys.pbData)
    else None
  }

  function Prepared(c: Plan, sys: Sys, r: nat): (out: (Sys, Packet))
    requires |sys.states| == c.n > 0
    ensures |out.0.states| == c.n
  {
    var i := r % c.n;
    var gap := Gap(sys.states[i]);
    var f := Float(c, sys, r);
    var pb := PiggybackOf(f.sys, i);
    var packet := Packet(f.term, f.hasMessage, f.data, i, if gap.Some? then gap.value else 0,
                         if pb.Some? then f.sys.pbTerm else None, if pb.Some? then pb.value else Empty);
    if pb.Some? then
      (f.sys.(states := f.sys.states[i := Inserted(f.sys.states[i], f.sys.pbTerm.value, pb.value)],
              pbTerm := None, pbData := Empty), packet)
    else (f.sys.(pbData := if f.sys.pbTerm.None? then Empty else f.sys.pbData), packet)
  }

  // ---------------------------------------------------------------- processing a round

  /** A participant stores what the packet carries. */
  function Stored(st: TomState, pkt: Packet): TomState {
    var st1 := if pkt.hasMessage then Inserted(st, pkt.currentTerm, pkt.data)
               else st.(highestSeen := Raised(st.highestSeen, pkt.currentTerm));
    if pkt.pbTerm.Some? && pkt.pbData != Empty then Inserted(st1, pkt.pbTerm.value, pkt.pbData) else st1
  }

  function Terms(delivered: seq<(nat, Data)>): (ts: seq<nat>)
    ensures |ts| == |delivered|
  {
    seq(|delivered|, k requires 0 <= k < |delivered| => delivered[k].0)
  }

  function Requested(sys: Sys, i: nat, nack: nat): Sys
    requires i < |sys.states|
  {
    if nack == 0 then sys
    else if nack in sys.states[i].store then sys.(pbTerm := Some(nack), pbData := sys.states[i].store[nack])
    else if sys.pbTerm.None? then sys.(pbTerm := Some(nack))
    else sys
  }

  function ProcessNode(c: Plan, sys: Sys, r: nat, pkt: Packet, i: nat): (sys': Sys)
    requires |sys.states| == c.n && i < c.n
    ensures |sys'.states| == c.n
  {
    if i !in c.parts(r) then sys
    else
      var st := Deliver(Stored(sys.states[i], pkt));
      DeliveredGrows(Stored(sys.states[i], pkt));
      var news := Terms(st.delivered[|sys.states[i].delivered|..]);
      var (global, records) := Announced(sys.global, sys.records, news, sys.starts, c.processedAt(r));
      Requested(sys.(states := sys.states[i := st], global := global, records := records), i, pkt.nack)
  }

  lemma {:induction false} DeliveredGrows(st: TomState)
    ensures st.delivered <= Deliver(st).delivered
    ensures Deliver(st).store == st.store && Deliver(st).highestSeen == st.highestSeen
    decreases Waiting(st)
  {
    if NextExpected(st) in st.store {
      FewerWaiting(st);
      DeliveredGrows(DeliverOne(st));
    }
  }

  function ProcessUpTo(c: Plan, sys: Sys, r: nat, pkt: Packet, k: nat): (sys': Sys)
    requires |sys.states| == c.n && k <= c.n
    ensures |sys'.states| == c.n
  {
    if k == 0 then sys else ProcessNode(c, ProcessUpTo(c, sys, r, pkt, k - 1), r, pkt, k - 1)
  }

  /** How many messages every node has delivered. */
  function Informed(states: seq<TomState>): (k: nat)
    requires states != []
  {
    var k := |states[|states| - 1].delivered|;
    if |states| == 1 then k
    else
      var m := Informed(states[..|states| - 1]);
      if k < m then k else m
  }

  /** No node has less, and some node has no more. */
  lemma {:induction false} InformedIsLeast(states: seq<TomState>)
    requires states != []
    ensures forall i :: 0 <= i < |states| ==> Informed(states) <= |states[i].delivered|
    ensures exists i :: 0 <= i < |states| && Informed(states) == |states[i].delivered|
  {
    var n := |states| - 1;
    assert Informed(states) <= |states[n].delivered|;
    if n > 0 {
      InformedIsLeast(states[..n]);
      var i :| 0 <= i < n && Informed(states[..n]) == |states[..n][i].delivered|;
      assert Informed(states) == |states[n].delivered| || Informed(states) == |states[i].delivered|;
      assert forall k :: 0 <= k < n ==> states[..n][k] == states[k];
    }
  }

  predicate AllDelivered(states: seq<TomState>, messages: nat) {
    forall i :: 0 <= i < |states| ==> |states[i].delivered| >= messages
  }

  predicate ShouldStop(c: Plan, sys: Sys, r: nat) {
    || (AllDelivered(sys.states, c.messages) && sys.published >= c.messages)
    || (|sys.global| >= c.messages && r > c.messages + c.drain + c.messages * 2)
    || r > c.messages * 20 + 500
  }

  function Processed(c: Plan, sys: Sys, r: nat, pkt: Packet): (sys': Sys)
    requires |sys.states| == c.n
    ensures |sys'.states| == c.n
  {
    var done := ProcessUpTo(c, sys, r, pkt, c.n);
    done.(stop := done.stop || ShouldStop(c, done, r))
  }

  function RoundOf(c: Plan, sys: Sys, r: nat): (sys': Sys)
    requires |sys.states| == c.n > 0
    ensures |sys'.states| == c.n
  {
    var (sys1, pkt) := Prepared(c, sys, r);
    Processed(c, sys1, r, pkt)
  }

  /** The system after `r` rounds. */
  function After(c: Plan, r: nat): (sys: Sys)
    requires c.n > 0
    ensures |sys.states| == c.n
  {
    if r == 0 then Start(c.n) else RoundOf(c, After(c, r - 1), r - 1)
  }

  // ---------------------------------------------------------------- the total-order check

  /** The terms a node has delivered are 0, 1, 2, ... */
  predicate InOrder(st: TomState) {
    forall k :: 0 <= k < |st.delivered| ==> st.delivered[k].0 == k
  }
}
