/** Simulated nodes: radio state, per-round fields, payload and the three energy meters. */
module Nodes {
  datatype NodeState = Listen | Flood | Sleep

  /** Slots spent in each radio state. */
  datatype Energy = Energy(listen: nat, flood: nat, sleep: nat)

  /** The part of `e` spent in state `s`. */
  function Spent(e: Energy, s: NodeState): nat {
    match s
    case Listen => e.listen
    case Flood => e.flood
    case Sleep => e.sleep
  }

  /** One more slot in state `s`. */
  function Charge(e: Energy, s: NodeState): Energy {
    match s
    case Listen => e.(listen := e.listen + 1)
    case Flood => e.(flood := e.flood + 1)
    case Sleep => e.(sleep := e.sleep + 1)
  }

  class Node<P> {
    const id: nat
    var state: NodeState
    var floodRemaining: nat
    var lastProgressSlot: nat
    var payload: P
    var goalReached: bool
    var progressCount: nat
    var slotsListen: nat
    var slotsFlood: nat
    var slotsSleep: nat

    constructor (id: nat, blank: P)
      ensures this.id == id && state == Listen && floodRemaining == 0 && lastProgressSlot == 0
      ensures payload == blank && !goalReached && progressCount == 0 && Meter() == Energy(0, 0, 0)
    {
      this.id := id;
      state, floodRemaining, lastProgressSlot := Listen, 0, 0;
      payload, goalReached, progressCount := blank, false, 0;
      slotsListen, slotsFlood, slotsSleep := 0, 0, 0;
    }

    function Meter(): Energy
      reads this
    {
      Energy(slotsListen, slotsFlood, slotsSleep)
    }

    method ResetRound()
      modifies this`state, this`floodRemaining, this`lastProgressSlot
      ensures state == Listen && floodRemaining == 0 && lastProgressSlot == 0
    {
      state, floodRemaining, lastProgressSlot := Listen, 0, 0;
    }

    method Tick()
      modifies this`slotsListen, this`slotsFlood, this`slotsSleep
      ensures Meter() == Charge(old(Meter()), state)
    {
      match state
      case Listen => slotsListen := slotsListen + 1;
      case Flood => slotsFlood := slotsFlood + 1;
      case Sleep => slotsSleep := slotsSleep + 1;
    }
  }

  /** The vector of nodes owns its elements and indexes them by id, so no two entries are the same node. */
  ghost predicate Indexed<P>(nodes: seq<Node<P>>) {
    forall i :: 0 <= i < |nodes| ==> nodes[i].id == i
  }

  ghost function States<P>(nodes: seq<Node<P>>): (xs: seq<NodeState>)
    reads nodes
    ensures |xs| == |nodes|
  {
    seq(|nodes|, i requires 0 <= i < |nodes| reads nodes => nodes[i].state)
  }

  ghost function Payloads<P>(nodes: seq<Node<P>>): (xs: seq<P>)
    reads nodes
    ensures |xs| == |nodes|
  {
    seq(|nodes|, i requires 0 <= i < |nodes| reads nodes => nodes[i].payload)
  }

  ghost function Meters<P>(nodes: seq<Node<P>>): (xs: seq<Energy>)
    reads nodes
    ensures |xs| == |nodes|
  {
    seq(|nodes|, i requires 0 <= i < |nodes| reads nodes => nodes[i].Meter())
  }

  ghost function Progress<P>(nodes: seq<Node<P>>): (xs: seq<nat>)
    reads nodes
    ensures |xs| == |nodes|
  {
    seq(|nodes|, i requires 0 <= i < |nodes| reads nodes => nodes[i].progressCount)
  }

  /** How many of `states` are `s`. */
  function Count(states: seq<NodeState>, s: NodeState): nat {
    if states == [] then 0
    else Count(states[..|states| - 1], s) + if states[|states| - 1] == s then 1 else 0
  }

  /** The time a list of meters has spent in state `s`, added up. */
  function Total(meters: seq<Energy>, s: NodeState): nat {
    if meters == [] then 0 else Total(meters[..|meters| - 1], s) + Spent(meters[|meters| - 1], s)
  }

  function Charged(meters: seq<Energy>, states: seq<NodeState>): (r: seq<Energy>)
    requires |meters| == |states|
  {
    seq(|meters|, i requires 0 <= i < |meters| => Charge(meters[i], states[i]))
  }

  /** Charging every node one slot raises each network total by the number of nodes in that state. */
  lemma {:induction false} ChargedTotal(meters: seq<Energy>, states: seq<NodeState>, s: NodeState)
    requires |meters| == |states|
    ensures Total(Charged(meters, states), s) == Total(meters, s) + Count(states, s)
  {
    var n := |meters|;
    if n > 0 {
      ChargedTotal(meters[..n - 1], states[..n - 1], s);
      assert Charged(meters, states)[..n - 1] == Charged(meters[..n - 1], states[..n - 1]);
    }
  }

  /** Every node is in exactly one state. */
  lemma {:induction false} CountAll(states: seq<NodeState>)
    ensures Count(states, Listen) + Count(states, Flood) + Count(states, Sleep) == |states|
  {
    if states != [] {
      CountAll(states[..|states| - 1]);
    }
  }

  lemma {:induction false} CountNone(states: seq<NodeState>, s: NodeState)
    ensures Count(states, s) == 0 <==> s !in states
  {
    if states != [] {
      var n := |states| - 1;
      CountNone(states[..n], s);
      assert states == states[..n] + [states[n]];
    }
  }

  method TickAll<P>(nodes: seq<Node<P>>)
    requires Indexed(nodes)
    modifies nodes
    ensures Meters(nodes) == Charged(old(Meters(nodes)), old(States(nodes)))
    ensures forall i :: 0 <= i < |nodes| ==> Untimed(nodes[i]) == old(Untimed(nodes[i]))
  {
    for k := 0 to |nodes|
      invariant forall i :: 0 <= i < |nodes| ==> Untimed(nodes[i]) == old(Untimed(nodes[i]))
      invariant forall i :: 0 <= i < k ==>
        nodes[i].Meter() == Charge(old(nodes[i].Meter()), old(nodes[i].state))
      invariant forall i :: k <= i < |nodes| ==> nodes[i].Meter() == old(nodes[i].Meter())
    {
      nodes[k].Tick();
    }
  }

  /** Every field of a node but its meters. */
  datatype Fields<P> = Fields(state: NodeState, remaining: nat, lastProgress: nat,
                              payload: P, goalReached: bool, progress: nat)

  ghost function Untimed<P>(n: Node<P>): Fields<P>
    reads n
  {
    Fields(n.state, n.floodRemaining, n.lastProgressSlot, n.payload, n.goalReached, n.progressCount)
  }
}
