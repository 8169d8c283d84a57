/**
  A capture-effect round as a function of time.

  All randomness is an oracle of the environment: `coin(slot, i)` is the
  re-flood coin of a stalled listener, `draw(slot, target, i)` the draws of the
  capture shuffle and `lost(slot, target, src)` the losses, so a statement for
  all environments is a statement for every run.
 */
module CeRun {
  import opened Wrappers
  import opened Messages
  import opened Network
  import opened Nodes
  import opened CeProtocols

  datatype CeEnv = CeEnv(
    g: Graph,
    initiator: nat,
    start: nat,
    listenTimeout: nat,
    maxRoundSlots: nat,
    proto: Protocol,
    payloads: seq<Payload>,
    goals: seq<bool>,
    coin: (nat, nat) -> bool,
    draw: (nat, nat, nat) -> nat,
    lost: (nat, nat, nat) -> bool)

  /** The per-round part of a node. */
  datatype CeNode = CeNode(state: NodeState, payload: Payload, lastProgress: nat, goalReached: bool)

  /** What the simulator hands to a round: a fresh proposal at the initiator, blank payloads elsewhere. */
  predicate ValidEnv(env: CeEnv) {
    && ValidGraph(env.g) && env.initiator < |env.g|
    && env.proto.numNodes == |env.g|
    && env.payloads == FreshPayloads(env.proto, env.initiator)
    && |env.goals| == |env.g|
  }

  function FreshPayloads(p: Protocol, initiator: nat): seq<Payload>
    requires initiator < p.numNodes
  {
    seq(p.numNodes, i => Blank)[initiator := Opening(p, initiator)]
  }

  function Began(env: CeEnv): (ns: seq<CeNode>)
    requires |env.payloads| == |env.goals| == |env.g|
    ensures |ns| == |env.g|
  {
    seq(|env.g|, i requires 0 <= i < |env.g| =>
      CeNode(if i == env.initiator then Flood else Listen, env.payloads[i], env.start, env.goals[i]))
  }

  // ---------------------------------------------------------------- capture

  /** The flooding nodes among the first `k` that `target` hears, in ascending order. */
  function Flooders(g: Graph, ns: seq<CeNode>, target: nat, k: nat): seq<nat>
    requires k <= |ns| && k <= |g|
  {
    if k == 0 then []
    else
      Flooders(g, ns, target, k - 1)
      + if ns[k - 1].state == Flood && target in g[k - 1] then [k - 1] else []
  }

  /** The shuffle from position `i` down to 1. */
  function Shuffled(s: seq<nat>, i: nat, draw: nat -> nat): (r: seq<nat>)
    requires i < |s| || i == 0
    ensures |r| == |s|
    decreases i
  {
    if i == 0 then s
    else
      var j := draw(i) % (i + 1);
      Shuffled(s[i := s[j]][j := s[i]], i - 1, draw)
  }

  /** The first transmission in capture order that the loss draw lets through. */
  function FirstHeard(order: seq<nat>, lost: nat -> bool): Option<nat> {
    if order == [] then None
    else if lost(order[0]) then FirstHeard(order[1..], lost)
    else Some(order[0])
  }

  /** The neighbour that a listening `target` receives from in `slot`, if any. */
  function Captured(env: CeEnv, slot: nat, ns: seq<CeNode>, target: nat): Option<nat>
    requires |ns| == |env.g|
  {
    var flooding := Flooders(env.g, ns, target, |ns|);
    var order := Shuffled(flooding, if |flooding| == 0 then 0 else |flooding| - 1,
                          (i: nat) => env.draw(slot, target, i));
    FirstHeard(order, (src: nat) => env.lost(slot, target, src))
  }

  lemma {:induction false} FloodersAre(g: Graph, ns: seq<CeNode>, target: nat, k: nat, u: nat)
    requires k <= |ns| && k <= |g|
    ensures u in Flooders(g, ns, target, k) <==> u < k && ns[u].state == Flood && target in g[u]
  {
    if k > 0 {
      FloodersAre(g, ns, target, k - 1, u);
    }
  }

  lemma {:induction false} ShuffledMembers(s: seq<nat>, i: nat, draw: nat -> nat, u: nat)
    requires i < |s| || i == 0
    ensures u in Shuffled(s, i, draw) <==> u in s
    decreases i
  {
    if i > 0 {
      var j := draw(i) % (i + 1);
      var t := s[i := s[j]][j := s[i]];
      ShuffledMembers(t, i - 1, draw, u);
      assert t[i] == s[j] && t[j] == s[i];
      assert forall k :: 0 <= k < |s| && k != i && k != j ==> t[k] == s[k];
    }
  }

  lemma {:induction false} FirstHeardIs(order: seq<nat>, lost: nat -> bool)
    ensures var h := FirstHeard(order, lost); h.Some? ==> h.value in order && !lost(h.value)
    ensures FirstHeard(order, lost).None? ==> forall u :: u in order ==> lost(u)
  {
    if order != [] {
      FirstHeardIs(order[1..], lost);
      assert order == [order[0]] + order[1..];
    }
  }

  /** Whatever the capture order, what is captured is a surviving neighbour, and one is when one survives. */
  lemma CaptureSound(env: CeEnv, slot: nat, ns: seq<CeNode>, target: nat)
    requires |ns| == |env.g|
    ensures var h := Captured(env, slot, ns, target);
      h.Some? ==> h.value < |ns| && ns[h.value].state == Flood && target in env.g[h.value]
                  && !env.lost(slot, target, h.value)
    ensures Captured(env, slot, ns, target).None? ==>
      forall u :: 0 <= u < |ns| && ns[u].state == Flood && target in env.g[u] ==> env.lost(slot, target, u)
  {
    var flooding := Flooders(env.g, ns, target, |ns|);
    var last := if |flooding| == 0 then 0 else |flooding| - 1;
    var order := Shuffled(flooding, last, (i: nat) => env.draw(slot, target, i));
    FirstHeardIs(order, (src: nat) => env.lost(slot, target, src));
    forall u: nat ensures u in order <==> u < |ns| && ns[u].state == Flood && target in env.g[u] {
      FloodersAre(env.g, ns, target, |ns|, u);
      ShuffledMembers(flooding, last, (i: nat) => env.draw(slot, target, i), u);
    }
  }

  // ---------------------------------------------------------------- one slot

  /** A stalled listener whose coin says re-flood. */
  predicate TimesOut(env: CeEnv, slot: nat, n: CeNode, i: nat) {
    n.state == Listen && slot - n.lastProgress >= env.listenTimeout && env.coin(slot, i)
  }

  /** The reception of node `i`: nobody, or the payload source it captures. */
  function Reception(env: CeEnv, slot: nat, ns: seq<CeNode>, i: nat): Option<nat>
    requires |ns| == |env.g| && i < |ns|
  {
    if ns[i].state == Listen && !TimesOut(env, slot, ns[i], i) then Captured(env, slot, ns, i) else None
  }

  /** Every payload can be merged into every other. */
  predicate MergeableAll(p: Protocol, ns: seq<CeNode>) {
    |ns| == p.numNodes && forall i, j :: 0 <= i < |ns| && 0 <= j < |ns| ==>
      Mergeable(p, ns[i].payload, ns[j].payload, i)
  }

  /** Node `i`'s payload after its reception in this slot, and whether it learned anything. */
  function Received(env: CeEnv, slot: nat, ns: seq<CeNode>, i: nat): (Payload, bool)
    requires |ns| == |env.g| && i < |ns| && MergeableAll(env.proto, ns)
  {
    var h := Reception(env, slot, ns, i);
    CaptureSound(env, slot, ns, i);
    if h.Some? then Merge(env.proto, ns[i].payload, ns[h.value].payload, i) else (ns[i].payload, false)
  }

  function NextNode(env: CeEnv, slot: nat, ns: seq<CeNode>, i: nat): CeNode
    requires |ns| == |env.g| && i < |ns| && MergeableAll(env.proto, ns)
  {
    var n := ns[i];
    var (payload, newInfo) := Received(env, slot, ns, i);
    var progress := TimesOut(env, slot, n, i) || newInfo;
    var planned := if progress then Flood else if n.state == Sleep then Sleep else Listen;
    CeNode(
      if CanSleep(env.proto, payload) then (if n.state == Flood then Sleep else Flood) else planned,
      payload,
      if progress then slot else n.lastProgress,
      if newInfo then NodeGoal(env.proto, payload) else n.goalReached)
  }

  function NextNodes(env: CeEnv, slot: nat, ns: seq<CeNode>): (ns': seq<CeNode>)
    requires |ns| == |env.g| && MergeableAll(env.proto, ns)
    ensures |ns'| == |ns|
  {
    seq(|ns|, i requires 0 <= i < |ns| => NextNode(env, slot, ns, i))
  }

  function PayloadsOf(ns: seq<CeNode>): (ps: seq<Payload>)
    ensures |ps| == |ns|
  {
    seq(|ns|, i requires 0 <= i < |ns| => ns[i].payload)
  }

  // ---------------------------------------------------------------- bitmaps keep their length

  /** The shape of every payload of a round: this protocol's packet, this term, full-length bitmap, own bit set. */
  predicate Shaped(p: Protocol, payload: Payload, i: nat) {
    match payload
    case Blank => true
    case TwoPc(pkt) =>
      p.TwoPcCE? && pkt.term == p.currentTerm && pkt.data == Tx(pkt.term)
      && |pkt.bits| == p.numNodes && i < p.numNodes && pkt.bits[i]
    case Paxos(pkt) =>
      p.PaxosCE? && pkt.term == p.currentTerm && pkt.data == Tx(pkt.term)
      && |pkt.bits| == p.numNodes && i < p.numNodes && pkt.bits[i]
    case Tom(pkt) =>
      p.TomCE? && pkt.term == p.currentTerm && pkt.data == Msg(pkt.term)
      && |pkt.bits| == p.numNodes && i < p.numNodes && pkt.bits[i]
  }

  predicate ShapedAll(p: Protocol, ns: seq<CeNode>) {
    |ns| == p.numNodes && forall i :: 0 <= i < |ns| ==> Shaped(p, ns[i].payload, i)
  }

  lemma OpeningShaped(p: Protocol, initiator: nat)
    requires initiator < p.numNodes
    ensures Shaped(p, Opening(p, initiator), initiator) && Opening(p, initiator) != Blank
  {
  }

  lemma MergeShaped(p: Protocol, a: Payload, b: Payload, i: nat, j: nat)
    requires i < p.numNodes && Shaped(p, a, i) && Shaped(p, b, j)
    ensures Mergeable(p, a, b, i)
    ensures Shaped(p, Merge(p, a, b, i).0, i)
    ensures b != Blank ==> Merge(p, a, b, i).0 != Blank
    ensures a != Blank ==> Merge(p, a, b, i).0 != Blank
    ensures b == Blank ==> Merge(p, a, b, i) == (a, false)
  {
  }

  lemma StepShaped(env: CeEnv, slot: nat, ns: seq<CeNode>)
    requires |ns| == |env.g| && ShapedAll(env.proto, ns)
    ensures MergeableAll(env.proto, ns) && ShapedAll(env.proto, NextNodes(env, slot, ns))
  {
    forall i, j | 0 <= i < |ns| && 0 <= j < |ns| ensures Mergeable(env.proto, ns[i].payload, ns[j].payload, i) {
      MergeShaped(env.proto, ns[i].payload, ns[j].payload, i, j);
    }
    forall i | 0 <= i < |ns| ensures Shaped(env.proto, NextNode(env, slot, ns, i).payload, i) {
      CaptureSound(env, slot, ns, i);
      var h := Reception(env, slot, ns, i);
      if h.Some? {
        MergeShaped(env.proto, ns[i].payload, ns[h.value].payload, i, h.value);
      }
    }
  }

  /**
    One step seen from a node: it either keeps its payload, or it was listening
    and merged the payload of a flooding neighbour `h` that got through.
   */
  lemma StepPayload(env: CeEnv, slot: nat, ns: seq<CeNode>, i: nat) returns (h: Option<nat>)
    requires |ns| == |env.g| && i < |ns| && ShapedAll(env.proto, ns) && MergeableAll(env.proto, ns)
    ensures h == Reception(env, slot, ns, i)
    ensures h.None? ==>
      PayloadsOf(NextNodes(env, slot, ns))[i] == ns[i].payload && !Received(env, slot, ns, i).1
    ensures h.Some? ==>
      && h.value < |ns| && ns[i].state == Listen && ns[h.value].state == Flood
      && i in env.g[h.value] && !env.lost(slot, i, h.value)
      && Received(env, slot, ns, i) == Merge(env.proto, ns[i].payload, ns[h.value].payload, i)
      && PayloadsOf(NextNodes(env, slot, ns))[i] == Merge(env.proto, ns[i].payload, ns[h.value].payload, i).0
    ensures ns[i].payload != Blank ==> PayloadsOf(NextNodes(env, slot, ns))[i] != Blank
    ensures ns[i].payload.Paxos? ==> PayloadsOf(NextNodes(env, slot, ns))[i].Paxos?
  {
    CaptureSound(env, slot, ns, i);
    h := Reception(env, slot, ns, i);
    if h.Some? {
      MergeShaped(env.proto, ns[i].payload, ns[h.value].payload, i, h.value);
    }
  }

  /** The nodes when a round starts. */
  function Launched(env: CeEnv): (ns: seq<CeNode>)
    requires ValidEnv(env)
    ensures |ns| == |env.g| && ShapedAll(env.proto, ns)
  {
    OpeningShaped(env.proto, env.initiator);
    Began(env)
  }

  /** The nodes a slot later. */
  function Advanced(env: CeEnv, slot: nat, ns: seq<CeNode>): (ns': seq<CeNode>)
    requires |ns| == |env.g| && ShapedAll(env.proto, ns)
    ensures |ns'| == |env.g| && ShapedAll(env.proto, ns')
  {
    StepShaped(env, slot, ns);
    NextNodes(env, slot, ns)
  }

  /** The nodes at the start of the `k`-th slot of a round, had it not been ended before. */
  function Round(env: CeEnv, k: nat): (ns: seq<CeNode>)
    requires ValidEnv(env)
    ensures |ns| == |env.g| && ShapedAll(env.proto, ns)
  {
    if k == 0 then Launched(env) else Advanced(env, env.start + k - 1, Round(env, k - 1))
  }

  lemma RoundStep(env: CeEnv, k: nat)
    requires ValidEnv(env)
    ensures MergeableAll(env.proto, Round(env, k))
    ensures Round(env, k + 1) == NextNodes(env, env.start + k, Round(env, k))
  {
    StepShaped(env, env.start + k, Round(env, k));
  }

  /** The payloads at the start of the `k`-th slot. */
  function PayloadsAt(env: CeEnv, k: nat): (ps: seq<Payload>)
    requires ValidEnv(env)
    ensures |ps| == |env.g|
  {
    PayloadsOf(Round(env, k))
  }

  ghost predicate GoalAt(env: CeEnv, k: nat)
    requires ValidEnv(env)
  {
    NetworkGoal(env.proto, PayloadsAt(env, k))
  }

  /** The slot transitions a round runs, from the `k`-th on: up to its goal or its deadline. */
  ghost function Steps(env: CeEnv, k: nat): (len: nat)
    requires ValidEnv(env) && k <= env.maxRoundSlots
    ensures k <= len <= env.maxRoundSlots
    ensures forall j :: k <= j < len ==> !GoalAt(env, j)
    ensures len < env.maxRoundSlots ==> GoalAt(env, len)
    decreases env.maxRoundSlots - k
  {
    if k == env.maxRoundSlots || GoalAt(env, k) then k else Steps(env, k + 1)
  }

  ghost predicate GoalMet(env: CeEnv)
    requires ValidEnv(env)
  {
    Steps(env, 0) < env.maxRoundSlots
  }

  /** Slots ticked: the slot in which the goal is found is charged too. */
  ghost function TickedSlots(env: CeEnv): nat
    requires ValidEnv(env)
  {
    Steps(env, 0) + if GoalMet(env) then 1 else 0
  }
}
