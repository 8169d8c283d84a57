/** The capture-effect round engine, proved against the rounds of module CeRun. */
module CeEngine {
  import opened Wrappers
  import opened Nodes
  import opened Metrics
  import opened CeProtocols
  import opened CeRun

  ghost function NodeView(n: Node<Payload>): CeNode
    reads n
  {
    CeNode(n.state, n.payload, n.lastProgressSlot, n.goalReached)
  }

  ghost function CeNodes(nodes: seq<Node<Payload>>): (ns: seq<CeNode>)
    reads nodes
    ensures |ns| == |nodes|
  {
    seq(|nodes|, i requires 0 <= i < |nodes| reads nodes => NodeView(nodes[i]))
  }

  function StatesOf(ns: seq<CeNode>): seq<NodeState> {
    seq(|ns|, i requires 0 <= i < |ns| => ns[i].state)
  }

  // ---------------------------------------------------------------- capture

  /** Flooding neighbours of `target` in ascending order. */
  method FloodingNeighbours(env: CeEnv, ghost ns: seq<CeNode>, nodes: seq<Node<Payload>>, target: nat)
    returns (flooding: seq<nat>)
    requires |ns| == |nodes| == |env.g|
    requires forall i :: 0 <= i < |nodes| ==> nodes[i].state == ns[i].state
    ensures flooding == Flooders(env.g, ns, target, |ns|)
  {
    flooding := [];
    for src := 0 to |nodes|
      invariant flooding == Flooders(env.g, ns, target, src)
    {
      if nodes[src].state == Flood && target in env.g[src] {
        flooding := flooding + [src];
      }
    }
  }

  /** The shuffle that makes the capture order random. */
  method ShuffleOrder(env: CeEnv, slot: nat, target: nat, flooding: seq<nat>) returns (order: seq<nat>)
    ensures order == Shuffled(flooding, if |flooding| == 0 then 0 else |flooding| - 1,
                              (i: nat) => env.draw(slot, target, i))
  {
    order := flooding;
    var i: nat := if |flooding| == 0 then 0 else |flooding| - 1;
    ghost var result := Shuffled(flooding, i, (k: nat) => env.draw(slot, target, k));
    while i > 0
      invariant i < |order| || i == 0
      invariant Shuffled(order, i, (k: nat) => env.draw(slot, target, k)) == result
    {
      var j := env.draw(slot, target, i) % (i + 1);
      order := order[i := order[j]][j := order[i]];
      i := i - 1;
    }
  }

  /** The first survivor in capture order. */
  method FirstSurvivor(env: CeEnv, slot: nat, target: nat, order: seq<nat>) returns (heard: Option<nat>)
    ensures heard == FirstHeard(order, (src: nat) => env.lost(slot, target, src))
  {
    ghost var lost := (src: nat) => env.lost(slot, target, src);
    for i := 0 to |order|
      invariant FirstHeard(order[i..], lost) == FirstHeard(order, lost)
    {
      if !env.lost(slot, target, order[i]) {
        return Some(order[i]);
      }
    }
    heard := None;
  }

  // ---------------------------------------------------------------- the phases of a slot

  /** Default plans and listen-timeout recovery. */
  method PlanTimeouts(env: CeEnv, slot: nat, nodes: seq<Node<Payload>>, ghost ns: seq<CeNode>)
    returns (next: array<NodeState>, progress: array<bool>)
    requires |nodes| == |ns| == |env.g| && CeNodes(nodes) == ns
    ensures fresh(next) && fresh(progress) && next.Length == progress.Length == |ns|
    ensures forall i :: 0 <= i < |ns| ==>
      && progress[i] == TimesOut(env, slot, ns[i], i)
      && next[i] == if progress[i] then Flood else if ns[i].state == Sleep then Sleep else Listen
  {
    next := new NodeState[|nodes|](_ => Listen);
    progress := new bool[|nodes|](_ => false);
    for i := 0 to |nodes|
      invariant forall j :: 0 <= j < |ns| ==>
        && progress[j] == (j < i && TimesOut(env, slot, ns[j], j))
        && next[j] == if progress[j] then Flood else if j < i && ns[j].state == Sleep then Sleep else Listen
    {
      assert NodeView(nodes[i]) == CeNodes(nodes)[i] == ns[i];
      if nodes[i].state == Sleep {
        next[i] := Sleep;
      }
      if nodes[i].state == Listen && slot - nodes[i].lastProgressSlot >= env.listenTimeout && env.coin(slot, i) {
        next[i] := Flood;
        progress[i] := true;
      }
    }
  }

  /** What node `i` looks like after the capture phase, before the transitions. */
  ghost predicate Served(env: CeEnv, slot: nat, ns: seq<CeNode>, i: nat, v: CeNode, next: NodeState, progress: bool)
    requires |ns| == |env.g| && i < |ns| && MergeableAll(env.proto, ns)
  {
    var (payload, newInfo) := Received(env, slot, ns, i);
    && v == CeNode(ns[i].state, payload, ns[i].lastProgress,
                   if newInfo then NodeGoal(env.proto, payload) else ns[i].goalReached)
    && progress == (TimesOut(env, slot, ns[i], i) || newInfo)
    && next == if progress then Flood else if ns[i].state == Sleep then Sleep else Listen
  }

  ghost predicate Unserved(env: CeEnv, slot: nat, ns: seq<CeNode>, i: nat, v: CeNode, next: NodeState, progress: bool)
    requires i < |ns|
  {
    && v == ns[i]
    && progress == TimesOut(env, slot, ns[i], i)
    && next == if progress then Flood else if ns[i].state == Sleep then Sleep else Listen
  }

  /** The reception of one target: at most one neighbour's slot-start payload is merged. */
  method Serve(env: CeEnv, slot: nat, nodes: seq<Node<Payload>>, sent: seq<Payload>, target: nat,
               next: array<NodeState>, progress: array<bool>, ghost ns: seq<CeNode>)
    requires |nodes| == |ns| == |env.g| == |sent| == next.Length == progress.Length && Indexed(nodes)
    requires target < |nodes| && MergeableAll(env.proto, ns) && sent == PayloadsOf(ns)
    requires forall i :: 0 <= i < |nodes| ==> nodes[i].state == ns[i].state
    requires Unserved(env, slot, ns, target, NodeView(nodes[target]), next[target], progress[target])
    modifies nodes[target], next, progress
    ensures Served(env, slot, ns, target, NodeView(nodes[target]), next[target], progress[target])
    ensures nodes[target].state == old(nodes[target].state)
    ensures nodes[target].Meter() == old(nodes[target].Meter())
    ensures nodes[target].progressCount == old(nodes[target].progressCount)
    ensures forall i :: 0 <= i < |nodes| && i != target ==>
      next[i] == old(next[i]) && progress[i] == old(progress[i])
  {
    var node := nodes[target];
    if node.state != Listen || next[target] == Flood {
      return;
    }
    var flooding := FloodingNeighbours(env, ns, nodes, target);
    var order := ShuffleOrder(env, slot, target, flooding);
    var heard := FirstSurvivor(env, slot, target, order);
    assert heard == Captured(env, slot, ns, target) == Reception(env, slot, ns, target);
    CaptureSound(env, slot, ns, target);
    hide Captured;
    if heard.Some? {
      var payload, newInfo := MergePacket(env.proto, node.payload, sent[heard.value], target);
      node.payload := payload;
      if newInfo {
        next[target] := Flood;
        progress[target] := true;
        node.goalReached := NodeGoal(env.proto, payload);
      }
    }
  }

  /** The capture phase over all targets. */
  method ServeAll(env: CeEnv, slot: nat, nodes: seq<Node<Payload>>, sent: seq<Payload>,
                  next: array<NodeState>, progress: array<bool>, ghost ns: seq<CeNode>)
    requires |nodes| == |ns| == |env.g| == |sent| == next.Length == progress.Length && Indexed(nodes)
    requires CeNodes(nodes) == ns && MergeableAll(env.proto, ns) && sent == PayloadsOf(ns)
    requires forall i :: 0 <= i < |nodes| ==> Unserved(env, slot, ns, i, ns[i], next[i], progress[i])
    modifies nodes, next, progress
    ensures forall i :: 0 <= i < |nodes| ==> Served(env, slot, ns, i, NodeView(nodes[i]), next[i], progress[i])
    ensures Meters(nodes) == old(Meters(nodes)) && Progress(nodes) == old(Progress(nodes))
  {
    hide Received, TimesOut, Served, Unserved, MergeableAll, PayloadsOf;
    forall i | 0 <= i < |nodes| ensures NodeView(nodes[i]) == ns[i] {
      assert CeNodes(nodes)[i] == ns[i];
    }
    for target := 0 to |nodes|
      invariant forall i :: 0 <= i < |nodes| ==> nodes[i].state == ns[i].state
      invariant forall i :: 0 <= i < target ==> Served(env, slot, ns, i, NodeView(nodes[i]), next[i], progress[i])
      invariant forall i :: target <= i < |nodes| ==>
        Unserved(env, slot, ns, i, NodeView(nodes[i]), next[i], progress[i])
      invariant forall i :: 0 <= i < |nodes| ==>
        nodes[i].Meter() == old(nodes[i].Meter()) && nodes[i].progressCount == old(nodes[i].progressCount)
    {
      Serve(env, slot, nodes, sent, target, next, progress, ns);
    }
  }

  /** One node's transition. */
  method ApplyPlan(env: CeEnv, slot: nat, nodes: seq<Node<Payload>>, i: nat, next: array<NodeState>,
                   progress: array<bool>, ghost ns: seq<CeNode>)
    requires |nodes| == |ns| == |env.g| == next.Length == progress.Length && i < |nodes|
    requires MergeableAll(env.proto, ns) && Served(env, slot, ns, i, NodeView(nodes[i]), next[i], progress[i])
    modifies nodes[i], next
    ensures NodeView(nodes[i]) == NextNode(env, slot, ns, i)
    ensures nodes[i].Meter() == old(nodes[i].Meter()) && nodes[i].progressCount == old(nodes[i].progressCount)
    ensures forall j :: 0 <= j < |nodes| && j != i ==> next[j] == old(next[j])
  {
    hide Received, TimesOut;
    var node := nodes[i];
    if CanSleep(env.proto, node.payload) {
      next[i] := if node.state == Flood then Sleep else Flood;
    }
    node.state := next[i];
    if progress[i] {
      node.lastProgressSlot := slot;
    }
  }

  /** The transition phase: apply the plans, except that a completed node floods once more and then sleeps. */
  method ApplyPlans(env: CeEnv, slot: nat, nodes: seq<Node<Payload>>, next: array<NodeState>, progress: array<bool>,
                    ghost ns: seq<CeNode>)
    requires |nodes| == |ns| == |env.g| == next.Length == progress.Length && Indexed(nodes)
    requires MergeableAll(env.proto, ns)
    requires forall i :: 0 <= i < |nodes| ==> Served(env, slot, ns, i, NodeView(nodes[i]), next[i], progress[i])
    modifies nodes, next
    ensures CeNodes(nodes) == NextNodes(env, slot, ns)
    ensures Meters(nodes) == old(Meters(nodes)) && Progress(nodes) == old(Progress(nodes))
  {
    hide Served, NextNode, MergeableAll;
    for i := 0 to |nodes|
      invariant forall j :: 0 <= j < i ==> NodeView(nodes[j]) == NextNode(env, slot, ns, j)
      invariant forall j :: i <= j < |nodes| ==>
        Served(env, slot, ns, j, NodeView(nodes[j]), next[j], progress[j])
      invariant forall j :: 0 <= j < |nodes| ==>
        nodes[j].Meter() == old(nodes[j].Meter()) && nodes[j].progressCount == old(nodes[j].progressCount)
    {
      ApplyPlan(env, slot, nodes, i, next, progress, ns);
    }
  }

  // ---------------------------------------------------------------- the round

  /** The rows of the first `k` slots of a round. */
  ghost function RoundRows(env: CeEnv, progress: seq<nat>, k: nat): seq<Snapshot>
    requires ValidEnv(env)
  {
    if k == 0 then []
    else RoundRows(env, progress, k - 1) + [Row(env.start + k - 1, StatesOf(Round(env, k - 1)), progress)]
  }

  /** The meters after the first `k` slots of a round that found them at `meters`. */
  ghost function MetersAt(env: CeEnv, meters: seq<Energy>, k: nat): (ms: seq<Energy>)
    requires ValidEnv(env) && |meters| == |env.g|
    ensures |ms| == |meters|
  {
    if k == 0 then meters else Charged(MetersAt(env, meters, k - 1), StatesOf(Round(env, k - 1)))
  }

  lemma BookSlot(b: Books, env: CeEnv, progress: seq<nat>, k: nat, slot: nat, interval: nat)
    requires interval >= 1 && ValidEnv(env) && slot == env.start + k
    ensures Posted(b, RoundRows(env, progress, 0), interval) == b
    ensures var row := Row(slot, StatesOf(Round(env, k)), progress);
      Post(Posted(b, RoundRows(env, progress, k), interval), row, interval)
         == Posted(b, RoundRows(env, progress, k + 1), interval)
  {
    PostedSnoc(b, RoundRows(env, progress, k), Row(slot, StatesOf(Round(env, k)), progress), interval);
  }

  lemma MetersStep(env: CeEnv, meters: seq<Energy>, k: nat)
    requires ValidEnv(env) && |meters| == |env.g|
    ensures MetersAt(env, meters, 0) == meters
    ensures MetersAt(env, meters, k + 1) == Charged(MetersAt(env, meters, k), StatesOf(Round(env, k)))
  {
  }

  /** Round setup: everybody listens, the initiator floods, the stall clocks restart. */
  method BeginRound(env: CeEnv, nodes: seq<Node<Payload>>)
    requires ValidEnv(env) && Indexed(nodes) && |nodes| == |env.g|
    requires Payloads(nodes) == env.payloads && forall i :: 0 <= i < |nodes| ==> nodes[i].goalReached == env.goals[i]
    modifies nodes
    ensures CeNodes(nodes) == Round(env, 0)
    ensures Meters(nodes) == old(Meters(nodes)) && Progress(nodes) == old(Progress(nodes))
  {
    assert forall i :: 0 <= i < |nodes| ==> nodes[i].payload == Payloads(nodes)[i];
    for k := 0 to |nodes|
      invariant forall i :: 0 <= i < k ==> nodes[i].state == Listen && nodes[i].lastProgressSlot == env.start
      invariant forall i :: 0 <= i < |nodes| ==>
        && nodes[i].payload == env.payloads[i] && nodes[i].goalReached == env.goals[i]
        && nodes[i].Meter() == old(nodes[i].Meter()) && nodes[i].progressCount == old(nodes[i].progressCount)
    {
      nodes[k].ResetRound();
      nodes[k].lastProgressSlot := env.start;
    }
    nodes[env.initiator].state := Flood;
  }

  method ReadPayloads(nodes: seq<Node<Payload>>) returns (payloads: seq<Payload>)
    ensures payloads == Payloads(nodes)
  {
    payloads := [];
    for i := 0 to |nodes|
      invariant payloads == Payloads(nodes)[..i]
    {
      payloads := payloads + [nodes[i].payload];
    }
  }

  /** Charge the `k`-th slot and look for the goal. */
  method ChargeAndTest(env: CeEnv, ghost k: nat, slot: nat, nodes: seq<Node<Payload>>, metrics: MetricsCollector,
                       nextSnapshot: nat, interval: nat)
    returns (next: nat, sent: seq<Payload>, goal: bool)
    requires ValidEnv(env) && Indexed(nodes) && |nodes| == |env.g| && interval >= 1
    requires CeNodes(nodes) == Round(env, k)
    modifies nodes, metrics`snapshots, metrics`history
    ensures CeNodes(nodes) == Round(env, k) && Progress(nodes) == old(Progress(nodes))
    ensures Meters(nodes) == Charged(old(Meters(nodes)), StatesOf(Round(env, k)))
    ensures metrics.BooksAt(next) == Post(old(metrics.BooksAt(nextSnapshot)),
                                          Row(slot, StatesOf(Round(env, k)), old(Progress(nodes))), interval)
    ensures sent == PayloadsAt(env, k) && goal == GoalAt(env, k)
  {
    hide Round, ValidEnv;
    ghost var ns, progress := Round(env, k), Progress(nodes);
    assert forall i :: 0 <= i < |nodes| ==> NodeView(nodes[i]) == ns[i];
    assert States(nodes) == StatesOf(ns);
    next := metrics.ChargeSlot(slot, nodes, nextSnapshot, interval);
    forall i | 0 <= i < |nodes| ensures NodeView(nodes[i]) == ns[i] && nodes[i].progressCount == progress[i] {
      assert Untimed(nodes[i]) == old(Untimed(nodes[i]));
    }
    sent := ReadPayloads(nodes);
    assert sent == PayloadsOf(ns) by {
      assert forall i :: 0 <= i < |nodes| ==> nodes[i].payload == NodeView(nodes[i]).payload;
    }
    goal := NetworkGoalReached(env.proto, sent);
  }

  /** The three planning phases of the `k`-th slot. */
  method Transit(env: CeEnv, ghost k: nat, slot: nat, nodes: seq<Node<Payload>>, sent: seq<Payload>,
                 ghost metrics: MetricsCollector)
    requires ValidEnv(env) && Indexed(nodes) && |nodes| == |env.g| && slot == env.start + k
    requires CeNodes(nodes) == Round(env, k) && sent == PayloadsAt(env, k)
    modifies nodes
    ensures CeNodes(nodes) == Round(env, k + 1) && unchanged(metrics)
    ensures Meters(nodes) == old(Meters(nodes)) && Progress(nodes) == old(Progress(nodes))
  {
    hide Round, NextNodes, MergeableAll, Served, TimesOut, Meters, Progress, Indexed;
    RoundStep(env, k);
    var next, progress := PlanTimeouts(env, slot, nodes, Round(env, k));
    ServeAll(env, slot, nodes, sent, next, progress, Round(env, k));
    ApplyPlans(env, slot, nodes, next, progress, Round(env, k));
  }

  /** The `k`-th slot of a round; when the goal is found in it, its transitions do not happen. */
  method RunSlot(env: CeEnv, ghost k: nat, slot: nat, nodes: seq<Node<Payload>>, metrics: MetricsCollector,
                 nextSnapshot: nat, interval: nat, ghost meters0: seq<Energy>, ghost books0: Books)
    returns (next: nat, found: bool)
    requires ValidEnv(env) && Indexed(nodes) && |nodes| == |env.g| == |meters0| && interval >= 1
    requires slot == env.start + k && CeNodes(nodes) == Round(env, k)
    requires Meters(nodes) == MetersAt(env, meters0, k)
    requires metrics.BooksAt(nextSnapshot) == Posted(books0, RoundRows(env, Progress(nodes), k), interval)
    modifies nodes, metrics`snapshots, metrics`history
    ensures found == GoalAt(env, k) && Progress(nodes) == old(Progress(nodes))
    ensures CeNodes(nodes) == Round(env, if found then k else k + 1)
    ensures Meters(nodes) == MetersAt(env, meters0, k + 1)
    ensures metrics.BooksAt(next) == Posted(books0, RoundRows(env, old(Progress(nodes)), k + 1), interval)
  {
    BookSlot(books0, env, Progress(nodes), k, slot, interval);
    MetersStep(env, meters0, k);
    hide Round, ValidEnv, Posted, RoundRows, NetworkGoal, GoalAt, Post, Charged, MetersAt, StatesOf;
    var sent;
    next, sent, found := ChargeAndTest(env, k, slot, nodes, metrics, nextSnapshot, interval);
    if !found {
      Transit(env, k, slot, nodes, sent, metrics);
    }
  }

  /** The slot loop of a round, from its first slot to the goal or the deadline. */
  method RunSlots(env: CeEnv, nodes: seq<Node<Payload>>, metrics: MetricsCollector, nextSnapshot: nat, interval: nat,
                  ghost meters0: seq<Energy>, ghost books0: Books, ghost progress0: seq<nat>)
    returns (slot: nat, goal: bool, next: nat)
    requires ValidEnv(env) && Indexed(nodes) && |nodes| == |env.g| == |meters0| && interval >= 1
    requires CeNodes(nodes) == Round(env, 0) && Progress(nodes) == progress0
    requires Meters(nodes) == meters0 && metrics.BooksAt(nextSnapshot) == books0
    modifies nodes, metrics`snapshots, metrics`history
    ensures slot == env.start + TickedSlots(env) && goal == GoalMet(env)
    ensures CeNodes(nodes) == Round(env, Steps(env, 0)) && Progress(nodes) == progress0
    ensures Meters(nodes) == MetersAt(env, meters0, TickedSlots(env))
    ensures metrics.BooksAt(next) == Posted(books0, RoundRows(env, progress0, TickedSlots(env)), interval)
  {
    hide Round, ValidEnv, Posted, RoundRows, GoalAt, MetersAt, CeNodes, Meters, Progress, Indexed;
    BookSlot(books0, env, progress0, 0, env.start, interval);
    MetersStep(env, meters0, 0);
    var deadline := env.start + env.maxRoundSlots;
    slot := env.start;
    ghost var k := 0;
    next, goal := nextSnapshot, false;
    while slot < deadline
      invariant slot == env.start + k && k <= env.maxRoundSlots && !goal
      invariant CeNodes(nodes) == Round(env, k) && Progress(nodes) == progress0
      invariant Meters(nodes) == MetersAt(env, meters0, k)
      invariant metrics.BooksAt(next) == Posted(books0, RoundRows(env, progress0, k), interval)
      invariant Steps(env, 0) == Steps(env, k)
      decreases deadline - slot
    {
      next, goal := RunSlot(env, k, slot, nodes, metrics, next, interval, meters0, books0);
      slot := slot + 1;
      if goal {
        break;
      }
      k := k + 1;
    }
  }

  /**
    One capture-effect round: it runs `Steps` transitions, charges `TickedSlots`
    slots and reports whether the goal was found before the deadline.
   */
  method RunCeRound(env: CeEnv, nodes: seq<Node<Payload>>, metrics: MetricsCollector, nextSnapshot: nat, interval: nat)
    returns (end: nat, goal: bool, next: nat)
    requires ValidEnv(env) && Indexed(nodes) && |nodes| == |env.g| && interval >= 1
    requires Payloads(nodes) == env.payloads && forall i :: 0 <= i < |nodes| ==> nodes[i].goalReached == env.goals[i]
    modifies nodes, metrics`snapshots, metrics`history
    ensures end == env.start + TickedSlots(env) && goal == GoalMet(env)
    ensures CeNodes(nodes) == Round(env, Steps(env, 0)) && Progress(nodes) == old(Progress(nodes))
    ensures Meters(nodes) == MetersAt(env, old(Meters(nodes)), TickedSlots(env))
    ensures metrics.BooksAt(next)
         == Posted(old(metrics.BooksAt(nextSnapshot)), RoundRows(env, old(Progress(nodes)), TickedSlots(env)), interval)
  {
    hide Round, ValidEnv, Posted, RoundRows, GoalAt, MetersAt, CeNodes, Meters, Progress, Indexed, Payloads;
    ghost var meters0, books0, progress0 := Meters(nodes), metrics.BooksAt(nextSnapshot), Progress(nodes);
    BeginRound(env, nodes);
    end, goal, next := RunSlots(env, nodes, metrics, nextSnapshot, interval, meters0, books0, progress0);
  }
}
