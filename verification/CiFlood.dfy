/** The constructive-interference round engine, proved against the wave of module CiWave. */
module CiFlood {
  import opened Wrappers
  import opened Network
  import opened Nodes
  import opened Metrics
  import opened CiWave

  datatype CiConfig = CiConfig(floodRepeats: nat, roundSlots: Option<nat>)

  /** What the slots of a round leave alone in a node. */
  datatype Held<P> = Held(payload: P, goalReached: bool, progress: nat)

  ghost function Holding<P>(n: Node<P>): Held<P>
    reads n
  {
    Held(n.payload, n.goalReached, n.progressCount)
  }

  ghost function Holdings<P>(nodes: seq<Node<P>>): (hs: seq<Held<P>>)
    reads nodes
    ensures |hs| == |nodes|
  {
    seq(|nodes|, i requires 0 <= i < |nodes| reads nodes => Holding(nodes[i]))
  }

  function ProgressOf<P>(held: seq<Held<P>>): seq<nat> {
    seq(|held|, i requires 0 <= i < |held| => held[i].progress)
  }

  ghost function Radios<P>(nodes: seq<Node<P>>): (rs: seq<Radio>)
    reads nodes
    ensures |rs| == |nodes|
  {
    seq(|nodes|, i requires 0 <= i < |nodes| reads nodes => Radio(nodes[i].state, nodes[i].floodRemaining))
  }

  /** The rows of the first `k` slots of a round. */
  ghost function RoundRows(env: FloodEnv, progress: seq<nat>, k: nat): seq<Snapshot> {
    if k == 0 then []
    else RoundRows(env, progress, k - 1) + [Row(env.start + k - 1, WaveStates(env, k - 1), progress)]
  }

  ghost function WaveStates(env: FloodEnv, k: nat): (xs: seq<NodeState>)
    ensures |xs| == |env.g|
  {
    seq(|env.g|, v requires 0 <= v < |env.g| => Wave(env, k)[v].state)
  }

  /** The nodes that flood in slot `k`: those that somebody got through to at most `repeats` slots before. */
  ghost function Flooding(env: FloodEnv, k: nat): set<nat>
    requires ValidEnv(env)
  {
    set v: nat | v < |env.g| && EntersAt(env, k, v).Some? && k < EntersAt(env, k, v).value + env.repeats
  }

  /** The nodes that nobody has got through to before slot `k`. */
  ghost function Waiting(env: FloodEnv, k: nat): set<nat>
    requires ValidEnv(env)
  {
    set v: nat | v < |env.g| && EntersAt(env, k, v).None?
  }

  /** The nodes that have flooded as often as they have to. */
  ghost function Resting(env: FloodEnv, k: nat): set<nat>
    requires ValidEnv(env)
  {
    set v: nat | v < |env.g| && EntersAt(env, k, v).Some? && k >= EntersAt(env, k, v).value + env.repeats
  }

  /** Under any loss every slot of a round has the row of who floods, who still waits and who is done in it. */
  lemma {:induction false} RowOfSlot(env: FloodEnv, progress: seq<nat>, k: nat, q: nat)
    requires ValidEnv(env) && q < k && progress != []
    ensures |RoundRows(env, progress, k)| == k
    ensures var row := RoundRows(env, progress, k)[q];
      && row.slot == env.start + q && row.flooding == |Flooding(env, q)| && row.listening == |Waiting(env, q)|
      && row.sleeping == |Resting(env, q)|
      && row.goalReached in progress && forall p :: p in progress ==> p <= row.goalReached
  {
    hide Wave, EntersAt;
    RowsCounted(env, progress, k);
    if q < k - 1 {
      RowOfSlot(env, progress, k - 1, q);
    } else {
      var states := WaveStates(env, q);
      RowIs(env.start + q, states, progress);
      forall v: nat | v < |env.g| ensures v in Those(states, Flood) <==> v in Flooding(env, q)
        ensures v in Those(states, Listen) <==> v in Waiting(env, q)
        ensures v in Those(states, Sleep) <==> v in Resting(env, q)
      {
        WaveExactly(env, q, v);
      }
      assert Those(states, Flood) == Flooding(env, q) && Those(states, Listen) == Waiting(env, q);
      assert Those(states, Sleep) == Resting(env, q);
    }
  }

  lemma {:induction false} RowsCounted(env: FloodEnv, progress: seq<nat>, k: nat)
    ensures |RoundRows(env, progress, k)| == k
  {
    if k > 0 {
      RowsCounted(env, progress, k - 1);
    }
  }

  /** What the first `k` slots of a round cost node `v`. */
  ghost function RoundEnergy(env: FloodEnv, v: nat, k: nat): Energy
    requires v < |env.g|
  {
    Energy(SlotsIn(env, v, k, Listen), SlotsIn(env, v, k, Flood), SlotsIn(env, v, k, Sleep))
  }

  function Plus(a: Energy, b: Energy): Energy {
    Energy(a.listen + b.listen, a.flood + b.flood, a.sleep + b.sleep)
  }

  /** The meters after the first `k` slots of a round that found them at `meters`. */
  ghost function MetersAt(env: FloodEnv, meters: seq<Energy>, k: nat): (ms: seq<Energy>)
    requires |meters| == |env.g|
    ensures |ms| == |meters|
  {
    seq(|meters|, i requires 0 <= i < |meters| => Plus(meters[i], RoundEnergy(env, i, k)))
  }

  lemma MetersAdvance(env: FloodEnv, meters: seq<Energy>, k: nat)
    requires |meters| == |env.g|
    ensures MetersAt(env, meters, 0) == meters
    ensures Charged(MetersAt(env, meters, k), WaveStates(env, k)) == MetersAt(env, meters, k + 1)
  {
  }

  /** What a node holds when the round is over: a participant that fell asleep holds the flooded payload. */
  function Delivery<P>(id: nat, initiator: nat, state: NodeState, own: Held<P>, flooded: P): Held<P> {
    if state == Sleep && id != initiator then own.(payload := flooded) else own
  }

  function Deliveries<P>(initiator: nat, states: seq<NodeState>, own: seq<Held<P>>, flooded: P): seq<Held<P>>
    requires |states| == |own|
  {
    seq(|own|, i requires 0 <= i < |own| => Delivery(i, initiator, states[i], own[i], flooded))
  }

  /** Reset every node and let the initiator flood. */
  method LaunchRound<P>(env: FloodEnv, nodes: seq<Node<P>>)
    requires ValidEnv(env) && Indexed(nodes) && |nodes| == |env.g|
    modifies nodes
    ensures Radios(nodes) == Launch(env)
    ensures Holdings(nodes) == old(Holdings(nodes)) && Meters(nodes) == old(Meters(nodes))
  {
    for k := 0 to |nodes|
      invariant forall i :: 0 <= i < |nodes| ==>
        Holding(nodes[i]) == old(Holding(nodes[i])) && nodes[i].Meter() == old(nodes[i].Meter())
      invariant forall i :: 0 <= i < k ==> nodes[i].state == Listen && nodes[i].floodRemaining == 0
    {
      nodes[k].ResetRound();
    }
    nodes[env.initiator].state := Flood;
    nodes[env.initiator].floodRemaining := env.repeats;
  }

  lemma BookSlot(b: Books, env: FloodEnv, progress: seq<nat>, k: nat, slot: nat, interval: nat)
    requires interval >= 1 && slot == env.start + k
    ensures Posted(b, RoundRows(env, progress, 0), interval) == b
    ensures Post(Posted(b, RoundRows(env, progress, k), interval), Row(slot, WaveStates(env, k), progress), interval)
         == Posted(b, RoundRows(env, progress, k + 1), interval)
  {
    PostedSnoc(b, RoundRows(env, progress, k), Row(slot, WaveStates(env, k), progress), interval);
  }

  /** Action phase: every flooding node transmits to its listening hearers. */
  method Transmit<P>(env: FloodEnv, slot: nat, nodes: seq<Node<P>>) returns (received: seq<bool>, anyFlood: bool)
    requires ValidEnv(env) && Indexed(nodes) && |nodes| == |env.g|
    ensures |received| == |nodes|
    ensures forall v :: 0 <= v < |nodes| && nodes[v].state == Listen ==>
      (received[v] <==> Hears(env, slot, Radios(nodes), v))
    ensures anyFlood <==> AnyFlood(Radios(nodes))
  {
    var heard := new bool[|nodes|](_ => false);
    anyFlood := false;
    for i := 0 to |nodes|
      invariant anyFlood <==> exists u :: 0 <= u < i && nodes[u].state == Flood
      invariant forall v :: 0 <= v < |nodes| && nodes[v].state == Listen ==>
        (heard[v] <==> exists u :: 0 <= u < i && HeardFrom(env, slot, nodes[u].state, u, v))
    {
      if nodes[i].state == Flood {
        anyFlood := true;
        TransmitFrom(env, slot, nodes, i, heard);
      }
    }
    received := heard[..];
    var rs := Radios(nodes);
    assert forall u :: 0 <= u < |nodes| ==> rs[u].state == nodes[u].state;
    forall v | 0 <= v < |nodes| && nodes[v].state == Listen
      ensures received[v] <==> Hears(env, slot, rs, v)
    {
      assert received[v] <==> exists u :: 0 <= u < |nodes| && HeardFrom(env, slot, rs[u].state, u, v);
    }
  }

  ghost predicate HeardFrom(env: FloodEnv, slot: nat, state: NodeState, u: nat, v: nat)
    requires u < |env.g|
  {
    state == Flood && v in env.g[u] && !env.lost(slot, u, v)
  }

  method TransmitFrom<P>(env: FloodEnv, slot: nat, nodes: seq<Node<P>>, src: nat, heard: array<bool>)
    requires ValidEnv(env) && |nodes| == |env.g| && src < |nodes| && heard.Length == |nodes|
    requires nodes[src].state == Flood
    modifies heard
    ensures forall v :: 0 <= v < |nodes| && nodes[v].state == Listen ==>
      (heard[v] <==> old(heard[v]) || HeardFrom(env, slot, Flood, src, v))
  {
    var todo := env.g[src];
    while todo != {}
      invariant todo <= env.g[src]
      invariant forall v :: 0 <= v < |nodes| && nodes[v].state == Listen ==>
        (heard[v] <==> old(heard[v]) || (v !in todo && HeardFrom(env, slot, Flood, src, v)))
      decreases |todo|
    {
      var nbr :| nbr in todo;
      todo := todo - {nbr};
      if nodes[nbr].state == Listen && !env.lost(slot, src, nbr) {
        heard[nbr] := true;
      }
    }
  }

  /** Transition phase: flooding nodes count down, listening nodes that received join the flood. */
  method Advance<P>(env: FloodEnv, slot: nat, nodes: seq<Node<P>>, received: seq<bool>)
    requires ValidEnv(env) && Indexed(nodes) && |nodes| == |env.g| == |received|
    requires forall v :: 0 <= v < |nodes| && nodes[v].state == Listen ==>
      (received[v] <==> Hears(env, slot, Radios(nodes), v))
    requires forall v :: 0 <= v < |nodes| && nodes[v].state == Flood ==> nodes[v].floodRemaining >= 1
    modifies nodes
    ensures Radios(nodes) == NextRadios(env, slot, old(Radios(nodes)))
    ensures Holdings(nodes) == old(Holdings(nodes)) && Meters(nodes) == old(Meters(nodes))
  {
    ghost var rs := Radios(nodes);
    for k := 0 to |nodes|
      invariant forall i :: 0 <= i < |nodes| ==>
        Holding(nodes[i]) == old(Holding(nodes[i])) && nodes[i].Meter() == old(nodes[i].Meter())
      invariant forall i :: 0 <= i < |nodes| ==>
        Radio(nodes[i].state, nodes[i].floodRemaining) == if i < k then NextRadio(env, slot, rs, i) else rs[i]
    {
      var node := nodes[k];
      if node.state == Flood {
        node.floodRemaining := node.floodRemaining - 1;
        if node.floodRemaining == 0 {
          node.state := Sleep;
        }
      } else if node.state == Listen && received[k] {
        node.state := Flood;
        node.floodRemaining := env.repeats;
      }
    }
  }

  method SomeoneFloods<P>(nodes: seq<Node<P>>) returns (any: bool)
    ensures any <==> AnyFlood(Radios(nodes))
  {
    any := false;
    for k := 0 to |nodes|
      invariant any <==> exists u :: 0 <= u < k && nodes[u].state == Flood
    {
      any := any || nodes[k].state == Flood;
    }
    assert forall u :: 0 <= u < |nodes| ==> Radios(nodes)[u].state == nodes[u].state;
  }

  /** Copy the flooded payload to every sleeping node but the initiator. */
  method Deliver<P>(initiator: nat, nodes: seq<Node<P>>, flooded: P)
    requires Indexed(nodes)
    modifies nodes
    ensures Radios(nodes) == old(Radios(nodes)) && Meters(nodes) == old(Meters(nodes))
    ensures Holdings(nodes) == Deliveries(initiator, States(nodes), old(Holdings(nodes)), flooded)
  {
    for k := 0 to |nodes|
      invariant forall i :: 0 <= i < |nodes| ==>
        && nodes[i].state == old(nodes[i].state) && nodes[i].floodRemaining == old(nodes[i].floodRemaining)
        && nodes[i].Meter() == old(nodes[i].Meter())
      invariant forall i :: 0 <= i < |nodes| ==>
        Holding(nodes[i]) ==
          if i < k then Delivery(i, initiator, nodes[i].state, old(Holding(nodes[i])), flooded)
          else old(Holding(nodes[i]))
    {
      if nodes[k].state == Sleep && nodes[k].id != initiator {
        nodes[k].payload := flooded;
      }
    }
  }

  /** The length of a round: as configured, or else two hops more than the diameter, every hop with all its repeats. */
  ghost function SlotLimit(g: Graph, cfg: CiConfig): nat
    requires ValidGraph(g)
  {
    if cfg.roundSlots.Some? then cfg.roundSlots.value
    else
      var limit := (HopDiameter(g) + 2) * cfg.floodRepeats;
      if limit < 3 then 3 else limit
  }

  method RoundSlots(cfg: CiConfig, g: Graph) returns (limit: nat)
    requires ValidGraph(g)
    ensures limit == SlotLimit(g, cfg)
    ensures cfg.roundSlots.None? && (HopDiameter(g) + 2) * cfg.floodRepeats >= 3 ==>
      limit == (HopDiameter(g) + 2) * cfg.floodRepeats
  {
    if cfg.roundSlots.Some? {
      return cfg.roundSlots.value;
    }
    var diameter := Diameter(g);
    limit := (diameter + 2) * cfg.floodRepeats;
    if limit < 3 {
      limit := 3;
    }
  }

  lemma MulMonotone(a: nat, b: nat, c: nat)
    requires a <= b
    ensures a * c <= b * c
  {
    assert b * c == a * c + (b - a) * c;
  }

  /** The automatically chosen round length leaves a lossless wave the time it needs, from any initiator. */
  lemma DefaultRoundSuffices(g: Graph, cfg: CiConfig, s: nat)
    requires ValidGraph(g) && s < |g| && cfg.floodRepeats >= 1 && cfg.roundSlots.None?
    ensures Ecc(g, s) + cfg.floodRepeats <= SlotLimit(g, cfg)
  {
    hide Ecc;
    MaxEccCovers(g, |g|, s);
    var d, r := HopDiameter(g), cfg.floodRepeats;
    MulMonotone(1, r, d);
    assert (d + 2) * r == r * d + 2 * r;
  }

  /** The first half of the `k`-th slot of a round: charge it, then transmit. */
  method ActInSlot<P>(env: FloodEnv, ghost k: nat, slot: nat, nodes: seq<Node<P>>, metrics: MetricsCollector,
                      nextSnapshot: nat, interval: nat)
    returns (next: nat, received: seq<bool>, anyFlood: bool)
    requires ValidEnv(env) && Indexed(nodes) && |nodes| == |env.g| && interval >= 1
    requires slot == env.start + k && Radios(nodes) == Wave(env, k)
    modifies nodes, metrics`snapshots, metrics`history
    ensures Radios(nodes) == Wave(env, k) && Holdings(nodes) == old(Holdings(nodes))
    ensures Meters(nodes) == Charged(old(Meters(nodes)), WaveStates(env, k))
    ensures metrics.BooksAt(next) == Post(old(metrics.BooksAt(nextSnapshot)),
                                          Row(slot, WaveStates(env, k), ProgressOf(old(Holdings(nodes)))), interval)
    ensures |received| == |nodes|
    ensures forall v :: 0 <= v < |nodes| && nodes[v].state == Listen ==>
      (received[v] <==> Hears(env, slot, Wave(env, k), v))
    ensures anyFlood <==> AnyFlood(Wave(env, k))
    ensures forall v :: 0 <= v < |nodes| && nodes[v].state == Flood ==> nodes[v].floodRemaining >= 1
  {
    assert States(nodes) == WaveStates(env, k) by {
      assert forall i :: 0 <= i < |nodes| ==> nodes[i].state == Radios(nodes)[i].state;
    }
    ghost var held := Holdings(nodes);
    assert Progress(nodes) == ProgressOf(held) by {
      assert forall i :: 0 <= i < |nodes| ==> nodes[i].progressCount == held[i].progress;
    }
    next := metrics.ChargeSlot(slot, nodes, nextSnapshot, interval);
    forall i | 0 <= i < |nodes|
      ensures Radio(nodes[i].state, nodes[i].floodRemaining) == Wave(env, k)[i] && Holding(nodes[i]) == held[i]
    {
      assert Untimed(nodes[i]) == old(Untimed(nodes[i]));
    }
    assert Radios(nodes) == Wave(env, k);
    forall v | 0 <= v < |nodes| && nodes[v].state == Flood ensures nodes[v].floodRemaining >= 1 {
      WaveCounters(env, k, v);
      assert Radios(nodes)[v] == Wave(env, k)[v];
    }
    received, anyFlood := Transmit(env, slot, nodes);
  }

  /** The second half of the `k`-th slot: advance every radio and look for next slot's flooders. */
  method EndSlot<P>(env: FloodEnv, ghost k: nat, slot: nat, nodes: seq<Node<P>>, received: seq<bool>,
                    ghost metrics: MetricsCollector)
    returns (nextAnyFlood: bool)
    requires ValidEnv(env) && Indexed(nodes) && |nodes| == |env.g| == |received|
    requires slot == env.start + k && Radios(nodes) == Wave(env, k)
    requires forall v :: 0 <= v < |nodes| && nodes[v].state == Listen ==>
      (received[v] <==> Hears(env, slot, Wave(env, k), v))
    requires forall v :: 0 <= v < |nodes| && nodes[v].state == Flood ==> nodes[v].floodRemaining >= 1
    modifies nodes
    ensures Radios(nodes) == Wave(env, k + 1) && Holdings(nodes) == old(Holdings(nodes))
    ensures Meters(nodes) == old(Meters(nodes))
    ensures unchanged(metrics)
    ensures nextAnyFlood <==> AnyFlood(Wave(env, k + 1))
  {
    Advance(env, slot, nodes, received);
    assert Wave(env, k + 1) == NextRadios(env, env.start + k, Wave(env, k));
    nextAnyFlood := SomeoneFloods(nodes);
  }

  /**
    The `k`-th slot of a round.  The exit on a silent slot after the first one is
    dead code: a round that goes on has a flooding node.
   */
  method RunSlot<P>(env: FloodEnv, ghost k: nat, slot: nat, nodes: seq<Node<P>>, metrics: MetricsCollector,
                    nextSnapshot: nat, interval: nat, ghost meters0: seq<Energy>, ghost books0: Books)
    returns (next: nat, nextAnyFlood: bool)
    requires ValidEnv(env) && Indexed(nodes) && |nodes| == |env.g| == |meters0| && interval >= 1
    requires slot == env.start + k && Radios(nodes) == Wave(env, k) && AnyFlood(Wave(env, k))
    requires Meters(nodes) == MetersAt(env, meters0, k)
    requires metrics.BooksAt(nextSnapshot) == Posted(books0, RoundRows(env, ProgressOf(Holdings(nodes)), k), interval)
    modifies nodes, metrics`snapshots, metrics`history
    ensures Radios(nodes) == Wave(env, k + 1) && Holdings(nodes) == old(Holdings(nodes))
    ensures Meters(nodes) == MetersAt(env, meters0, k + 1)
    ensures metrics.BooksAt(next)
         == Posted(books0, RoundRows(env, ProgressOf(old(Holdings(nodes))), k + 1), interval)
    ensures nextAnyFlood <==> AnyFlood(Wave(env, k + 1))
  {
    BookSlot(books0, env, ProgressOf(Holdings(nodes)), k, slot, interval);
    MetersAdvance(env, meters0, k);
    var received, anyFlood;
    next, received, anyFlood := ActInSlot(env, k, slot, nodes, metrics, nextSnapshot, interval);
    if !anyFlood && slot > env.start {
      assert false;
      return next, false;
    }
    nextAnyFlood := EndSlot(env, k, slot, nodes, received, metrics);
  }

  /** The slot loop of a round: from launch until nobody floods or the deadline. */
  method RunSlots<P>(env: FloodEnv, roundSlots: nat, nodes: seq<Node<P>>, metrics: MetricsCollector,
                     nextSnapshot: nat, interval: nat)
    returns (slot: nat, next: nat)
    requires ValidEnv(env) && Indexed(nodes) && |nodes| == |env.g| && interval >= 1
    requires Radios(nodes) == Launch(env)
    modifies nodes, metrics`snapshots, metrics`history
    ensures slot == env.start + RoundLength(env, roundSlots, 0)
    ensures Radios(nodes) == Wave(env, RoundLength(env, roundSlots, 0)) && Holdings(nodes) == old(Holdings(nodes))
    ensures Meters(nodes) == MetersAt(env, old(Meters(nodes)), RoundLength(env, roundSlots, 0))
    ensures metrics.BooksAt(next)
         == Posted(old(metrics.BooksAt(nextSnapshot)),
                   RoundRows(env, ProgressOf(old(Holdings(nodes))), RoundLength(env, roundSlots, 0)), interval)
  {
    hide Wave, AnyFlood, Posted, MetersAt, RoundRows, Launch;
    ghost var meters0, books0, held0 := Meters(nodes), metrics.BooksAt(nextSnapshot), Holdings(nodes);
    var roundEnd := env.start + roundSlots;
    LaunchFloods(env);
    MetersAdvance(env, meters0, 0);
    BookSlot(books0, env, ProgressOf(held0), 0, env.start, interval);
    slot := env.start;
    next := nextSnapshot;
    ghost var k := 0;
    while slot < roundEnd
      invariant slot == env.start + k && k <= roundSlots
      invariant AnyFlood(Wave(env, k))
      invariant Radios(nodes) == Wave(env, k) && Holdings(nodes) == held0
      invariant Meters(nodes) == MetersAt(env, meters0, k)
      invariant metrics.BooksAt(next) == Posted(books0, RoundRows(env, ProgressOf(held0), k), interval)
      invariant RoundLength(env, roundSlots, 0) == RoundLength(env, roundSlots, k)
      decreases roundEnd - slot
    {
      var nextAnyFlood;
      next, nextAnyFlood := RunSlot(env, k, slot, nodes, metrics, next, interval, meters0, books0);
      slot := slot + 1;
      k := k + 1;
      if !nextAnyFlood {
        break;
      }
    }
  }

  /**
    One identical-payload flood round.  It takes `RoundLength` slots, each of
    which charges every node exactly once; the radios end as the wave says; the
    mid-round exit on a silent slot is dead code (asserted below).
   */
  method FloodIdenticalRound<P>(env: FloodEnv, nodes: seq<Node<P>>, cfg: CiConfig, metrics: MetricsCollector,
                                nextSnapshot: nat, interval: nat)
    returns (end: nat, next: nat)
    requires ValidEnv(env) && Indexed(nodes) && |nodes| == |env.g|
    requires env.repeats == cfg.floodRepeats && interval >= 1
    modifies nodes, metrics`snapshots, metrics`history
    ensures var k := RoundLength(env, SlotLimit(env.g, cfg), 0);
      && end == env.start + k
      && Radios(nodes) == Wave(env, k)
      && Holdings(nodes) == Deliveries(env.initiator, WaveStates(env, k),
                                       old(Holdings(nodes)), old(nodes[env.initiator].payload))
      && Meters(nodes) == MetersAt(env, old(Meters(nodes)), k)
      && metrics.BooksAt(next)
         == Posted(old(metrics.BooksAt(nextSnapshot)), RoundRows(env, ProgressOf(old(Holdings(nodes))), k), interval)
  {
    hide Wave, AnyFlood, Posted, RoundRows, Ecc, RoundLength, SlotLimit;
    var roundSlots := RoundSlots(cfg, env.g);
    LaunchRound(env, nodes);
    var flooded := nodes[env.initiator].payload;
    assert flooded == Holdings(nodes)[env.initiator].payload == old(Holdings(nodes))[env.initiator].payload;
    var slot;
    slot, next := RunSlots(env, roundSlots, nodes, metrics, nextSnapshot, interval);
    ghost var held := Holdings(nodes);
    Deliver(env.initiator, nodes, flooded);
    assert States(nodes) == WaveStates(env, RoundLength(env, roundSlots, 0)) by {
      assert forall i :: 0 <= i < |nodes| ==> nodes[i].state == Radios(nodes)[i].state;
    }
    end := if slot < env.start + roundSlots then slot else env.start + roundSlots;
  }
}
