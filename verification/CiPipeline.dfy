/**
  The shared runtime of the constructive-interference pipelines: the slot clock,
  the rotation of initiators, one flood per round, and the books.
 */
module CiPipeline {
  import opened Wrappers
  import opened Network
  import opened Nodes
  import opened Metrics
  import opened CiWave
  import opened CiFlood

  datatype PipeConfig = PipeConfig(
    g: Graph,
    ci: CiConfig,
    interval: nat,
    maxSlots: nat,
    lost: (nat, nat, nat) -> bool)

  predicate ValidPipe(c: PipeConfig) {
    ValidGraph(c.g) && |c.g| >= 2 && c.ci.floodRepeats >= 1 && c.interval >= 1
  }

  // ---------------------------------------------------------------- rounds in time

  /** The flood of round `r` when it starts at `start`. */
  function FloodAt(c: PipeConfig, r: nat, start: nat): (env: FloodEnv)
    requires ValidPipe(c)
    ensures ValidEnv(env)
  {
    FloodEnv(c.g, r % |c.g|, c.ci.floodRepeats, start, c.lost)
  }

  /** The slot in which round `r` starts, whatever the protocol. */
  ghost function RoundStart(c: PipeConfig, r: nat): nat
    requires ValidPipe(c)
  {
    if r == 0 then 0
    else
      var start := RoundStart(c, r - 1);
      start + RoundLength(FloodAt(c, r - 1, start), SlotLimit(c.g, c.ci), 0)
  }

  ghost function FinalWave(c: PipeConfig, r: nat): (rs: seq<Radio>)
    requires ValidPipe(c)
    ensures |rs| == |c.g|
  {
    var env := FloodAt(c, r, RoundStart(c, r));
    Wave(env, RoundLength(env, SlotLimit(c.g, c.ci), 0))
  }

  /** Who took part in round `r`: its initiator and the nodes asleep at its end. */
  ghost function Takers(c: PipeConfig, r: nat): (s: set<nat>)
    requires ValidPipe(c)
    ensures r % |c.g| in s
  {
    {r % |c.g|} + set i: nat | i < |c.g| && FinalWave(c, r)[i].state == Sleep
  }

  /**
    Under any loss: a node takes part exactly if it is the initiator, or somebody got through to
    it early enough for it to flood `repeats` times before the round ended.
   */
  lemma TakersExactly(c: PipeConfig, r: nat, v: nat)
    requires ValidPipe(c) && v < |c.g|
    ensures var env := FloodAt(c, r, RoundStart(c, r));
      var len := RoundLength(env, SlotLimit(c.g, c.ci), 0);
      v in Takers(c, r) <==>
        v == r % |c.g| || (EntersAt(env, len, v).Some? && EntersAt(env, len, v).value + c.ci.floodRepeats <= len)
  {
    hide Wave, RoundLength, SlotLimit, RoundStart, EntersAt;
    var env := FloodAt(c, r, RoundStart(c, r));
    WaveExactly(env, RoundLength(env, SlotLimit(c.g, c.ci), 0), v);
  }

  /** No link ever loses `floodRepeats` transmissions in a row. */
  ghost predicate PatientLinks(c: PipeConfig)
    requires ValidPipe(c)
  {
    Patient(FloodAt(c, 0, 0))
  }

  lemma PatientFlood(c: PipeConfig, r: nat, start: nat)
    requires ValidPipe(c) && PatientLinks(c)
    ensures Patient(FloodAt(c, r, start))
  {
    var env, env0 := FloodAt(c, r, start), FloodAt(c, 0, 0);
    forall slot: nat, u: nat, v: nat | u < |env.g| && v in env.g[u] ensures GetsThrough(env, slot, u, v) {
      assert GetsThrough(env0, slot, u, v);
    }
  }

  lemma LosslessIsPatient(c: PipeConfig)
    requires ValidPipe(c) && forall slot, i, j :: !c.lost(slot, i, j)
    ensures PatientLinks(c)
  {
    var env := FloodAt(c, 0, 0);
    forall slot: nat, u: nat, v: nat | u < |env.g| && v in env.g[u] ensures GetsThrough(env, slot, u, v) {
      assert slot <= slot < slot + env.repeats && !env.lost(slot, u, v);
    }
  }

  /**
    Repeats pay: on a connected graph with the default round length everybody takes part in every
    round as long as no link loses `floodRepeats` transmissions in a row.
   */
  lemma EverybodyTakesPart(c: PipeConfig, r: nat, v: nat)
    requires ValidPipe(c) && Connected(c.g) && c.ci.roundSlots.None? && v < |c.g| && PatientLinks(c)
    ensures v in Takers(c, r)
  {
    hide Wave, RoundLength, SlotLimit, Ecc, Ball, RoundStart, EntersAt, AnyFlood, Patient, PatientLinks;
    var s, start := r % |c.g|, RoundStart(c, r);
    var env := FloodAt(c, r, start);
    var limit, repeats := SlotLimit(c.g, c.ci), c.ci.floodRepeats;
    assert Reaches(c.g, s, v);
    var k: nat :| v in Ball(c.g, s, k);
    var d := DistanceExists(c.g, s, k, v);
    PatientFlood(c, r, start);
    PatientWave(env, d, v);
    EntersWhen(env, d * repeats, v);
    var e := EntersAt(env, d * repeats, v).value;
    LateIsInTime(c.g, c.ci, s, d, v);
    EndsAfter(env, limit, e, v);
    TakersExactly(c, r, v);
  }

  /** The default round length leaves a node as far away as possible its repeats, if it enters as late as that. */
  lemma LateIsInTime(g: Graph, cfg: CiConfig, s: nat, d: nat, v: nat)
    requires ValidGraph(g) && s < |g| && cfg.floodRepeats >= 1 && cfg.roundSlots.None? && AtDistance(g, s, d, v)
    ensures d * cfg.floodRepeats + cfg.floodRepeats <= SlotLimit(g, cfg)
  {
    hide Ecc;
    EccIsLargestDistance(g, s, d);
    MaxEccCovers(g, |g|, s);
    MulMonotone(d + 1, HopDiameter(g) + 2, cfg.floodRepeats);
    assert (d + 1) * cfg.floodRepeats == d * cfg.floodRepeats + cfg.floodRepeats;
  }

  /** A round does not end before a node that will be in the flood has flooded, if its limit allows that. */
  lemma EndsAfter(env: FloodEnv, limit: nat, e: nat, v: nat)
    requires ValidEnv(env) && v < |env.g| && EntersAt(env, e, v) == Some(e) && e + env.repeats <= limit
    ensures var len := RoundLength(env, limit, 0);
      EntersAt(env, len, v) == Some(e) && e + env.repeats <= len
  {
    hide Wave, EntersAt;
    var len := RoundLength(env, limit, 0);
    if len < e + env.repeats {
      var k := e + env.repeats - 1;
      EntersOnce(env, e, k, v);
      WaveExactly(env, k, v);
      QuietForever(env, len, k, v);
    } else {
      EntersOnce(env, e, len, v);
    }
  }

  /** A run cannot go past this many rounds. */
  const MAX_ROUNDS: nat := 1_000_001

  /**
    A pipeline run takes `k` rounds: the first number of rounds after which the
    protocol stops, the slot budget is used up, or the cap on rounds is reached.
    `stops(q)` says whether the protocol asks to stop after `q` rounds.
   */
  ghost predicate RunTakes(c: PipeConfig, stops: nat -> bool, k: nat)
    requires ValidPipe(c)
  {
    && (forall q: nat :: q < k ==> GoesOn(c, stops, q))
    && !GoesOn(c, stops, k)
  }

  ghost predicate GoesOn(c: PipeConfig, stops: nat -> bool, q: nat)
    requires ValidPipe(c)
  {
    !stops(q) && q < MAX_ROUNDS && RoundStart(c, q) < c.maxSlots
  }

  /** The rows of the slots of round `r`, when the nodes report `progress`. */
  ghost function FloodRows(c: PipeConfig, r: nat, progress: seq<nat>): seq<Snapshot>
    requires ValidPipe(c)
  {
    var env := FloodAt(c, r, RoundStart(c, r));
    RoundRows(env, progress, RoundLength(env, SlotLimit(c.g, c.ci), 0))
  }

  /** One row for every slot of the first `r` rounds; in round `q` all nodes report `progress(q)`. */
  ghost function History(c: PipeConfig, progress: nat -> nat, r: nat): seq<Snapshot>
    requires ValidPipe(c)
  {
    if r == 0 then []
    else History(c, progress, r - 1) + FloodRows(c, r - 1, Everyone(|c.g|, progress(r - 1)))
  }

  /** Row `row` shows the `q`-th slot of round `r`, and the progress `progress(r)`. */
  ghost predicate Shows(c: PipeConfig, progress: nat -> nat, r: nat, q: nat, row: Snapshot)
    requires ValidPipe(c)
  {
    var env := FloodAt(c, r, RoundStart(c, r));
    && row.slot == env.start + q && row.flooding == |Flooding(env, q)| && row.listening == |Waiting(env, q)|
    && row.sleeping == |Resting(env, q)| && row.goalReached == progress(r)
  }

  lemma RowsShow(c: PipeConfig, progress: nat -> nat, r: nat)
    requires ValidPipe(c)
    ensures var rows := FloodRows(c, r, Everyone(|c.g|, progress(r)));
      && |rows| == RoundStart(c, r + 1) - RoundStart(c, r)
      && forall q: nat :: q < |rows| ==> Shows(c, progress, r, q, rows[q])
  {
    hide RoundRows, Flooding, Waiting, Resting, RoundLength, SlotLimit;
    var env, all := FloodAt(c, r, RoundStart(c, r)), Everyone(|c.g|, progress(r));
    var k := RoundLength(env, SlotLimit(c.g, c.ci), 0);
    RowsCounted(env, all, k);
    forall q: nat | q < k ensures Shows(c, progress, r, q, RoundRows(env, all, k)[q]) {
      RowOfSlot(env, all, k, q);
    }
  }

  /** Every slot of a run has the row of its round, and the progress that the rounds before have led to. */
  lemma {:induction false} HistoryIs(c: PipeConfig, progress: nat -> nat, k: nat, r: nat, q: nat)
    requires ValidPipe(c) && r < k && q < RoundStart(c, r + 1) - RoundStart(c, r)
    ensures |History(c, progress, k)| == RoundStart(c, k) && RoundStart(c, r) + q < RoundStart(c, k)
    ensures Shows(c, progress, r, q, History(c, progress, k)[RoundStart(c, r) + q])
  {
    hide FloodRows, RoundStart, Shows;
    HistoryLength(c, progress, k - 1);
    RowsShow(c, progress, k - 1);
    if r < k - 1 {
      HistoryIs(c, progress, k - 1, r, q);
    }
  }

  lemma {:induction false} HistoryLength(c: PipeConfig, progress: nat -> nat, k: nat)
    requires ValidPipe(c)
    ensures |History(c, progress, k)| == RoundStart(c, k)
  {
    hide FloodRows, RoundStart, Shows;
    if k > 0 {
      HistoryLength(c, progress, k - 1);
      RowsShow(c, progress, k - 1);
    } else {
      StartsAtZero(c);
    }
  }

  lemma StartsAtZero(c: PipeConfig)
    requires ValidPipe(c)
    ensures RoundStart(c, 0) == 0
  {
  }

  function Least(a: nat, b: nat): nat {
    if a < b then a else b
  }

  /** No run takes more than a million and one rounds, and one that takes fewer was stopped or is out of slots. */
  lemma RunIsCapped(c: PipeConfig, stops: nat -> bool, k: nat)
    requires ValidPipe(c) && RunTakes(c, stops, k)
    ensures k <= 1_000_001
    ensures k < 1_000_001 ==> stops(k) || RoundStart(c, k) >= c.maxSlots
    ensures forall q: nat :: q < k ==> !stops(q) && RoundStart(c, q) < c.maxSlots
  {
    hide RoundStart;
    assert k > 0 ==> GoesOn(c, stops, k - 1);
  }

  lemma RunLengthUnique(c: PipeConfig, stops: nat -> bool, a: nat, b: nat)
    requires ValidPipe(c) && RunTakes(c, stops, a) && RunTakes(c, stops, b)
    ensures a == b
  {
    hide GoesOn;
  }

  // ---------------------------------------------------------------- the interval decides nothing

  /** A configuration but for its snapshot interval. */
  function Course(c: PipeConfig): (d: PipeConfig)
    ensures ValidPipe(c) ==> ValidPipe(d)
  {
    c.(interval := 1)
  }

  lemma SameFlood(c: PipeConfig, r: nat, start: nat)
    requires ValidPipe(c)
    ensures FloodAt(Course(c), r, start) == FloodAt(c, r, start)
  {
  }

  lemma {:induction false} SameStart(c: PipeConfig, r: nat)
    requires ValidPipe(c)
    ensures RoundStart(Course(c), r) == RoundStart(c, r)
  {
    hide FloodAt, RoundLength, SlotLimit;
    if r > 0 {
      SameStart(c, r - 1);
      SameFlood(c, r - 1, RoundStart(c, r - 1));
    }
  }

  /** When rounds start, who takes part in them and what their rows are does not depend on the snapshot interval. */
  lemma SameRounds(c: PipeConfig, r: nat, progress: seq<nat>)
    requires ValidPipe(c)
    ensures RoundStart(Course(c), r) == RoundStart(c, r) && Takers(Course(c), r) == Takers(c, r)
    ensures FloodRows(Course(c), r, progress) == FloodRows(c, r, progress)
  {
    hide RoundStart, FloodAt, RoundLength, SlotLimit, Wave, RoundRows;
    SameStart(c, r);
    SameFlood(c, r, RoundStart(c, r));
    assert FinalWave(Course(c), r) == FinalWave(c, r);
  }

  lemma {:induction false} SameHistory(c: PipeConfig, progress: nat -> nat, r: nat)
    requires ValidPipe(c)
    ensures History(Course(c), progress, r) == History(c, progress, r)
  {
    hide FloodRows, RoundStart, Takers, Everyone;
    if r > 0 {
      SameHistory(c, progress, r - 1);
      SameRounds(c, r - 1, Everyone(|c.g|, progress(r - 1)));
    }
  }

  lemma SameLength(c: PipeConfig, stops: nat -> bool, k: nat)
    requires ValidPipe(c)
    ensures RunTakes(Course(c), stops, k) <==> RunTakes(c, stops, k)
  {
    hide RoundStart;
    forall q: nat ensures GoesOn(Course(c), stops, q) <==> GoesOn(c, stops, q) {
      SameStart(c, q);
    }
    hide GoesOn;
  }

  // ---------------------------------------------------------------- accounting of one round

  lemma {:induction false} FloodRowsNumbered(env: FloodEnv, progress: seq<nat>, k: nat)
    ensures var rows := RoundRows(env, progress, k);
      |rows| == k && forall j :: 0 <= j < k ==> rows[j].slot == env.start + j
  {
    hide WaveStates;
    if k > 0 {
      FloodRowsNumbered(env, progress, k - 1);
    }
  }

  /** Column by column, a flood adds as much to the rows as to the meters. */
  lemma {:induction false} FloodBalances(env: FloodEnv, progress: seq<nat>, meters: seq<Energy>, k: nat, s: NodeState)
    requires |meters| == |env.g|
    ensures Total(MetersAt(env, meters, k), s) == Total(meters, s) + ColumnTotal(RoundRows(env, progress, k), s)
  {
    hide MetersAt, WaveStates;
    if k > 0 {
      FloodBalances(env, progress, meters, k - 1, s);
      MetersAdvance(env, meters, k - 1);
      ChargedTotal(MetersAt(env, meters, k - 1), WaveStates(env, k - 1), s);
      ColumnSnoc(RoundRows(env, progress, k - 1), Row(env.start + k - 1, WaveStates(env, k - 1), progress), s);
    } else {
      MetersAdvance(env, meters, 0);
    }
  }

  /** A node is charged once per slot. */
  lemma {:induction false} SlotsAddUp(env: FloodEnv, v: nat, k: nat)
    requires v < |env.g|
    ensures SlotsIn(env, v, k, Listen) + SlotsIn(env, v, k, Flood) + SlotsIn(env, v, k, Sleep) == k
  {
    hide Wave;
    if k > 0 {
      SlotsAddUp(env, v, k - 1);
    }
  }

  function Charges(e: Energy): nat {
    e.listen + e.flood + e.sleep
  }

  /**
    The books at slot `slot`: every slot once in the history, sampled at the interval,
    balanced with the meters, and every node charged exactly once per slot.
   */
  ghost predicate Accounted(b: Books, interval: nat, slot: nat, meters: seq<Energy>) {
    && UpToDate(b, interval) && |b.history| == slot && Balanced(b.history, meters)
    && forall i :: 0 <= i < |meters| ==> Charges(meters[i]) == slot
  }

  /** A flood keeps the books. */
  lemma FloodKeepsBooks(env: FloodEnv, b: Books, interval: nat, meters: seq<Energy>, progress: seq<nat>, k: nat)
    requires interval >= 1 && |meters| == |env.g| && Accounted(b, interval, env.start, meters)
    ensures Accounted(Posted(b, RoundRows(env, progress, k), interval), interval, env.start + k,
                      MetersAt(env, meters, k))
    ensures Posted(b, RoundRows(env, progress, k), interval).history == b.history + RoundRows(env, progress, k)
  {
    hide RoundRows, UpToDate, Posted, SlotsIn;
    var rows := RoundRows(env, progress, k);
    FloodRowsNumbered(env, progress, k);
    PostedUpToDate(b, rows, interval);
    forall s: NodeState ensures ColumnTotal(b.history + rows, s) == Total(MetersAt(env, meters, k), s) {
      FloodBalances(env, progress, meters, k, s);
      ColumnConcat(b.history, rows, s);
    }
    forall i | 0 <= i < |meters| ensures Charges(MetersAt(env, meters, k)[i]) == env.start + k {
      SlotsAddUp(env, i, k);
    }
  }

  lemma {:induction false} ChargesAddUp(meters: seq<Energy>, slot: nat)
    requires forall i :: 0 <= i < |meters| ==> Charges(meters[i]) == slot
    ensures Total(meters, Listen) + Total(meters, Flood) + Total(meters, Sleep) == |meters| * slot
  {
    if meters != [] {
      var n := |meters| - 1;
      ChargesAddUp(meters[..n], slot);
      assert Charges(meters[n]) == Spent(meters[n], Listen) + Spent(meters[n], Flood) + Spent(meters[n], Sleep);
      OneMore(n, slot);
    }
  }

  lemma OneMore(n: nat, slot: nat)
    ensures (n + 1) * slot == n * slot + slot
  {
  }

  /**
    Sampled at every slot, a run has one snapshot per simulated slot, whose columns add
    up to the meters, and the meters to one charge per node and slot.
   */
  lemma PerSlotBooks(b: Books, slot: nat, meters: seq<Energy>)
    requires Accounted(b, 1, slot, meters)
    ensures |b.snapshots| == slot && forall i :: 0 <= i < slot ==> b.snapshots[i].slot == i
    ensures forall s: NodeState :: ColumnTotal(b.snapshots, s) == Total(meters, s)
    ensures Total(meters, Listen) + Total(meters, Flood) + Total(meters, Sleep) == |meters| * |b.snapshots|
  {
    EverySlotSampled(b);
    ChargesAddUp(meters, slot);
  }

  // ---------------------------------------------------------------- the runtime

  method MakeNodes<P>(n: nat, blank: P) returns (nodes: seq<Node<P>>)
    ensures |nodes| == n && Indexed(nodes) && fresh(nodes)
    ensures forall i :: 0 <= i < n ==>
      nodes[i].Meter() == Energy(0, 0, 0) && nodes[i].state == Listen && nodes[i].progressCount == 0
  {
    nodes := [];
    for i := 0 to n
      invariant |nodes| == i && Indexed(nodes) && fresh(nodes)
      invariant forall j :: 0 <= j < i ==>
        nodes[j].Meter() == Energy(0, 0, 0) && nodes[j].state == Listen && nodes[j].progressCount == 0
    {
      var node := new Node(i, blank);
      nodes := nodes + [node];
    }
  }

  class CiCore<P> {
    const config: PipeConfig
    const nodes: seq<Node<P>>
    const metrics: MetricsCollector
    var currentSlot: nat
    var nextSnapshot: nat
    var roundNum: nat

    constructor (config: PipeConfig, blank: P)
      requires ValidPipe(config)
      ensures this.config == config && fresh(nodes) && fresh(metrics)
      ensures Running() && roundNum == 0 && metrics.proposals == [] && metrics.history == []
      ensures Progress(nodes) == Everyone(|nodes|, 0)
    {
      this.config := config;
      var created := MakeNodes(|config.g|, blank);
      nodes := created;
      metrics := new MetricsCollector();
      currentSlot, nextSnapshot, roundNum := 0, 0, 0;
      new;
      ZeroMeters(Meters(nodes));
    }

    /** The nodes, the clock and the books agree. */
    ghost predicate Sound()
      reads this, nodes, metrics
    {
      && ValidPipe(config) && Indexed(nodes) && |nodes| == |config.g|
      && Accounted(metrics.BooksAt(nextSnapshot), config.interval, currentSlot, Meters(nodes))
    }

    /** Between rounds: round `roundNum` is about to start. */
    ghost predicate Running()
      reads this, nodes, metrics
    {
      Sound() && currentSlot == RoundStart(config, roundNum)
    }

    /** After the flood of round `roundNum`, before the round is counted. */
    ghost predicate Flooded()
      reads this, nodes, metrics
    {
      && Sound() && currentSlot == RoundStart(config, roundNum + 1)
      && forall i :: 0 <= i < |nodes| ==> nodes[i].state == FinalWave(config, roundNum)[i].state
    }

    lemma IsValid()
      requires Running() || Flooded()
      ensures ValidPipe(config) && |nodes| == |config.g|
    {
    }

    function Initiator(): (i: nat)
      requires ValidPipe(config)
      reads this
      ensures i < |config.g|
    {
      roundNum % |config.g|
    }

    predicate Participated(id: nat)
      requires ValidPipe(config) && id < |nodes|
      reads this, nodes
    {
      id == Initiator() || nodes[id].state == Sleep
    }

    /** Hand the initiator's radio the payload to flood. */
    method Load(payload: P)
      requires Running()
      modifies nodes`payload
      ensures Running() && nodes[Initiator()].payload == payload && Progress(nodes) == old(Progress(nodes))
    {
      hide Accounted;
      nodes[Initiator()].payload := payload;
      assert Meters(nodes) == old(Meters(nodes));
    }

    /** Who took part in the round, and what everybody holds. */
    method Inbox() returns (took: seq<bool>, payloads: seq<P>)
      requires Sound()
      ensures |took| == |payloads| == |nodes|
      ensures forall i :: 0 <= i < |took| ==> took[i] == Participated(i) && payloads[i] == nodes[i].payload
    {
      took, payloads := [], [];
      for k := 0 to |nodes|
        invariant |took| == |payloads| == k
        invariant forall i :: 0 <= i < k ==> took[i] == Participated(i) && payloads[i] == nodes[i].payload
      {
        took := took + [Participated(k)];
        payloads := payloads + [nodes[k].payload];
      }
    }

    /** One flood: the states of the wave, the payloads delivered, and the rows of its slots. */
    method FloodSlots()
      requires Running()
      modifies this`currentSlot, this`nextSnapshot, nodes, metrics`snapshots, metrics`history
      ensures Flooded() && roundNum == old(roundNum)
      ensures forall i :: 0 <= i < |nodes| ==>
        Holding(nodes[i]) == Delivery(i, roundNum % |config.g|, nodes[i].state, old(Holding(nodes[i])),
                                      old(nodes[roundNum % |config.g|].payload))
      ensures metrics.history == old(metrics.history) + FloodRows(config, roundNum, old(Progress(nodes)))
    {
      hide RoundLength, Wave, Posted, RoundRows, MetersAt, Accounted, SlotLimit, Delivery, ValidGraph;
      ghost var env := FloodAt(config, roundNum, currentSlot);
      ghost var k := RoundLength(env, SlotLimit(config.g, config.ci), 0);
      ghost var held := Holdings(nodes);
      assert ProgressOf(held) == Progress(nodes) by {
        assert forall i :: 0 <= i < |nodes| ==> held[i] == Holding(nodes[i]);
      }
      FloodKeepsBooks(env, metrics.BooksAt(nextSnapshot), config.interval, Meters(nodes), ProgressOf(held), k);
      currentSlot, nextSnapshot :=
        FloodIdenticalRound(FloodAt(config, roundNum, currentSlot), nodes, config.ci, metrics, nextSnapshot,
                            config.interval);
      forall i | 0 <= i < |nodes|
        ensures nodes[i].state == FinalWave(config, roundNum)[i].state
        ensures Holding(nodes[i]) == Delivery(i, env.initiator, nodes[i].state, held[i], held[env.initiator].payload)
      {
        assert Radios(nodes)[i] == Wave(env, k)[i];
        assert Holdings(nodes)[i] == Holding(nodes[i]);
      }
    }

    /** One flood of the initiator's payload: everybody who takes part ends up with it, every slot gets its row. */
    method FloodIdentical()
      requires Running()
      modifies this`currentSlot, this`nextSnapshot, nodes, metrics`snapshots, metrics`history
      ensures Flooded() && roundNum == old(roundNum)
      ensures forall i :: 0 <= i < |nodes| ==> (Participated(i) <==> i in Takers(config, roundNum))
      ensures forall i :: 0 <= i < |nodes| && Participated(i) ==>
        nodes[i].payload == old(nodes[roundNum % |config.g|].payload)
      ensures forall i :: 0 <= i < |nodes| && !Participated(i) ==> nodes[i].payload == old(nodes[i].payload)
      ensures Progress(nodes) == old(Progress(nodes))
      ensures metrics.history == old(metrics.history) + FloodRows(config, roundNum, old(Progress(nodes)))
    {
      hide Accounted, RoundStart, FloodRows, FinalWave;
      FloodSlots();
    }

    /** After `k` rounds: every slot has its row, and all nodes report `progress(k)`. */
    ghost predicate Reporting(progress: nat -> nat, k: nat)
      reads this, nodes, metrics
    {
      && ValidPipe(config) && metrics.history == History(config, progress, k)
      && Progress(nodes) == Everyone(|config.g|, progress(k))
    }

    /** At the end of a run of `k` rounds: it stopped when it had to, and every slot has got its row. */
    ghost predicate Finished(stops: nat -> bool, progress: nat -> nat, k: nat)
      reads this, nodes, metrics
    {
      && Sound() && currentSlot == RoundStart(config, k)
      && RunTakes(config, stops, k) && metrics.history == History(config, progress, k)
    }
  }

  /**
    Two runs of a protocol that differ in nothing but the interval, one sampling every
    slot: they take the same rounds and slots and charge the same to each radio state,
    and the coarser snapshots are exactly the others at the multiples of its interval.
   */
  lemma SampledRun<P>(full: CiCore<P>, coarse: CiCore<P>, stops: nat -> bool, progress: nat -> nat, a: nat, b: nat)
    requires full.Finished(stops, progress, a) && coarse.Finished(stops, progress, b)
    requires full.config == coarse.config.(interval := 1)
    ensures a == b && full.currentSlot == coarse.currentSlot
    ensures forall s: NodeState :: Total(Meters(full.nodes), s) == Total(Meters(coarse.nodes), s)
    ensures SampledEvery(full.metrics.snapshots, coarse.metrics.snapshots, coarse.config.interval)
  {
    hide RoundStart, History, RunTakes, ColumnTotal, Total, Meters, SampledEvery, UpToDate, Charges;
    var c := coarse.config;
    SameLength(c, stops, a);
    RunLengthUnique(c, stops, a, b);
    SameStart(c, a);
    SameHistory(c, progress, a);
    SampledRows(full.metrics.BooksAt(full.nextSnapshot), coarse.metrics.BooksAt(coarse.nextSnapshot), c.interval);
  }
}
