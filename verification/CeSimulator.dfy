/** The sequential capture-effect run: one round per proposal, and the books of the whole run. */
module CeSimulator {
  import opened Bitmaps
  import opened Network
  import opened Nodes
  import opened Metrics
  import opened CeProtocols
  import opened CeRun
  import opened CeEngine
  import CeProgress
  import CeTwoPc

  datatype CeConfig = CeConfig(
    g: Graph,
    protocol: Protocol,
    listenTimeout: nat,
    maxRoundSlots: nat,
    numProposals: nat,
    interval: nat,
    maxSlots: nat,
    coin: (nat, nat) -> bool,
    draw: (nat, nat, nat) -> nat,
    lost: (nat, nat, nat) -> bool)

  predicate ValidConfig(c: CeConfig) {
    ValidGraph(c.g) && |c.g| >= 1 && c.interval >= 1 && c.protocol.currentTerm == 0
  }

  // ---------------------------------------------------------------- the run as a function

  /** The protocol during proposal `id`: term `id + 1`. */
  function ProtocolAt(c: CeConfig, id: nat): Protocol {
    match c.protocol
    case TwoPcCE(_, _, no) => TwoPcCE(|c.g|, id + 1, no)
    case PaxosCE(_, _) => PaxosCE(|c.g|, id + 1)
    case TomCE(_, _) => TomCE(|c.g|, id + 1)
  }

  /** The round of proposal `id` when it starts at `start`. */
  function EnvAt(c: CeConfig, id: nat, start: nat): (env: CeEnv)
    requires ValidConfig(c)
    ensures ValidEnv(env)
  {
    var p := ProtocolAt(c, id);
    var initiator := id % |c.g|;
    CeEnv(c.g, initiator, start, c.listenTimeout, c.maxRoundSlots, p, FreshPayloads(p, initiator),
          NoBits(|c.g|), c.coin, c.draw, c.lost)
  }

  /** The slot at which proposal `id` starts: rounds are skipped once the slot budget is used up. */
  ghost function StartOf(c: CeConfig, id: nat): nat
    requires ValidConfig(c)
  {
    if id == 0 then 0
    else
      var start := StartOf(c, id - 1);
      if start >= c.maxSlots then start else start + TickedSlots(EnvAt(c, id - 1, start))
  }

  ghost function OutcomeOf(c: CeConfig, id: nat): ProposalOutcome
    requires ValidConfig(c)
  {
    var start := StartOf(c, id);
    if start >= c.maxSlots then TimedOut
    else
      var env := EnvAt(c, id, start);
      Outcome(env.proto, PayloadsAt(env, Steps(env, 0)))
  }

  ghost function RecordOf(c: CeConfig, id: nat): ProposalRecord
    requires ValidConfig(c)
  {
    Record(id, StartOf(c, id), StartOf(c, id + 1), OutcomeOf(c, id))
  }

  ghost function Records(c: CeConfig, k: nat): (rs: seq<ProposalRecord>)
    requires ValidConfig(c)
    ensures |rs| == k
  {
    if k == 0 then [] else Records(c, k - 1) + [RecordOf(c, k - 1)]
  }

  /** What every node reports as its progress when proposal `k` starts: one more than the last one decided. */
  ghost function ProgressBefore(c: CeConfig, k: nat): nat
    requires ValidConfig(c)
  {
    if k == 0 then 0
    else if OutcomeOf(c, k - 1) != TimedOut then k
    else ProgressBefore(c, k - 1)
  }

  /** The rows of the slots that proposal `id` takes. */
  ghost function RowsOf(c: CeConfig, id: nat): seq<Snapshot>
    requires ValidConfig(c)
  {
    var start := StartOf(c, id);
    if start >= c.maxSlots then []
    else
      var env := EnvAt(c, id, start);
      RoundRows(env, Everyone(|c.g|, ProgressBefore(c, id)), TickedSlots(env))
  }

  /** One row for every slot of the first `k` proposals. */
  ghost function HistoryOf(c: CeConfig, k: nat): seq<Snapshot>
    requires ValidConfig(c)
  {
    if k == 0 then [] else HistoryOf(c, k - 1) + RowsOf(c, k - 1)
  }

  // ---------------------------------------------------------------- the interval decides nothing

  lemma SameRound(c: CeConfig, interval: nat, id: nat, start: nat)
    requires ValidConfig(c) && interval >= 1
    ensures ValidConfig(c.(interval := interval))
    ensures EnvAt(c.(interval := interval), id, start) == EnvAt(c, id, start)
  {
  }

  lemma NextProposal(c: CeConfig, id: nat)
    requires ValidConfig(c)
    ensures StartOf(c, 0) == 0
    ensures StartOf(c, id + 1)
         == var start := StartOf(c, id); if start >= c.maxSlots then start else start + TickedSlots(EnvAt(c, id, start))
    ensures OutcomeOf(c, id)
         == var start := StartOf(c, id);
            if start >= c.maxSlots then TimedOut
            else var env := EnvAt(c, id, start); Outcome(env.proto, PayloadsAt(env, Steps(env, 0)))
    ensures ProgressBefore(c, 0) == 0
    ensures ProgressBefore(c, id + 1) == if OutcomeOf(c, id) != TimedOut then id + 1 else ProgressBefore(c, id)
  {
    hide EnvAt, TickedSlots, Outcome, PayloadsAt, Steps, ValidConfig;
  }

  lemma {:induction false} SameWindow(c: CeConfig, interval: nat, k: nat)
    requires ValidConfig(c) && interval >= 1
    ensures ValidConfig(c.(interval := interval)) && StartOf(c.(interval := interval), k) == StartOf(c, k)
    ensures OutcomeOf(c.(interval := interval), k) == OutcomeOf(c, k)
  {
    hide EnvAt, TickedSlots, Outcome, PayloadsAt, Steps, ValidConfig, StartOf, OutcomeOf, ProgressBefore;
    var d := c.(interval := interval);
    SameRound(c, interval, 0, 0);
    NextProposal(c, 0);
    NextProposal(d, 0);
    if k > 0 {
      SameWindow(c, interval, k - 1);
      SameRound(c, interval, k - 1, StartOf(c, k - 1));
      NextProposal(c, k - 1);
      NextProposal(d, k - 1);
    }
    SameRound(c, interval, k, StartOf(c, k));
    NextProposal(c, k);
    NextProposal(d, k);
  }

  lemma {:induction false} SameProgress(c: CeConfig, interval: nat, k: nat)
    requires ValidConfig(c) && interval >= 1
    ensures ValidConfig(c.(interval := interval)) && ProgressBefore(c.(interval := interval), k) == ProgressBefore(c, k)
  {
    hide EnvAt, TickedSlots, Outcome, PayloadsAt, Steps, ValidConfig, StartOf, OutcomeOf, ProgressBefore;
    var d := c.(interval := interval);
    SameRound(c, interval, 0, 0);
    NextProposal(c, 0);
    NextProposal(d, 0);
    if k > 0 {
      SameProgress(c, interval, k - 1);
      SameWindow(c, interval, k - 1);
      NextProposal(c, k - 1);
      NextProposal(d, k - 1);
    }
  }

  lemma SameRows(c: CeConfig, interval: nat, id: nat)
    requires ValidConfig(c) && interval >= 1
    ensures ValidConfig(c.(interval := interval)) && RowsOf(c.(interval := interval), id) == RowsOf(c, id)
  {
    hide EnvAt, TickedSlots, RoundRows, StartOf, OutcomeOf, ProgressBefore, Everyone;
    SameWindow(c, interval, id);
    SameProgress(c, interval, id);
    SameRound(c, interval, id, StartOf(c, id));
  }

  /** The snapshot interval has no part in the run: every slot gets the same row whatever it is. */
  lemma {:induction false} SameHistory(c: CeConfig, interval: nat, k: nat)
    requires ValidConfig(c) && interval >= 1
    ensures ValidConfig(c.(interval := interval)) && HistoryOf(c.(interval := interval), k) == HistoryOf(c, k)
  {
    hide RowsOf;
    if k > 0 {
      SameHistory(c, interval, k - 1);
      SameRows(c, interval, k - 1);
    }
  }

  lemma {:induction false} SameRecords(c: CeConfig, interval: nat, k: nat)
    requires ValidConfig(c) && interval >= 1
    ensures ValidConfig(c.(interval := interval)) && Records(c.(interval := interval), k) == Records(c, k)
  {
    hide StartOf, OutcomeOf, ValidConfig;
    if k > 0 {
      SameRecords(c, interval, k - 1);
      SameWindow(c, interval, k - 1);
    }
    SameWindow(c, interval, k);
  }

  // ---------------------------------------------------------------- accounting of one round

  lemma {:induction false} RowsNumbered(env: CeEnv, progress: seq<nat>, k: nat)
    requires ValidEnv(env)
    ensures var rows := RoundRows(env, progress, k);
      |rows| == k && forall j :: 0 <= j < k ==> rows[j].slot == env.start + j
  {
    if k > 0 {
      RowsNumbered(env, progress, k - 1);
    }
  }

  /** Rows and meters charge the same: column by column, a round adds as much to one as to the other. */
  lemma {:induction false} RoundBalances(env: CeEnv, progress: seq<nat>, meters: seq<Energy>, k: nat, s: NodeState)
    requires ValidEnv(env) && |meters| == |env.g|
    ensures Total(MetersAt(env, meters, k), s) == Total(meters, s) + ColumnTotal(RoundRows(env, progress, k), s)
  {
    hide Round;
    if k > 0 {
      RoundBalances(env, progress, meters, k - 1, s);
      ChargedTotal(MetersAt(env, meters, k - 1), StatesOf(Round(env, k - 1)), s);
      ColumnSnoc(RoundRows(env, progress, k - 1), Row(env.start + k - 1, StatesOf(Round(env, k - 1)), progress), s);
    }
  }

  /** In a row nobody sleeps: all N nodes are awake. */
  predicate AllAwake(row: Snapshot, n: nat) {
    row.sleeping == 0 && row.listening + row.flooding == n
  }

  lemma {:induction false} RoundAwake(env: CeEnv, progress: seq<nat>, k: nat)
    requires ValidEnv(env) && k <= TickedSlots(env)
    ensures forall j :: 0 <= j < |RoundRows(env, progress, k)| ==> AllAwake(RoundRows(env, progress, k)[j], |env.g|)
  {
    hide Round, Count;
    if k > 0 {
      RoundAwake(env, progress, k - 1);
      CeProgress.NobodySleeps(env, k - 1);
      var states := StatesOf(Round(env, k - 1));
      CountAll(states);
      CountNone(states, Sleep);
    }
  }

  // ---------------------------------------------------------------- what holds over a whole run

  /** The books after any number of rounds, at slot `slot`. */
  ghost predicate SoundBooks(b: Books, interval: nat, slot: nat, meters: seq<Energy>, n: nat) {
    && UpToDate(b, interval)
    && |b.history| == slot
    && Balanced(b.history, meters)
    && forall s :: 0 <= s < slot ==> AllAwake(b.history[s], n)
  }

  /** A round keeps the books sound. */
  lemma RoundKeepsBooks(env: CeEnv, b: Books, interval: nat, meters: seq<Energy>, progress: seq<nat>)
    requires ValidEnv(env) && interval >= 1 && |meters| == |env.g|
    requires SoundBooks(b, interval, env.start, meters, |env.g|)
    ensures var k := TickedSlots(env);
      SoundBooks(Posted(b, RoundRows(env, progress, k), interval), interval, env.start + k,
            MetersAt(env, meters, k), |env.g|)
    ensures var rows := RoundRows(env, progress, TickedSlots(env));
      Posted(b, rows, interval).history == b.history + rows
  {
    hide RoundRows, MetersAt, UpToDate, Posted, ColumnTotal, Total, TickedSlots, ValidEnv;
    var k := TickedSlots(env);
    var rows := RoundRows(env, progress, k);
    RowsNumbered(env, progress, k);
    PostedUpToDate(b, rows, interval);
    RoundAwake(env, progress, k);
    forall s: NodeState ensures ColumnTotal(b.history + rows, s) == Total(MetersAt(env, meters, k), s) {
      RoundBalances(env, progress, meters, k, s);
      ColumnConcat(b.history, rows, s);
    }
  }

  lemma {:induction false} AwakeTotal(rows: seq<Snapshot>, n: nat)
    requires forall j :: 0 <= j < |rows| ==> AllAwake(rows[j], n)
    ensures ColumnTotal(rows, Sleep) == 0
    ensures ColumnTotal(rows, Listen) + ColumnTotal(rows, Flood) == n * |rows|
  {
    if rows != [] {
      AwakeTotal(rows[..|rows| - 1], n);
      assert n * |rows| == n * (|rows| - 1) + n;
    }
  }

  /** With sound books nobody has slept, and every slot has cost one awake slot per node. */
  lemma SoundTotals(b: Books, interval: nat, slot: nat, meters: seq<Energy>, n: nat)
    requires SoundBooks(b, interval, slot, meters, n)
    ensures Total(meters, Sleep) == 0
    ensures Total(meters, Listen) + Total(meters, Flood) == n * slot
  {
    AwakeTotal(b.history, n);
  }

  lemma {:induction false} RecordsAre(c: CeConfig, k: nat, i: nat)
    requires ValidConfig(c) && i < k
    ensures Records(c, k)[i] == RecordOf(c, i)
  {
    hide RecordOf;
    if i < k - 1 {
      RecordsAre(c, k - 1, i);
    }
  }

  /** Proposal windows tile time: the first starts at slot 0, each of the others where the one before ended. */
  lemma WindowsTile(c: CeConfig, k: nat, i: nat)
    requires ValidConfig(c) && i < k
    ensures i == 0 ==> Records(c, k)[i].startSlot == 0
    ensures i > 0 ==> Records(c, k)[i].startSlot == Records(c, k)[i - 1].endSlot
    ensures Records(c, k)[i].startSlot + Records(c, k)[i].latency == Records(c, k)[i].endSlot
  {
    RecordsAre(c, k, i);
    if i > 0 {
      RecordsAre(c, k, i - 1);
    }
    hide TickedSlots, Records, EnvAt, OutcomeOf;
  }

  /** Over a run of two-phase commit, a proposal recorded Committed was wanted by every node. */
  lemma CommittedWasUnanimous(c: CeConfig, id: nat, node: nat)
    requires ValidConfig(c) && c.protocol.TwoPcCE? && node < |c.g|
    requires OutcomeOf(c, id) == Committed
    ensures !c.protocol.votesNo(id + 1, node)
  {
    var env := EnvAt(c, id, StartOf(c, id));
    CeTwoPc.CommittedOutcome(env, Steps(env, 0));
    assert CeTwoPc.EveryoneYes(env.proto);
  }

  lemma SkippedRecord(c: CeConfig, id: nat)
    requires ValidConfig(c) && StartOf(c, id) >= c.maxSlots
    ensures StartOf(c, id + 1) == StartOf(c, id)
    ensures Records(c, id + 1) == Records(c, id) + [Record(id, StartOf(c, id), StartOf(c, id), TimedOut)]
    ensures HistoryOf(c, id + 1) == HistoryOf(c, id)
  {
  }

  /** What a proposal that gets its round adds to the records. */
  lemma RanRecord(c: CeConfig, id: nat, env: CeEnv)
    requires ValidConfig(c) && StartOf(c, id) < c.maxSlots && env == EnvAt(c, id, StartOf(c, id))
    ensures StartOf(c, id + 1) == StartOf(c, id) + TickedSlots(env)
    ensures Records(c, id + 1)
         == Records(c, id) + [Record(id, StartOf(c, id), StartOf(c, id) + TickedSlots(env),
                                     Outcome(env.proto, PayloadsAt(env, Steps(env, 0))))]
  {
    hide EnvAt, TickedSlots, Outcome, PayloadsAt, Steps, ValidConfig;
  }

  lemma RanHistory(c: CeConfig, id: nat, env: CeEnv)
    requires ValidConfig(c) && StartOf(c, id) < c.maxSlots && env == EnvAt(c, id, StartOf(c, id))
    ensures HistoryOf(c, id + 1)
         == HistoryOf(c, id) + RoundRows(env, Everyone(|c.g|, ProgressBefore(c, id)), TickedSlots(env))
    ensures ProgressBefore(c, id + 1)
         == if Outcome(env.proto, PayloadsAt(env, Steps(env, 0))) != TimedOut then id + 1 else ProgressBefore(c, id)
  {
    hide EnvAt, TickedSlots, Outcome, RoundRows, StartOf, PayloadsAt, Steps;
  }

  // ---------------------------------------------------------------- the simulator

  method MakeNodes(n: nat) returns (nodes: seq<Node<Payload>>)
    ensures |nodes| == n && Indexed(nodes) && fresh(nodes)
    ensures forall i :: 0 <= i < n ==> nodes[i].Meter() == Energy(0, 0, 0) && nodes[i].progressCount == 0
  {
    nodes := [];
    for i := 0 to n
      invariant |nodes| == i && Indexed(nodes) && fresh(nodes)
      invariant forall j :: 0 <= j < i ==> nodes[j].Meter() == Energy(0, 0, 0) && nodes[j].progressCount == 0
    {
      var node := new Node(i, Blank);
      nodes := nodes + [node];
    }
  }

  class Simulator {
    const config: CeConfig
    const nodes: seq<Node<Payload>>
    const metrics: MetricsCollector
    var currentSlot: nat
    var protocol: Protocol

    constructor (config: CeConfig)
      requires ValidConfig(config)
      ensures this.config == config && Pristine()
      ensures fresh(nodes) && fresh(metrics)
    {
      this.config := config;
      var created := MakeNodes(|config.g|);
      nodes := created;
      metrics := new MetricsCollector();
      currentSlot, protocol := 0, config.protocol;
    }

    /** A simulator that has not run yet. */
    ghost predicate Pristine()
      reads this, nodes, metrics
    {
      && ValidConfig(config) && Indexed(nodes) && |nodes| == |config.g|
      && currentSlot == 0 && protocol == config.protocol
      && metrics.proposals == [] && metrics.BooksAt(0) == Books([], [], 0)
      && forall i :: 0 <= i < |nodes| ==> nodes[i].Meter() == Energy(0, 0, 0) && nodes[i].progressCount == 0
    }

    /** A new proposal: the protocol moves to the next term and the initiator gets its opening packet. */
    method Propose(initiator: nat, ghost id: nat)
      requires ValidConfig(config) && Indexed(nodes) && |nodes| == |config.g| && initiator == id % |config.g|
      requires id > 0 ==> protocol == ProtocolAt(config, id - 1)
      requires id == 0 ==> protocol == config.protocol
      modifies this`protocol, nodes
      ensures protocol == ProtocolAt(config, id)
      ensures Payloads(nodes) == FreshPayloads(protocol, initiator)
      ensures forall i :: 0 <= i < |nodes| ==> !nodes[i].goalReached
      ensures Meters(nodes) == old(Meters(nodes)) && Progress(nodes) == old(Progress(nodes))
    {
      protocol := Proposed(protocol, |nodes|);
      for k := 0 to |nodes|
        invariant forall i :: 0 <= i < k ==> !nodes[i].goalReached && nodes[i].payload == Blank
        invariant forall i :: 0 <= i < |nodes| ==>
          nodes[i].Meter() == old(nodes[i].Meter()) && nodes[i].progressCount == old(nodes[i].progressCount)
        modifies nodes
      {
        nodes[k].goalReached := false;
        nodes[k].payload := Blank;
      }
      nodes[initiator].payload := Opening(protocol, initiator);
    }

    method MarkDone(done: nat)
      requires Indexed(nodes)
      modifies nodes
      ensures Meters(nodes) == old(Meters(nodes)) && Progress(nodes) == Everyone(|nodes|, done)
    {
      for k := 0 to |nodes|
        invariant forall i :: 0 <= i < |nodes| ==> nodes[i].Meter() == old(nodes[i].Meter())
        invariant forall i :: 0 <= i < k ==> nodes[i].progressCount == done
      {
        nodes[k].progressCount := done;
      }
    }

    /** The round of one proposal, recorded. */
    method RunProposal(id: nat, nextSnapshot: nat) returns (next: nat)
      requires ValidConfig(config) && Indexed(nodes) && |nodes| == |config.g|
      requires currentSlot == StartOf(config, id) && currentSlot < config.maxSlots
      requires id > 0 ==> protocol == ProtocolAt(config, id - 1)
      requires id == 0 ==> protocol == config.protocol
      requires metrics.proposals == Records(config, id)
      requires SoundBooks(metrics.BooksAt(nextSnapshot), config.interval, currentSlot, Meters(nodes), |nodes|)
      requires metrics.history == HistoryOf(config, id)
      requires Progress(nodes) == Everyone(|nodes|, ProgressBefore(config, id))
      modifies this`protocol, this`currentSlot, nodes, metrics
      ensures currentSlot == StartOf(config, id + 1) && protocol == ProtocolAt(config, id)
      ensures metrics.proposals == Records(config, id + 1)
      ensures metrics.history == HistoryOf(config, id + 1)
      ensures Progress(nodes) == Everyone(|nodes|, ProgressBefore(config, id + 1))
      ensures SoundBooks(metrics.BooksAt(next), config.interval, currentSlot, Meters(nodes), |nodes|)
    {
      hide SoundBooks, TickedSlots, Posted, RoundRows, MetersAt, Round, Outcome, FreshPayloads, CeNodes, Meters,
           Progress, StartOf, Records, PayloadsAt, Steps, HistoryOf, ProgressBefore, Everyone;
      var initiator := id % |nodes|;
      var roundStart := currentSlot;
      Propose(initiator, id);
      var env := CeEnv(config.g, initiator, roundStart, config.listenTimeout, config.maxRoundSlots, protocol,
                       FreshPayloads(protocol, initiator), NoBits(|nodes|), config.coin, config.draw, config.lost);
      assert env == EnvAt(config, id, roundStart);
      RanRecord(config, id, env);
      RanHistory(config, id, env);
      RoundKeepsBooks(env, metrics.BooksAt(nextSnapshot), config.interval, Meters(nodes), Progress(nodes));
      var goal;
      currentSlot, goal, next := RunCeRound(env, nodes, metrics, nextSnapshot, config.interval);
      var payloads := ReadPayloads(nodes);
      FinalPayloads(env, nodes);
      var outcome := Outcome(protocol, payloads);
      metrics.RecordProposal(id, roundStart, currentSlot, outcome);
      if outcome == Committed || outcome == Aborted {
        MarkDone(id + 1);
      }
    }

    lemma FinalPayloads(env: CeEnv, nodes: seq<Node<Payload>>)
      requires ValidEnv(env) && CeNodes(nodes) == Round(env, Steps(env, 0))
      ensures Payloads(nodes) == PayloadsAt(env, Steps(env, 0))
    {
      forall i | 0 <= i < |nodes| ensures Payloads(nodes)[i] == PayloadsAt(env, Steps(env, 0))[i] {
        assert NodeView(nodes[i]) == CeNodes(nodes)[i];
      }
    }

    /** Out of slots: the remaining proposals time out with empty windows. */
    method RecordRest(id: nat)
      requires ValidConfig(config) && id <= config.numProposals
      requires currentSlot == StartOf(config, id) && currentSlot >= config.maxSlots
      requires metrics.proposals == Records(config, id) && metrics.history == HistoryOf(config, id)
      modifies metrics`proposals
      ensures currentSlot == StartOf(config, config.numProposals)
      ensures metrics.proposals == Records(config, config.numProposals)
      ensures metrics.history == HistoryOf(config, config.numProposals)
    {
      hide StartOf, Records, EnvAt, TickedSlots, HistoryOf;
      for remaining := id to config.numProposals
        invariant currentSlot == StartOf(config, remaining) && metrics.proposals == Records(config, remaining)
        invariant metrics.history == HistoryOf(config, remaining)
        modifies metrics`proposals
      {
        SkippedRecord(config, remaining);
        metrics.RecordProposal(remaining, currentSlot, currentSlot, TimedOut);
      }
    }

    lemma PristineBooks()
      requires Pristine()
      ensures StartOf(config, 0) == 0 && Records(config, 0) == []
      ensures SoundBooks(metrics.BooksAt(0), config.interval, 0, Meters(nodes), |nodes|)
      ensures metrics.history == HistoryOf(config, 0)
      ensures Progress(nodes) == Everyone(|nodes|, ProgressBefore(config, 0))
    {
      ZeroMeters(Meters(nodes));
    }

    /**
      A simulator at the end of its run, the next snapshot due at `next`: the records and
      the row of every slot are the specified ones, the snapshots are those at the
      interval, all nodes are awake in every slot, and the meters say the same as the rows.
     */
    ghost predicate Finished(next: nat)
      reads this, nodes, metrics
    {
      && ValidConfig(config) && |nodes| == |config.g|
      && metrics.proposals == Records(config, config.numProposals)
      && metrics.history == HistoryOf(config, config.numProposals)
      && currentSlot == StartOf(config, config.numProposals)
      && SoundBooks(metrics.BooksAt(next), config.interval, currentSlot, Meters(nodes), |nodes|)
    }

    /**
      All proposals, one round each, until the slot budget is used up; the rest are
      recorded as timed out with empty windows.  Nobody ever sleeps, and every slot
      costs one awake slot per node.
     */
    method Run() returns (ghost next: nat)
      requires Pristine()
      modifies this`protocol, this`currentSlot, nodes, metrics
      ensures Finished(next)
      ensures Total(Meters(nodes), Sleep) == 0
      ensures Total(Meters(nodes), Listen) + Total(Meters(nodes), Flood) == |nodes| * currentSlot
    {
      hide SoundBooks, ProtocolAt, Meters, StartOf, Records, Balanced, HistoryOf, ProgressBefore, Everyone, Progress;
      var nextSnapshot := 0;
      PristineBooks();
      for id := 0 to config.numProposals
        invariant currentSlot == StartOf(config, id)
        invariant protocol == if id == 0 then config.protocol else ProtocolAt(config, id - 1)
        invariant metrics.proposals == Records(config, id)
        invariant SoundBooks(metrics.BooksAt(nextSnapshot), config.interval, currentSlot, Meters(nodes), |nodes|)
        invariant metrics.history == HistoryOf(config, id)
        invariant Progress(nodes) == Everyone(|nodes|, ProgressBefore(config, id))
      {
        if currentSlot >= config.maxSlots {
          RecordRest(id);
          break;
        }
        nextSnapshot := RunProposal(id, nextSnapshot);
      }
      SoundTotals(metrics.BooksAt(nextSnapshot), config.interval, currentSlot, Meters(nodes), |nodes|);
      next := nextSnapshot;
    }
  }

  /**
    Two simulators that differ in nothing but the interval, one sampling every slot: both
    make the same records in the same number of slots and charge the same to each radio
    state, and the coarser snapshots are exactly the others at the multiples of its interval.
   */
  lemma SampledRun(full: Simulator, fullNext: nat, coarse: Simulator, coarseNext: nat)
    requires full.Finished(fullNext) && coarse.Finished(coarseNext)
    requires full.config == coarse.config.(interval := 1)
    ensures full.metrics.proposals == coarse.metrics.proposals && full.currentSlot == coarse.currentSlot
    ensures forall s: NodeState :: Total(Meters(full.nodes), s) == Total(Meters(coarse.nodes), s)
    ensures SampledEvery(full.metrics.snapshots, coarse.metrics.snapshots, coarse.config.interval)
  {
    hide StartOf, Records, HistoryOf, ColumnTotal, Total, Meters, SampledEvery, UpToDate;
    var c := coarse.config;
    SameWindow(c, 1, c.numProposals);
    SameHistory(c, 1, c.numProposals);
    SameRecords(c, 1, c.numProposals);
    SampledRows(full.metrics.BooksAt(fullNext), coarse.metrics.BooksAt(coarseNext), c.interval);
  }
}
