/** Snapshot rows and proposal records. */
module Metrics {
  import opened Nodes

  datatype ProposalOutcome = Committed | Aborted | TimedOut

  datatype Snapshot = Snapshot(slot: nat, goalReached: nat, listening: nat, flooding: nat, sleeping: nat)

  datatype ProposalRecord =
    ProposalRecord(proposalId: nat, startSlot: nat, endSlot: nat, latency: nat, outcome: ProposalOutcome)

  function Record(id: nat, start: nat, end: nat, outcome: ProposalOutcome): ProposalRecord {
    ProposalRecord(id, start, end, if end >= start then end - start else 0, outcome)
  }

  function MaxOf(xs: seq<nat>): nat {
    if xs == [] then 0
    else
      var m := MaxOf(xs[..|xs| - 1]);
      if m < xs[|xs| - 1] then xs[|xs| - 1] else m
  }

  /** None is larger, and it is one of them. */
  lemma {:induction false} MaxIsLargest(xs: seq<nat>)
    ensures forall i :: 0 <= i < |xs| ==> xs[i] <= MaxOf(xs)
    ensures xs != [] ==> MaxOf(xs) in xs
  {
    if xs != [] {
      var n := |xs| - 1;
      MaxIsLargest(xs[..n]);
      assert forall i :: 0 <= i < n ==> xs[..n][i] == xs[i];
      if n > 0 && xs[n] <= MaxOf(xs[..n]) {
        assert MaxOf(xs[..n]) in xs[..n];
      }
    }
  }

  /** The progress of a row is the largest that a node reports; its node counts add up to the nodes. */
  lemma RowIs(slot: nat, states: seq<NodeState>, progress: seq<nat>)
    requires progress != []
    ensures var row := Row(slot, states, progress);
      && row.slot == slot && row.goalReached in progress && (forall p :: p in progress ==> p <= row.goalReached)
      && row.listening == |Those(states, Listen)| && row.flooding == |Those(states, Flood)|
      && row.sleeping == |Those(states, Sleep)|
  {
    MaxIsLargest(progress);
    CountIs(states, Listen);
    CountIs(states, Flood);
    CountIs(states, Sleep);
  }

  function Those(states: seq<NodeState>, s: NodeState): set<nat> {
    set i: nat | i < |states| && states[i] == s
  }

  lemma OneMore(states: seq<NodeState>, s: NodeState, n: nat)
    requires n + 1 == |states|
    ensures n !in Those(states[..n], s)
    ensures Those(states, s) == if states[n] == s then Those(states[..n], s) + {n} else Those(states[..n], s)
  {
    assert forall i :: 0 <= i < n ==> states[..n][i] == states[i];
  }

  lemma {:induction false} CountIs(states: seq<NodeState>, s: NodeState)
    ensures Count(states, s) == |Those(states, s)|
  {
    if states == [] {
      assert Those(states, s) == {};
    } else {
      hide Those;
      CountIs(states[..|states| - 1], s);
      OneMore(states, s, |states| - 1);
    }
  }

  /** The row of a network in these states: how many nodes listen, flood and sleep. */
  function Row(slot: nat, states: seq<NodeState>, progress: seq<nat>): Snapshot {
    Snapshot(slot, MaxOf(progress), Count(states, Listen), Count(states, Flood), Count(states, Sleep))
  }

  /** The same progress reported by `n` nodes. */
  function Everyone(n: nat, progress: nat): seq<nat> {
    seq(n, i => progress)
  }

  /** The node-count column of state `s`. */
  function Cell(row: Snapshot, s: NodeState): nat {
    match s
    case Listen => row.listening
    case Flood => row.flooding
    case Sleep => row.sleeping
  }

  function ColumnTotal(rows: seq<Snapshot>, s: NodeState): nat {
    if rows == [] then 0 else ColumnTotal(rows[..|rows| - 1], s) + Cell(rows[|rows| - 1], s)
  }

  /** The rows due by the slot of `row` when the next one is due at `next`, all taken of the same network. */
  function RowsDue(row: Snapshot, next: nat, interval: nat): seq<Snapshot>
    requires interval >= 1
    decreases row.slot + 1 - next
  {
    if row.slot < next then [] else [row.(slot := next)] + RowsDue(row, next + interval, interval)
  }

  function NextDue(next: nat, slot: nat, interval: nat): nat
    requires interval >= 1
    decreases slot + 1 - next
  {
    if slot < next then next else NextDue(next + interval, slot, interval)
  }

  /**
    The books of a run: one history row per ticked slot, the snapshot rows taken,
    and when the next snapshot is due.
   */
  datatype Books = Books(history: seq<Snapshot>, snapshots: seq<Snapshot>, next: nat)

  /** Ticking one more slot. */
  function Post(b: Books, row: Snapshot, interval: nat): Books
    requires interval >= 1
  {
    Books(b.history + [row], b.snapshots + RowsDue(row, b.next, interval), NextDue(b.next, row.slot, interval))
  }

  /** Ticking the slots of `rows` one after the other. */
  function Posted(b: Books, rows: seq<Snapshot>, interval: nat): Books
    requires interval >= 1
  {
    if rows == [] then b else Post(Posted(b, rows[..|rows| - 1], interval), rows[|rows| - 1], interval)
  }

  lemma PostedSnoc(b: Books, rows: seq<Snapshot>, row: Snapshot, interval: nat)
    requires interval >= 1
    ensures Posted(b, rows + [row], interval) == Post(Posted(b, rows, interval), row, interval)
  {
    assert (rows + [row])[..|rows|] == rows;
  }

  /**
    The history has one row for each of the slots `0 .. |history|`, the snapshots
    are its rows at the multiples of `interval`, and `next` is the first multiple
    not sampled yet.
   */
  ghost predicate UpToDate(b: Books, interval: nat) {
    && (forall s :: 0 <= s < |b.history| ==> b.history[s].slot == s)
    && b.next == |b.snapshots| * interval
    && |b.history| <= b.next < |b.history| + interval
    && (forall j :: 0 <= j < |b.snapshots| ==>
          0 <= j * interval < |b.history| && b.snapshots[j] == b.history[j * interval])
  }

  /** A slot ticked in order keeps the books up to date. */
  lemma PostUpToDate(b: Books, row: Snapshot, interval: nat)
    requires interval >= 1 && UpToDate(b, interval) && row.slot == |b.history|
    ensures UpToDate(Post(b, row, interval), interval)
  {
    if b.next == row.slot {
      assert RowsDue(row, b.next, interval) == [row];
      assert NextDue(b.next, row.slot, interval) == b.next + interval;
      assert (|b.snapshots| + 1) * interval == b.next + interval;
    } else {
      assert RowsDue(row, b.next, interval) == [];
      assert b.snapshots + [] == b.snapshots;
    }
  }

  lemma {:induction false} PostedUpToDate(b: Books, rows: seq<Snapshot>, interval: nat)
    requires interval >= 1 && UpToDate(b, interval)
    requires forall j :: 0 <= j < |rows| ==> rows[j].slot == |b.history| + j
    ensures UpToDate(Posted(b, rows, interval), interval)
    ensures Posted(b, rows, interval).history == b.history + rows
  {
    if rows != [] {
      var n := |rows| - 1;
      PostedUpToDate(b, rows[..n], interval);
      PostUpToDate(Posted(b, rows[..n], interval), rows[n], interval);
      assert b.history + rows[..n] + [rows[n]] == b.history + rows;
    }
  }

  /** At interval 1 the snapshots are the whole history: every slot once, in order. */
  lemma EverySlotSampled(b: Books)
    requires UpToDate(b, 1)
    ensures b.snapshots == b.history && b.next == |b.history|
  {
    forall j | 0 <= j < |b.snapshots| ensures b.snapshots[j] == b.history[j] {
      assert j * 1 == j;
    }
  }

  /** `coarse` consists of the rows of `full` at the multiples of `interval`, none missing. */
  ghost predicate SampledEvery(full: seq<Snapshot>, coarse: seq<Snapshot>, interval: nat) {
    && (forall j :: 0 <= j < |coarse| ==> 0 <= j * interval < |full| && coarse[j] == full[j * interval])
    && |coarse| * interval >= |full|
  }

  /** The same slots sampled at interval 1 and at a coarser one. */
  lemma SampledRows(full: Books, coarse: Books, interval: nat)
    requires interval >= 1 && UpToDate(full, 1) && UpToDate(coarse, interval) && full.history == coarse.history
    ensures SampledEvery(full.snapshots, coarse.snapshots, interval)
  {
    EverySlotSampled(full);
  }

  lemma ColumnSnoc(rows: seq<Snapshot>, row: Snapshot, s: NodeState)
    ensures ColumnTotal(rows + [row], s) == ColumnTotal(rows, s) + Cell(row, s)
  {
    assert (rows + [row])[..|rows|] == rows;
  }

  /** The rows of a history and the meters of the nodes charge the same to each radio state. */
  ghost predicate Balanced(history: seq<Snapshot>, meters: seq<Energy>) {
    forall s: NodeState :: ColumnTotal(history, s) == Total(meters, s)
  }

  lemma {:induction false} ColumnConcat(a: seq<Snapshot>, b: seq<Snapshot>, s: NodeState)
    ensures ColumnTotal(a + b, s) == ColumnTotal(a, s) + ColumnTotal(b, s)
  {
    if b == [] {
      assert a + b == a;
    } else {
      var n := |b| - 1;
      ColumnConcat(a, b[..n], s);
      assert (a + b)[..|a| + n] == a + b[..n];
    }
  }

  lemma {:induction false} ZeroMeters(meters: seq<Energy>)
    requires forall i :: 0 <= i < |meters| ==> meters[i] == Energy(0, 0, 0)
    ensures Balanced([], meters)
  {
    if meters != [] {
      ZeroMeters(meters[..|meters| - 1]);
    }
  }

  class MetricsCollector {
    var snapshots: seq<Snapshot>
    var proposals: seq<ProposalRecord>
    /** One row per slot ever ticked, whatever the snapshot interval. */
    ghost var history: seq<Snapshot>

    constructor ()
      ensures snapshots == [] && proposals == [] && history == []
    {
      snapshots, proposals, history := [], [], [];
    }

    ghost function BooksAt(next: nat): Books
      reads this
    {
      Books(history, snapshots, next)
    }

    method TakeSnapshot<P>(slot: nat, nodes: seq<Node<P>>)
      modifies this`snapshots
      ensures snapshots == old(snapshots) + [Row(slot, States(nodes), Progress(nodes))]
    {
      var row := Snapshot(slot, 0, 0, 0, 0);
      for k := 0 to |nodes|
        invariant row == Row(slot, States(nodes)[..k], Progress(nodes)[..k])
      {
        assert Progress(nodes)[..k + 1][..k] == Progress(nodes)[..k];
        assert States(nodes)[..k + 1][..k] == States(nodes)[..k];
        if row.goalReached < nodes[k].progressCount {
          row := row.(goalReached := nodes[k].progressCount);
        }
        match nodes[k].state
        case Listen => row := row.(listening := row.listening + 1);
        case Flood => row := row.(flooding := row.flooding + 1);
        case Sleep => row := row.(sleeping := row.sleeping + 1);
      }
      assert Progress(nodes)[..|nodes|] == Progress(nodes);
      assert States(nodes)[..|nodes|] == States(nodes);
      snapshots := snapshots + [row];
    }

    method RecordProposal(id: nat, start: nat, end: nat, outcome: ProposalOutcome)
      modifies this`proposals
      ensures proposals == old(proposals) + [Record(id, start, end, outcome)]
    {
      proposals := proposals + [ProposalRecord(id, start, end, if end >= start then end - start else 0, outcome)];
    }

    /** Start of a slot in both radio engines: tick every node, then take the rows that are due. */
    method ChargeSlot<P>(slot: nat, nodes: seq<Node<P>>, nextSnapshot: nat, interval: nat) returns (next: nat)
      requires interval >= 1 && Indexed(nodes)
      modifies this`snapshots, this`history, nodes
      ensures Meters(nodes) == Charged(old(Meters(nodes)), old(States(nodes)))
      ensures forall i :: 0 <= i < |nodes| ==> Untimed(nodes[i]) == old(Untimed(nodes[i]))
      ensures BooksAt(next) == Post(old(BooksAt(nextSnapshot)),
                                    Row(slot, old(States(nodes)), old(Progress(nodes))), interval)
    {
      ghost var row := Row(slot, States(nodes), Progress(nodes));
      ghost var states, progress := States(nodes), Progress(nodes);
      TickAll(nodes);
      assert States(nodes) == states && Progress(nodes) == progress by {
        assert forall i :: 0 <= i < |nodes| ==>
            nodes[i].state == Untimed(nodes[i]).state && nodes[i].progressCount == Untimed(nodes[i]).progress;
      }
      next := nextSnapshot;
      ghost var rows0 := snapshots;
      while next <= slot
        invariant snapshots + RowsDue(row, next, interval) == rows0 + RowsDue(row, nextSnapshot, interval)
        invariant NextDue(next, slot, interval) == NextDue(nextSnapshot, slot, interval)
        modifies this`snapshots
        decreases slot + 1 - next
      {
        TakeSnapshot(next, nodes);
        next := next + interval;
      }
      history := history + [row];
    }
  }
}
