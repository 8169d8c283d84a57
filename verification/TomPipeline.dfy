/**
  The multicast pipeline as the simulator runs it: node states and round hooks
  that update their fields in place, proved equal to the rounds of module TomRun.
 */
module TomPipeline {
  import opened Wrappers
  import opened Messages
  import opened Nodes
  import opened Metrics
  import opened Network
  import opened Ledger
  import opened CiPipeline
  import opened TomRun
  import TomSafety
  import TomProgress
  import TomStops

  class NodeTomState {
    var lastDelivered: Option<nat>
    var highestSeen: Option<nat>
    var store: map<nat, Data>
    var delivered: seq<(nat, Data)>

    constructor ()
      ensures View() == FRESH
    {
      lastDelivered, highestSeen, store, delivered := None, None, map[], [];
    }

    function View(): TomState
      reads this
    {
      TomState(lastDelivered, highestSeen, store, delivered)
    }

    method InsertMessage(t: nat, data: Data) returns (isNew: bool)
      modifies this`store, this`highestSeen
      ensures View() == Inserted(old(View()), t, data)
      ensures isNew <==> t !in old(store)
    {
      if t in store {
        return false;
      }
      store := store[t := data];
      if !(highestSeen.Some? && highestSeen.value >= t) {
        highestSeen := Some(t);
      }
      return true;
    }

    /** Deliver consecutive terms from the next expected one, counting them. */
    method TryDeliverInOrder() returns (count: nat)
      modifies this`delivered, this`lastDelivered
      ensures View() == Deliver(old(View()))
      ensures |delivered| == |old(delivered)| + count
    {
      count := 0;
      while NextExpected(View()) in store
        invariant Deliver(View()) == Deliver(old(View()))
        invariant |delivered| == |old(delivered)| + count && store == old(store)
        decreases Waiting(View())
      {
        FewerWaiting(View());
        ghost var st := View();
        var next := NextExpected(View());
        delivered := delivered + [(next, store[next])];
        lastDelivered := Some(next);
        assert View() == DeliverOne(st);
        count := count + 1;
      }
    }

    /** The first term missing from the store up to the highest seen. */
    method DetectGap() returns (gap: Option<nat>)
      ensures gap == Gap(View())
    {
      if highestSeen.None? {
        return None;
      }
      var t := NextExpected(View());
      while t <= highestSeen.value
        invariant Gap(View()) == FirstMissing(store, t, highestSeen.value)
      {
        if t !in store {
          return Some(t);
        }
        t := t + 1;
      }
      return None;
    }

    method GetMessage(t: nat) returns (data: Option<Data>)
      ensures data == if t in store then Some(store[t]) else None
    {
      data := if t in store then Some(store[t]) else None;
    }

    method NoteTerm(t: nat)
      modifies this`highestSeen
      ensures View() == old(View()).(highestSeen := Raised(old(highestSeen), t))
    {
      if !(highestSeen.Some? && highestSeen.value >= t) {
        highestSeen := Some(t);
      }
    }

    /** A participant stores what the packet carries. */
    method Receive(pkt: Packet)
      modifies this`store, this`highestSeen
      ensures View() == Stored(old(View()), pkt)
    {
      if pkt.hasMessage {
        var _ := InsertMessage(pkt.currentTerm, pkt.data);
      } else {
        NoteTerm(pkt.currentTerm);
      }
      if pkt.pbTerm.Some? && pkt.pbData != Empty {
        var _ := InsertMessage(pkt.pbTerm.value, pkt.pbData);
      }
    }
  }

  // ---------------------------------------------------------------- the protocol over the core

  type Core = CiCore<Option<Packet>>

  /** The run of a pipeline configuration as the plan of module TomRun. */
  ghost function PlanFor(course: PipeConfig, messages: nat): (c: Plan)
    requires ValidPipe(course)
    ensures ValidPlan(c)
  {
    Plan(|course.g|, messages, HopDiameter(course.g) * 10,
         r => Takers(course, r), r => RoundStart(course, r), r => RoundStart(course, r + 1))
  }

  /** ... in which the snapshot interval has no part. */
  ghost function PlanOf(config: PipeConfig, messages: nat): (c: Plan)
    requires ValidPipe(config)
    ensures ValidPlan(c)
  {
    PlanFor(Course(config), messages)
  }

  lemma PlanIs(config: PipeConfig, messages: nat, r: nat)
    requires ValidPipe(config)
    ensures var c := PlanOf(config, messages);
      && c.n == |config.g| && c.messages == messages && c.drain == HopDiameter(config.g) * 10
      && c.parts(r) == Takers(config, r)
      && c.preparedAt(r) == RoundStart(config, r) && c.processedAt(r) == RoundStart(config, r + 1)
  {
    hide Takers, RoundStart, FloodRows, HopDiameter;
    SameRounds(config, r, []);
    SameStart(config, r + 1);
  }

  /** Does the protocol ask to stop after `q` rounds? */
  ghost function Stops(c: Plan): nat -> bool
    requires c.n > 0
  {
    (q: nat) => After(c, q).stop
  }

  /** What every node reports as its progress in round `q`. */
  ghost function Informing(c: Plan): nat -> nat
    requires c.n > 0
  {
    (q: nat) => Informed(After(c, q).states)
  }

  ghost predicate Distinct(states: seq<NodeTomState>) {
    forall i, j :: 0 <= i < j < |states| ==> states[i] != states[j]
  }

  ghost function Views(states: seq<NodeTomState>): (vs: seq<TomState>)
    reads states
    ensures |vs| == |states|
  {
    seq(|states|, i requires 0 <= i < |states| reads states => states[i].View())
  }

  method MakeStates(n: nat) returns (states: seq<NodeTomState>)
    ensures |states| == n && Distinct(states) && fresh(states)
    ensures forall i :: 0 <= i < n ==> states[i].View() == FRESH
  {
    states := [];
    for k := 0 to n
      invariant |states| == k && Distinct(states) && fresh(states)
      invariant forall i :: 0 <= i < k ==> states[i].View() == FRESH
    {
      var state := new NodeTomState();
      states := states + [state];
    }
  }

  class TomCi {
    const numMessages: nat
    const states: seq<NodeTomState>
    var nextTerm: nat
    var published: nat
    var starts: map<nat, nat>
    var global: set<nat>
    var pbTerm: Option<nat>
    var pbData: Data
    var stop: bool

    constructor (n: nat, messages: nat)
      ensures numMessages == messages && |states| == n && Distinct(states)
      ensures fresh(states) && State([]) == Start(n)
    {
      numMessages := messages;
      nextTerm, published, starts, global := 0, 0, map[], {};
      pbTerm, pbData, stop := None, Empty, false;
      var created := MakeStates(n);
      states := created;
      new;
      assert Views(states) == seq(n, i => FRESH);
    }

    /** The global state, with the records the metrics hold. */
    ghost function State(records: seq<ProposalRecord>): Sys
      reads this, states
    {
      Sys(Views(states), nextTerm, published, starts, global, pbTerm, pbData, records, stop)
    }

    // -------------------------------------------------------------- one node at a time

    method InsertAt(i: nat, t: nat, data: Data)
      requires Distinct(states) && i < |states|
      modifies states
      ensures Views(states) == old(Views(states))[i := Inserted(old(Views(states))[i], t, data)]
    {
      var _ := states[i].InsertMessage(t, data);
      assert forall j :: 0 <= j < |states| && j != i ==> states[j].View() == old(states[j].View());
    }

    method DeliverAt(i: nat) returns (count: nat)
      requires Distinct(states) && i < |states|
      modifies states
      ensures Views(states) == old(Views(states))[i := Deliver(old(Views(states))[i])]
      ensures |Views(states)[i].delivered| == |old(Views(states))[i].delivered| + count
    {
      count := states[i].TryDeliverInOrder();
      assert forall j :: 0 <= j < |states| && j != i ==> states[j].View() == old(states[j].View());
      assert states[i].View() == Views(states)[i];
    }

    method ReceiveAt(i: nat, pkt: Packet)
      requires Distinct(states) && i < |states|
      modifies states
      ensures Views(states) == old(Views(states))[i := Stored(old(Views(states))[i], pkt)]
    {
      states[i].Receive(pkt);
      assert forall j :: 0 <= j < |states| && j != i ==> states[j].View() == old(states[j].View());
    }

    method MessageAt(i: nat, t: nat) returns (data: Option<Data>)
      requires i < |states|
      ensures data == if t in Views(states)[i].store then Some(Views(states)[i].store[t]) else None
    {
      assert states[i].View() == Views(states)[i];
      data := states[i].GetMessage(t);
    }

    method NackAt(i: nat) returns (nack: nat)
      requires i < |states|
      ensures nack == var gap := Gap(Views(states)[i]); if gap.Some? then gap.value else 0
    {
      assert states[i].View() == Views(states)[i];
      var gap := states[i].DetectGap();
      nack := if gap.Some? then gap.value else 0;
    }

    // -------------------------------------------------------------- preparing

    /** The earliest term some node has not delivered. */
    method EarliestNeed() returns (need: nat)
      requires states != []
      ensures need == MinExpected(Views(states))
    {
      need := NextExpected(states[0].View());
      for i := 1 to |states|
        invariant need == MinExpected(Views(states)[..i])
      {
        assert Views(states)[..i + 1][..i] == Views(states)[..i];
        if NextExpected(states[i].View()) < need {
          need := NextExpected(states[i].View());
        }
      }
      assert Views(states)[..|states|] == Views(states);
    }

    /** The message of term `t` from node `i`, or else from the first node that has it. */
    method FindRepair(i: nat, t: nat) returns (data: Option<Data>)
      requires i < |states|
      ensures data == Repairs(Views(states), i, t)
    {
      data := MessageAt(i, t);
      if data.Some? {
        return;
      }
      ghost var views := Views(states);
      for k := 0 to |states|
        invariant Views(states) == views && data == None
        invariant FindMessage(views, t) == FindMessage(views[k..], t)
      {
        assert views[k..][1..] == views[k + 1..];
        data := MessageAt(k, t);
        if data.Some? {
          return;
        }
      }
    }

    /** Initiator `i` publishes a new message, or repairs the earliest undelivered one, or has nothing to say. */
    method FloatMessage(i: nat, slot: nat, ghost c: Plan, ghost r: nat, ghost records: seq<ProposalRecord>)
      returns (term: nat, hasMessage: bool, data: Data)
      requires Distinct(states) && |states| == c.n && numMessages == c.messages
      requires c.n > 0 && i == r % c.n && slot == c.preparedAt(r)
      modifies this`nextTerm, this`published, this`starts, states
      ensures Floated(State(records), term, hasMessage, data) == Float(c, old(State(records)), r)
    {
      hide Views, Distinct, Inserted, Deliver, MinExpected, Repairs;
      if published < numMessages {
        term, hasMessage, data := nextTerm, true, Msg(nextTerm);
        InsertAt(i, term, data);
        var _ := DeliverAt(i);
        starts := starts[term := slot];
        nextTerm := nextTerm + 1;
        published := published + 1;
        return;
      }
      var need := EarliestNeed();
      if need < numMessages {
        var found := FindRepair(i, need);
        if found.Some? {
          InsertAt(i, need, found.value);
          return need, true, found.value;
        }
      }
      return if nextTerm == 0 then 0 else nextTerm - 1, false, Empty;
    }

    /** What initiator `i` piggybacks for the term asked for, if it can; else the request waits for a later one. */
    method TakePiggyback(i: nat) returns (term: Option<nat>, data: Data)
      requires Distinct(states) && i < |states|
      modifies this`pbTerm, this`pbData, states
      ensures var sys := old(State([]));
        var pb := PiggybackOf(sys, i);
        && term == (if pb.Some? then sys.pbTerm else None) && data == (if pb.Some? then pb.value else Empty)
        && Views(states)
           == (if pb.Some? then sys.states[i := Inserted(sys.states[i], sys.pbTerm.value, pb.value)] else sys.states)
        && pbTerm == (if pb.Some? then None else sys.pbTerm)
        && pbData == (if pb.Some? || sys.pbTerm.None? then Empty else sys.pbData)
    {
      hide Views, Distinct, Inserted;
      if pbTerm.None? {
        pbData := Empty;
        return None, Empty;
      }
      var t := pbTerm.value;
      var found := MessageAt(i, t);
      if found.None? && pbData != Empty {
        found := Some(pbData);
      }
      if found.None? {
        return None, Empty;
      }
      InsertAt(i, t, found.value);
      pbTerm, pbData := None, Empty;
      return Some(t), found.value;
    }

    /** Before round `r`: initiator `i` gets its packet ready. */
    method Prepare(i: nat, slot: nat, ghost c: Plan, ghost r: nat, ghost records: seq<ProposalRecord>)
      returns (pkt: Packet)
      requires Distinct(states) && |states| == c.n && numMessages == c.messages
      requires c.n > 0 && i == r % c.n && slot == c.preparedAt(r)
      modifies this`nextTerm, this`published, this`starts, this`pbTerm, this`pbData, states
      ensures (State(records), pkt) == Prepared(c, old(State(records)), r)
    {
      hide Views, Distinct, Inserted, Gap, Float;
      var nack := NackAt(i);
      var term, hasMessage, data := FloatMessage(i, slot, c, r, records);
      var pbT, pbD := TakePiggyback(i);
      pkt := Packet(term, hasMessage, data, i, nack, pbT, pbD);
    }

    /** Before a round of the core: prepare, and hand the packet to the initiator's radio. */
    method PrepareRound(core: Core)
      requires core.Running() && Distinct(states) && |states| == |core.config.g|
      modifies this`nextTerm, this`published, this`starts, this`pbTerm, this`pbData, states
      modifies core.nodes`payload
      ensures core.Running() && core.roundNum == old(core.roundNum)
      ensures var (sys, pkt) :=
          Prepared(PlanOf(core.config, numMessages), old(State(core.metrics.proposals)), core.roundNum);
        State(core.metrics.proposals) == sys && core.nodes[core.Initiator()].payload == Some(pkt)
      ensures Progress(core.nodes) == old(Progress(core.nodes))
    {
      hide Prepared, CiPipeline.Accounted, PlanOf, RoundStart;
      ghost var c, r := PlanOf(core.config, numMessages), core.roundNum;
      PlanIs(core.config, numMessages, r);
      var pkt := Prepare(core.Initiator(), core.currentSlot, c, r, core.metrics.proposals);
      core.Load(Some(pkt));
    }

    // -------------------------------------------------------------- processing

    /** Announce what node `i` has delivered from position `start` on. */
    method AnnounceFrom(i: nat, start: nat, slot: nat, metrics: MetricsCollector)
      requires i < |states| && start <= |Views(states)[i].delivered|
      modifies this`global, metrics`proposals
      ensures (global, metrics.proposals)
           == Announced(old(global), old(metrics.proposals), Terms(Views(states)[i].delivered[start..]), starts, slot)
    {
      ghost var newly := Terms(states[i].delivered[start..]);
      assert newly[..0] == [];
      for k := start to |states[i].delivered|
        invariant (global, metrics.proposals)
               == Announced(old(global), old(metrics.proposals), newly[..k - start], starts, slot)
      {
        assert newly[..k + 1 - start][..k - start] == newly[..k - start];
        var t := states[i].delivered[k].0;
        if t !in global {
          global := global + {t};
          metrics.RecordProposal(t, if t in starts then starts[t] else 0, slot, Committed);
        }
      }
      assert newly[..|newly|] == newly;
    }

    /** A missing term becomes the request for the next initiator, with the data if node `i` has it. */
    method Request(i: nat, nack: nat, ghost records: seq<ProposalRecord>)
      requires i < |states|
      modifies this`pbTerm, this`pbData
      ensures State(records) == Requested(old(State(records)), i, nack)
    {
      if nack > 0 {
        var data := MessageAt(i, nack);
        if data.Some? {
          pbTerm, pbData := Some(nack), data.value;
        } else if pbTerm.None? {
          pbTerm := Some(nack);
        }
      }
    }

    /** Node `i`'s turn in the processing of round `r`. */
    method Turn(i: nat, took: bool, pkt: Option<Packet>, slot: nat, metrics: MetricsCollector,
                ghost c: Plan, ghost r: nat, ghost sent: Packet)
      requires Distinct(states) && |states| == c.n && i < c.n && slot == c.processedAt(r)
      requires took == (i in c.parts(r)) && (took ==> pkt == Some(sent))
      modifies this`global, this`pbTerm, this`pbData, states, metrics`proposals
      ensures State(metrics.proposals) == ProcessNode(c, old(State(metrics.proposals)), r, sent, i)
    {
      hide Views, Distinct, Deliver, Announced, Requested, Terms;
      ghost var sys := State(metrics.proposals);
      if took {
        StoredDelivers(Views(states)[i], sent);
        ReceiveAt(i, pkt.value);
        var count := DeliverAt(i);
        var total := DeliveredAt(i);
        AnnounceFrom(i, total - count, slot, metrics);
        assert State(metrics.proposals)
            == sys.(states := Views(states), global := global, records := metrics.proposals);
        assert Views(states) == sys.states[i := Deliver(Stored(sys.states[i], sent))];
        assert total - count == |sys.states[i].delivered|;
        Request(i, pkt.value.nack, metrics.proposals);
      }
    }

    method DeliveredAt(i: nat) returns (total: nat)
      requires i < |states|
      ensures total == |Views(states)[i].delivered|
    {
      total := |states[i].delivered|;
    }

    /** Every node's turn. */
    method Turns(took: seq<bool>, inbox: seq<Option<Packet>>, slot: nat, metrics: MetricsCollector,
                 ghost c: Plan, ghost r: nat, ghost sent: Packet)
      requires Distinct(states) && |states| == c.n == |took| == |inbox| && slot == c.processedAt(r)
      requires forall i :: 0 <= i < c.n ==> (took[i] <==> i in c.parts(r)) && (took[i] ==> inbox[i] == Some(sent))
      modifies this`global, this`pbTerm, this`pbData, states, metrics`proposals
      ensures State(metrics.proposals) == ProcessUpTo(c, old(State(metrics.proposals)), r, sent, c.n)
    {
      hide Views, Distinct, ProcessNode;
      ghost var sys := State(metrics.proposals);
      for i := 0 to |states|
        invariant State(metrics.proposals) == ProcessUpTo(c, sys, r, sent, i)
      {
        Turn(i, took[i], inbox[i], slot, metrics, c, r, sent);
      }
    }

    // -------------------------------------------------------------- the end of a round

    /**
      The end-of-run check: every node in order, and all complete nodes alike on the
      first `numMessages` terms.  It succeeds exactly when every node is in order.
     */
    method VerifyTotalOrder() returns (ok: bool)
      ensures ok <==> forall i :: 0 <= i < |states| ==> InOrder(Views(states)[i])
    {
      ok := true;
      var reference: Option<seq<nat>> := None;
      for i := 0 to |states|
        invariant ok <==> forall j :: 0 <= j < i ==> InOrder(Views(states)[j])
        invariant reference.Some? ==> |reference.value| >= numMessages
        invariant ok && reference.Some? ==> forall k :: 0 <= k < |reference.value| ==> reference.value[k] == k
      {
        assert states[i].View() == Views(states)[i];
        var terms := Terms(states[i].delivered);
        var fine := CheckTerms(terms);
        assert forall k :: 0 <= k < |terms| ==> terms[k] == Views(states)[i].delivered[k].0;
        assert fine == InOrder(Views(states)[i]);
        ok := ok && fine;
        if reference.Some? {
          if |terms| >= numMessages && terms[..numMessages] != reference.value[..numMessages] {
            assert !ok;
            ok := false;
          }
        } else if |terms| >= numMessages {
          reference := Some(terms);
        }
      }
    }

    method LeastDelivered() returns (least: nat)
      requires states != []
      ensures least == Informed(Views(states))
    {
      least := |states[0].delivered|;
      for i := 1 to |states|
        invariant least == Informed(Views(states)[..i])
      {
        assert Views(states)[..i + 1][..i] == Views(states)[..i];
        if |states[i].delivered| < least {
          least := |states[i].delivered|;
        }
      }
      assert Views(states)[..|states|] == Views(states);
    }

    /** Report to every node whether it is complete and how far the slowest one is. */
    method ReportProgress(core: Core)
      requires core.Flooded() && |states| == |core.nodes|
      modifies core.nodes`goalReached, core.nodes`progressCount
      ensures core.Flooded()
      ensures forall i :: 0 <= i < |core.nodes| ==>
        && core.nodes[i].goalReached == (|Views(states)[i].delivered| >= numMessages)
        && core.nodes[i].progressCount == Informed(Views(states))
    {
      hide CiPipeline.Accounted, Informed, RoundStart, FinalWave;
      var least := LeastDelivered();
      for k := 0 to |states|
        invariant forall i :: 0 <= i < k ==>
          && core.nodes[i].goalReached == (|Views(states)[i].delivered| >= numMessages)
          && core.nodes[i].progressCount == least
      {
        assert Views(states)[k].delivered == states[k].delivered;
        core.nodes[k].goalReached := |states[k].delivered| >= numMessages;
        core.nodes[k].progressCount := least;
      }
      assert Meters(core.nodes) == old(Meters(core.nodes));
    }

    method CheckAllDelivered() returns (all: bool)
      ensures all == AllDelivered(Views(states), numMessages)
    {
      for i := 0 to |states|
        invariant forall j :: 0 <= j < i ==> |Views(states)[j].delivered| >= numMessages
      {
        assert states[i].View() == Views(states)[i];
        if |states[i].delivered| < numMessages {
          return false;
        }
      }
      return true;
    }

    /** The stop rules, checked in order; whenever the total-order check is made it succeeds. */
    method CheckStop(core: Core, ghost c: Plan)
      requires ValidPipe(core.config) && c == PlanOf(core.config, numMessages)
      requires forall i :: 0 <= i < |states| ==> InOrder(Views(states)[i])
      modifies this`stop
      ensures State(core.metrics.proposals)
           == var sys := old(State(core.metrics.proposals)); sys.(stop := sys.stop || ShouldStop(c, sys, core.roundNum))
    {
      hide AllDelivered, InOrder, Views, PlanOf, Takers, RoundStart;
      PlanIs(core.config, numMessages, core.roundNum);
      var all := CheckAllDelivered();
      if all && published >= numMessages {
        var ok := VerifyTotalOrder();
        assert ok;
        stop := true;
        return;
      }
      if |global| >= numMessages {
        var diameter := Diameter(core.config.g);
        if core.roundNum > numMessages + (diameter * 10 + numMessages * 2) {
          var ok := VerifyTotalOrder();
          assert ok;
          stop := true;
          return;
        }
      }
      if core.roundNum > numMessages * 20 + 500 {
        stop := true;
      }
    }

    /** Everybody's turn after a flood, in which the delivered messages stay in order. */
    method TakeTurns(core: Core, ghost sent: Packet)
      requires core.Flooded() && Distinct(states) && |states| == |core.config.g|
      requires forall i :: 0 <= i < |core.nodes| ==>
        (core.Participated(i) <==> i in Takers(core.config, core.roundNum))
        && (core.Participated(i) ==> core.nodes[i].payload == Some(sent))
      requires TomSafety.AllOk(PlanOf(core.config, numMessages), State(core.metrics.proposals), core.roundNum + 1)
      requires TomSafety.PacketOk(sent, nextTerm)
      modifies this`global, this`pbTerm, this`pbData, states, core.metrics`proposals
      ensures core.Flooded()
      ensures var c := PlanOf(core.config, numMessages);
        State(core.metrics.proposals)
          == ProcessUpTo(c, old(State(core.metrics.proposals)), core.roundNum, sent, |states|)
      ensures forall i :: 0 <= i < |states| ==> InOrder(Views(states)[i])
    {
      hide TomSafety.AllOk, TomSafety.PacketOk, CiPipeline.Accounted, PlanOf, RoundStart, ProcessUpTo,
           Distinct, Takers, Views, FinalWave, InOrder;
      ghost var c, r := PlanOf(core.config, numMessages), core.roundNum;
      PlanIs(core.config, numMessages, r);
      ProcessedInOrder(c, State(core.metrics.proposals), r, sent);
      var took, inbox := core.Inbox();
      Turns(took, inbox, core.currentSlot, core.metrics, c, r, sent);
    }

    /** After a round's flood: every participant processes what it received. */
    method ProcessRound(core: Core, ghost sent: Packet)
      requires core.Flooded() && Distinct(states) && |states| == |core.config.g|
      requires forall i :: 0 <= i < |core.nodes| ==>
        (core.Participated(i) <==> i in Takers(core.config, core.roundNum))
        && (core.Participated(i) ==> core.nodes[i].payload == Some(sent))
      requires TomSafety.AllOk(PlanOf(core.config, numMessages), State(core.metrics.proposals), core.roundNum + 1)
      requires TomSafety.PacketOk(sent, nextTerm)
      modifies this`global, this`pbTerm, this`pbData, this`stop, states, core.metrics`proposals
      modifies core.nodes`goalReached, core.nodes`progressCount
      ensures core.Flooded()
      ensures State(core.metrics.proposals)
           == Processed(PlanOf(core.config, numMessages), old(State(core.metrics.proposals)), core.roundNum, sent)
      ensures forall i :: 0 <= i < |core.nodes| ==>
        && core.nodes[i].goalReached == (|Views(states)[i].delivered| >= numMessages)
        && core.nodes[i].progressCount == Informed(Views(states))
    {
      hide TomSafety.AllOk, TomSafety.PacketOk, PlanOf, ProcessUpTo, ShouldStop, Distinct, Takers, Views, Informed,
           InOrder, CiCore<Option<Packet>>.Flooded;
      core.IsValid();
      PlanIs(core.config, numMessages, core.roundNum);
      TakeTurns(core, sent);
      ReportProgress(core);
      CheckStop(core, PlanOf(core.config, numMessages));
    }

    method Flood(core: Core)
      requires core.Running()
      modifies core`currentSlot, core`nextSnapshot, core.nodes, core.metrics`snapshots, core.metrics`history
      ensures core.Flooded() && core.roundNum == old(core.roundNum)
      ensures State(core.metrics.proposals) == old(State(core.metrics.proposals))
      ensures forall i :: 0 <= i < |core.nodes| ==>
        (core.Participated(i) <==> i in Takers(core.config, core.roundNum))
        && (core.Participated(i) ==> core.nodes[i].payload == old(core.nodes[core.Initiator()].payload))
      ensures Progress(core.nodes) == old(Progress(core.nodes))
      ensures core.metrics.history
           == old(core.metrics.history) + FloodRows(core.config, core.roundNum, old(Progress(core.nodes)))
    {
      hide CiPipeline.Accounted, RoundStart, Takers, FinalWave, FloodRows;
      core.FloodIdentical();
    }

    /** One whole round. */
    method RunRound(core: Core)
      requires core.Running() && Distinct(states) && |states| == |core.config.g|
      requires State(core.metrics.proposals) == After(PlanOf(core.config, numMessages), core.roundNum)
      modifies this`nextTerm, this`published, this`starts, this`global, this`pbTerm, this`pbData, this`stop, states
      modifies core`currentSlot, core`nextSnapshot, core.nodes, core.metrics
      ensures core.Flooded() && core.roundNum == old(core.roundNum)
      ensures State(core.metrics.proposals) == After(PlanOf(core.config, numMessages), core.roundNum + 1)
      ensures forall i :: 0 <= i < |core.nodes| ==> core.nodes[i].progressCount == Informed(Views(states))
      ensures core.metrics.history
           == old(core.metrics.history) + FloodRows(core.config, core.roundNum, old(Progress(core.nodes)))
    {
      hide TomSafety.AllOk, TomSafety.PacketOk, CiPipeline.Accounted, PlanOf, RoundStart, Prepared, Processed,
           Distinct, Takers, Views, FinalWave, After, Informed, FloodRows, Everyone,
           CiCore<Option<Packet>>.Running, CiCore<Option<Packet>>.Flooded;
      core.IsValid();
      ghost var c, r := PlanOf(core.config, numMessages), core.roundNum;
      ghost var (sys, sent) := Prepared(c, After(c, r), r);
      OneRound(c, r);
      PrepareRound(core);
      assert State(core.metrics.proposals) == sys;
      Flood(core);
      assert State(core.metrics.proposals) == sys;
      ProcessRound(core, sent);
    }

    method CountRound(core: Core)
      requires core.Flooded()
      modifies core`roundNum
      ensures core.Running() && core.roundNum == old(core.roundNum) + 1
      ensures State(core.metrics.proposals) == old(State(core.metrics.proposals))
    {
      hide CiPipeline.Accounted, RoundStart, FinalWave;
      core.roundNum := core.roundNum + 1;
    }

    // -------------------------------------------------------------- the run

    /** Everything is as the specification has it after `k` rounds. */
    ghost predicate Reached(core: Core, k: nat)
      reads this, states, core, core.nodes, core.metrics
    {
      && core.Sound() && core.currentSlot == RoundStart(core.config, k)
      && Distinct(states) && |states| == |core.config.g|
      && State(core.metrics.proposals) == After(PlanOf(core.config, numMessages), k)
      && core.Reporting(Informing(PlanOf(core.config, numMessages)), k)
    }

    /** One turn of the run loop: `more` says whether the loop goes on. */
    method RunOnce(core: Core, ghost k: nat) returns (more: bool, ghost k': nat)
      requires Reached(core, k) && core.roundNum == k < MAX_ROUNDS && !stop
      modifies this`nextTerm, this`published, this`starts, this`global, this`pbTerm, this`pbData, this`stop, states
      modifies core`currentSlot, core`nextSnapshot, core`roundNum, core.nodes, core.metrics
      ensures Reached(core, k')
      ensures var stops := Stops(PlanOf(core.config, numMessages));
        && k <= k' <= k + 1
        && (k' > k ==> GoesOn(core.config, stops, k))
        && (more ==> k' == k + 1 && core.roundNum == k' < MAX_ROUNDS && !stop)
        && (!more ==> !GoesOn(core.config, stops, k'))
    {
      hide PlanOf, RoundStart, After, Views, FinalWave, CiPipeline.Accounted, Distinct, History, Informing,
           CiCore<Option<Packet>>.Sound;
      core.IsValid();
      if core.currentSlot >= core.config.maxSlots {
        return false, k;
      }
      ghost var c := PlanOf(core.config, numMessages);
      RunRound(core);
      InformingIs(c, k + 1);
      RoundReported(core, Informing(c), k, old(core.metrics.history), old(Progress(core.nodes)));
      k' := k + 1;
      if stop {
        return false, k';
      }
      CountRound(core);
      more := core.roundNum <= 1_000_000;
    }

    lemma ReadyToRun(core: Core)
      requires core.Running() && core.roundNum == 0 && core.metrics.proposals == []
      requires core.metrics.history == [] && Progress(core.nodes) == Everyone(|core.nodes|, 0)
      requires Distinct(states) && |states| == |core.config.g| && State([]) == Start(|states|)
      ensures Reached(core, 0) && !stop
    {
      hide Distinct, CiPipeline.Accounted;
      NobodyInformed(Start(|states|).states);
      PlanIs(core.config, numMessages, 0);
    }

    /**
      A whole run: rounds until the protocol stops, the slots run out or the cap is
      reached.  `rounds` of them leave exactly the state the specification has after
      as many, and the books balanced.
     */
    method Run(core: Core) returns (ghost rounds: nat)
      requires core.Running() && core.roundNum == 0 && core.metrics.proposals == []
      requires core.metrics.history == [] && Progress(core.nodes) == Everyone(|core.nodes|, 0)
      requires Distinct(states) && |states| == |core.config.g| && State([]) == Start(|states|)
      modifies this`nextTerm, this`published, this`starts, this`global, this`pbTerm, this`pbData, this`stop, states
      modifies core`currentSlot, core`nextSnapshot, core`roundNum, core.nodes, core.metrics
      ensures RunTakes(core.config, Stops(PlanOf(core.config, numMessages)), rounds)
      ensures Reached(core, rounds)
    {
      hide Reached, Stops, PlanOf, GoesOn, State, Start, RoundStart, Distinct, CiPipeline.Accounted, Views;
      ghost var stops := Stops(PlanOf(core.config, numMessages));
      ReadyToRun(core);
      rounds := 0;
      var more := true;
      while more
        invariant Reached(core, rounds)
        invariant more ==> core.roundNum == rounds < MAX_ROUNDS && !stop
        invariant forall q: nat :: q < rounds ==> GoesOn(core.config, stops, q)
        invariant !more ==> !GoesOn(core.config, stops, rounds)
        decreases if more then MAX_ROUNDS - rounds + 1 else 0
      {
        more, rounds := RunOnce(core, rounds);
      }
    }
  }

  method CheckTerms(terms: seq<nat>) returns (ok: bool)
    ensures ok <==> forall k :: 0 <= k < |terms| ==> terms[k] == k
  {
    for k := 0 to |terms|
      invariant forall j :: 0 <= j < k ==> terms[j] == j
    {
      if terms[k] != k {
        return false;
      }
    }
    return true;
  }

  /** Storing delivers nothing, and delivering only adds. */
  lemma StoredDelivers(st: TomState, pkt: Packet)
    ensures Stored(st, pkt).delivered == st.delivered
  {
  }

  lemma ProcessedInOrder(c: Plan, sys: Sys, r: nat, pkt: Packet)
    requires ValidPlan(c) && TomSafety.AllOk(c, sys, r + 1) && TomSafety.PacketOk(pkt, sys.nextTerm)
    ensures |sys.states| == c.n
    ensures forall i :: 0 <= i < c.n ==> InOrder(ProcessUpTo(c, sys, r, pkt, c.n).states[i])
  {
    TomSafety.ProcessUpToOk(c, sys, r, pkt, c.n);
    hide ProcessUpTo;
    var sys' := ProcessUpTo(c, sys, r, pkt, c.n);
    forall i | 0 <= i < c.n ensures InOrder(sys'.states[i]) {
      assert TomSafety.NodeOk(sys'.states[i], sys'.nextTerm);
    }
  }

  lemma EverybodyInPlan(config: PipeConfig, messages: nat)
    requires ValidPipe(config) && Connected(config.g) && config.ci.roundSlots.None? && PatientLinks(config)
    ensures TomProgress.Lossless(PlanOf(config, messages))
  {
    hide RoundStart, Connected, Takers, PlanOf, PatientLinks;
    var c := PlanOf(config, messages);
    forall r: nat, i: nat | i < c.n ensures i in c.parts(r) {
      PlanIs(config, messages, r);
      EverybodyTakesPart(config, r, i);
    }
  }

  /**
    A whole run on a connected network with patient links, the default round length and enough
    slots: it takes as many rounds as messages, unless the cap on rounds comes first, and every
    node has then delivered, in order, what was published.
   */
  lemma PatientRun(config: PipeConfig, messages: nat, rounds: nat)
    requires ValidPipe(config) && Connected(config.g) && config.ci.roundSlots.None? && PatientLinks(config)
    requires messages >= 1
    requires forall q: nat :: q < Least(messages, MAX_ROUNDS) ==> RoundStart(config, q) < config.maxSlots
    requires RunTakes(config, Stops(PlanOf(config, messages)), rounds)
    ensures rounds == Least(messages, MAX_ROUNDS)
    ensures var c := PlanOf(config, messages);
      |After(c, rounds).states| == |config.g| && forall i :: 0 <= i < |config.g| ==>
        Published(After(c, rounds).states[i].delivered, rounds)
  {
    hide RoundStart, After, Connected, Takers, PlanOf, PatientLinks, TomProgress.Lossless, Published;
    var c := PlanOf(config, messages);
    EverybodyInPlan(config, messages);
    PlanIs(config, messages, 0);
    var k := Least(messages, MAX_ROUNDS);
    forall q: nat ensures Stops(c)(q) <==> q >= messages {
      TomStops.LosslessLength(c, q);
    }
    assert RunTakes(config, Stops(c), k);
    RunLengthUnique(config, Stops(c), rounds, k);
    DeliversAll(c, rounds);
  }

  /** The first k messages, in order. */
  ghost predicate Published(delivered: seq<(nat, Data)>, k: nat) {
    |delivered| == k && forall t :: 0 <= t < k ==> delivered[t] == (t, Msg(t))
  }

  lemma DeliversAll(c: Plan, r: nat)
    requires TomProgress.Lossless(c) && r <= c.messages
    ensures |After(c, r).states| == c.n
    ensures forall i :: 0 <= i < c.n ==> Published(After(c, r).states[i].delivered, r)
  {
    hide After;
    TomSafety.ReachableOk(c, r);
    forall i: nat | i < c.n ensures Published(After(c, r).states[i].delivered, r) {
      TomProgress.LosslessDelivers(c, r, i);
      TomSafety.TotalOrder(c, r, i, i);
    }
  }

  lemma {:induction false} NobodyInformed(states: seq<TomState>)
    requires states != [] && forall i :: 0 <= i < |states| ==> states[i].delivered == []
    ensures Informed(states) == 0
  {
    if |states| > 1 {
      NobodyInformed(states[..|states| - 1]);
    }
  }

  lemma InformingIs(c: Plan, q: nat)
    requires c.n > 0
    ensures Informing(c)(q) == Informed(After(c, q).states)
  {
    hide After, Informed;
  }

  /** One more round reported. */
  lemma RoundReported(core: Core, progress: nat -> nat, r: nat, history: seq<Snapshot>, before: seq<nat>)
    requires core.Flooded() && history == History(core.config, progress, r)
    requires before == Everyone(|core.config.g|, progress(r))
    requires core.metrics.history == history + FloodRows(core.config, r, before)
    requires forall i :: 0 <= i < |core.nodes| ==> core.nodes[i].progressCount == progress(r + 1)
    ensures core.Reporting(progress, r + 1)
  {
    hide CiPipeline.Accounted, FloodRows, RoundStart, FinalWave;
  }

  /** A round of the specification, in its two halves. */
  lemma OneRound(c: Plan, r: nat)
    requires ValidPlan(c)
    ensures var (sys, sent) := Prepared(c, After(c, r), r);
      && After(c, r + 1) == Processed(c, sys, r, sent)
      && TomSafety.AllOk(c, sys, r + 1) && TomSafety.PacketOk(sent, sys.nextTerm)
  {
    TomSafety.ReachableOk(c, r);
    TomSafety.PreparedOk(c, After(c, r), r);
  }

  /**
    Two whole runs that differ in nothing but the snapshot interval, one sampling every
    slot: both take the same rounds and slots, leave the same protocol state and records
    and charge the same to each radio state, and the coarser snapshots are exactly the
    others at the multiples of its interval.
   */
  lemma SampledRun(full: TomCi, fullCore: Core, a: nat, coarse: TomCi, coarseCore: Core, b: nat)
    requires full.numMessages == coarse.numMessages && fullCore.config == coarseCore.config.(interval := 1)
    requires full.Reached(fullCore, a) && coarse.Reached(coarseCore, b)
    requires RunTakes(fullCore.config, Stops(PlanOf(fullCore.config, full.numMessages)), a)
    requires RunTakes(coarseCore.config, Stops(PlanOf(coarseCore.config, coarse.numMessages)), b)
    ensures a == b && full.State(fullCore.metrics.proposals) == coarse.State(coarseCore.metrics.proposals)
    ensures fullCore.currentSlot == coarseCore.currentSlot
    ensures forall s: NodeState :: Total(Meters(fullCore.nodes), s) == Total(Meters(coarseCore.nodes), s)
    ensures SampledEvery(fullCore.metrics.snapshots, coarseCore.metrics.snapshots, coarseCore.config.interval)
  {
    hide CiPipeline.Accounted, RoundStart, RunTakes, After, History, Total, Meters, SampledEvery, Stops, Informing,
         PlanFor, Views;
    assert Course(fullCore.config) == Course(coarseCore.config);
    var c := PlanOf(coarseCore.config, coarse.numMessages);
    CiPipeline.SampledRun(fullCore, coarseCore, Stops(c), Informing(c), a, b);
  }
}
