/**
  The three capture-effect protocols: two-phase commit, Paxos and totally
  ordered multicast.  Packets are values; the blank payload is the empty byte
  vector of a node that has heard nothing (and of a node that timed out and
  floods nothing), which no merge accepts.
 */
module CeProtocols {
  import opened Bitmaps
  import opened Messages
  import opened Metrics

  datatype Phase = Prepare | Commit | Abort

  datatype TwoPcPacket = TwoPcPacket(term: nat, phase: Phase, data: Data, bits: seq<bool>)

  datatype PaxosPacket = PaxosPacket(term: nat, data: Data, bits: seq<bool>)

  datatype TomPacket = TomPacket(term: nat, data: Data, bits: seq<bool>)

  datatype Payload = Blank | TwoPc(two: TwoPcPacket) | Paxos(pax: PaxosPacket) | Tom(tom: TomPacket)

  /** Protocol state; `votesNo(term, node)` stands for the application's hashed NO vote. */
  datatype Protocol =
    | TwoPcCE(numNodes: nat, currentTerm: nat, votesNo: (nat, nat) -> bool)
    | PaxosCE(numNodes: nat, currentTerm: nat)
    | TomCE(numNodes: nat, currentTerm: nat)

  // ---------------------------------------------------------------- two-phase commit

  predicate HasUnanimity(n: nat, bits: seq<bool>) {
    bits != [] && |bits| >= n && AllSet(bits)
  }

  predicate IsFinal(phase: Phase) {
    phase == Commit || phase == Abort
  }

  function Escalated(p: Protocol, pkt: TwoPcPacket, phase: Phase, id: nat): TwoPcPacket {
    pkt.(phase := phase, bits := OneBit(p.numNodes, id))
  }

  /** A packet taken over by a node that votes on it or acknowledges it. */
  function Adopted(p: Protocol, pkt: TwoPcPacket, id: nat): TwoPcPacket
    requires p.TwoPcCE?
  {
    var pkt := pkt.(bits := Padded(pkt.bits, p.numNodes));
    if pkt.phase == Prepare then
      if p.votesNo(pkt.term, id) then Escalated(p, pkt, Abort, id)
      else
        var voted := pkt.(bits := WithBit(pkt.bits, id));
        if HasUnanimity(p.numNodes, voted.bits) then Escalated(p, voted, Commit, id) else voted
    else pkt.(bits := WithBit(pkt.bits, id))
  }

  /** Same term, step 1: a final phase on the air overrides a weaker local one, bitmap and all. */
  function Overridden(local: TwoPcPacket, rec: TwoPcPacket): TwoPcPacket {
    if rec.phase == Abort && local.phase != Abort then local.(phase := Abort, bits := rec.bits)
    else if rec.phase == Commit && local.phase == Prepare then local.(phase := Commit, bits := rec.bits)
    else local
  }

  /** Step 2: in the same phase the bitmaps are united. */
  function United(p: Protocol, local: TwoPcPacket, rec: TwoPcPacket): TwoPcPacket {
    if rec.phase == local.phase then local.(bits := OrBits(local.bits, rec.bits, p.numNodes)) else local
  }

  /** Step 3: the node's own vote or acknowledgement. */
  function OwnBit(p: Protocol, local: TwoPcPacket, id: nat): TwoPcPacket
    requires p.TwoPcCE?
  {
    if id < |local.bits| && !local.bits[id] then
      if local.phase == Prepare && p.votesNo(local.term, id) then Escalated(p, local, Abort, id)
      else local.(bits := local.bits[id := true])
    else local
  }

  /** Step 4: a full vote commits. */
  function Concluded(p: Protocol, local: TwoPcPacket, id: nat): TwoPcPacket {
    if local.phase == Prepare && HasUnanimity(p.numNodes, local.bits) then Escalated(p, local, Commit, id) else local
  }

  function MergeSameTerm(p: Protocol, local: TwoPcPacket, rec: TwoPcPacket, id: nat): (r: (TwoPcPacket, bool))
    requires p.TwoPcCE?
  {
    var loc := local.(bits := Padded(local.bits, p.numNodes));
    var rec := rec.(bits := Padded(rec.bits, p.numNodes));
    var a := Overridden(loc, rec);
    var b := United(p, a, rec);
    var c := OwnBit(p, b, id);
    var d := Concluded(p, c, id);
    var newInfo := a.phase != loc.phase || b != a || c != b || d != c;
    (if newInfo then d else local, newInfo)
  }

  function MergeTwoPc(p: Protocol, local: Payload, received: Payload, id: nat): (Payload, bool)
    requires p.TwoPcCE?
  {
    if !received.TwoPc? then (local, false)
    else
      var rec := received.two;
      if local.Blank? then (TwoPc(Adopted(p, rec, id)), true)
      else if !local.TwoPc? then (local, false)
      else if rec.term > local.two.term then (TwoPc(Adopted(p, rec, id)), true)
      else if rec.term < local.two.term then (local, false)
      else
        var (pkt, newInfo) := MergeSameTerm(p, local.two, rec, id);
        (TwoPc(pkt), newInfo)
  }

  /** The packet update of one reception; the loop is the bitmap OR. */
  method MergeTwoPcPacket(p: Protocol, local: Payload, received: Payload, id: nat)
    returns (local': Payload, newInfo: bool)
    requires p.TwoPcCE?
    ensures (local', newInfo) == MergeTwoPc(p, local, received, id)
  {
    local', newInfo := local, false;
    if !received.TwoPc? {
      return;
    }
    var rec := received.two;
    if local.Blank? {
      return TwoPc(Adopted(p, rec, id)), true;
    }
    if !local.TwoPc? || rec.term < local.two.term {
      return;
    }
    if rec.term > local.two.term {
      return TwoPc(Adopted(p, rec, id)), true;
    }
    var loc := local.two.(bits := Padded(local.two.bits, p.numNodes));
    rec := rec.(bits := Padded(rec.bits, p.numNodes));
    if rec.phase == Abort && loc.phase != Abort {
      loc := loc.(phase := Abort, bits := rec.bits);
      newInfo := true;
    } else if rec.phase == Commit && loc.phase == Prepare {
      loc := loc.(phase := Commit, bits := rec.bits);
      newInfo := true;
    }
    if rec.phase == loc.phase {
      var bits, more := OrInto(loc.bits, rec.bits, p.numNodes);
      loc := loc.(bits := bits);
      newInfo := newInfo || more;
    }
    if id < |loc.bits| && !loc.bits[id] {
      if loc.phase == Prepare && p.votesNo(loc.term, id) {
        loc := Escalated(p, loc, Abort, id);
      } else {
        loc := loc.(bits := loc.bits[id := true]);
      }
      newInfo := true;
    }
    if loc.phase == Prepare && HasUnanimity(p.numNodes, loc.bits) {
      loc := Escalated(p, loc, Commit, id);
      newInfo := true;
    }
    if newInfo {
      local' := TwoPc(loc);
    }
  }

  // ---------------------------------------------------------------- Paxos

  /** The packets the Paxos merge can index without going out of bounds. */
  predicate Fits(n: nat, pkt: Payload) {
    pkt.Paxos? ==> |pkt.pax.bits| >= n
  }

  function MergePaxos(p: Protocol, local: Payload, received: Payload, id: nat): (Payload, bool)
    requires p.PaxosCE? && id < p.numNodes && Fits(p.numNodes, local) && Fits(p.numNodes, received)
  {
    if !received.Paxos? then (local, false)
    else
      var rec := received.pax;
      if local.Blank? then (Paxos(rec.(bits := rec.bits[id := true])), true)
      else if !local.Paxos? then (local, false)
      else if rec.term > local.pax.term then (received, true)
      else if rec.term < local.pax.term then (local, false)
      else
        var bits := OrBits(local.pax.bits, rec.bits, p.numNodes)[id := true];
        (Paxos(local.pax.(bits := bits)), bits != local.pax.bits)
  }

  method MergePaxosPacket(p: Protocol, local: Payload, received: Payload, id: nat)
    returns (local': Payload, newInfo: bool)
    requires p.PaxosCE? && id < p.numNodes && Fits(p.numNodes, local) && Fits(p.numNodes, received)
    ensures (local', newInfo) == MergePaxos(p, local, received, id)
  {
    local', newInfo := local, false;
    if !received.Paxos? {
      return;
    }
    var rec := received.pax;
    if local.Blank? {
      return Paxos(rec.(bits := rec.bits[id := true])), true;
    }
    if !local.Paxos? || rec.term < local.pax.term {
      return;
    }
    if rec.term > local.pax.term {
      return received, true;
    }
    var bits, more := OrInto(local.pax.bits, rec.bits, p.numNodes);
    newInfo := more;
    if !bits[id] {
      bits := bits[id := true];
      newInfo := true;
      assert !local.pax.bits[id];
    }
    assert OrBits(local.pax.bits, rec.bits, p.numNodes)[id := true] == bits;
    if newInfo {
      local' := Paxos(local.pax.(bits := bits));
    }
  }

  predicate HasQuorum(n: nat, bits: seq<bool>) {
    Votes(bits) >= n / 2 + 1
  }

  // ---------------------------------------------------------------- totally ordered multicast

  function MergeTom(p: Protocol, local: Payload, received: Payload, id: nat): (Payload, bool)
    requires p.TomCE?
  {
    if !received.Tom? then (local, false)
    else
      var rec := received.tom;
      if local.Blank? then (Tom(rec.(bits := WithBit(rec.bits, id))), true)
      else if !local.Tom? then (local, false)
      else if rec.term > local.tom.term then (Tom(rec.(bits := WithBit(rec.bits, id))), true)
      else if rec.term < local.tom.term then (local, false)
      else
        var loc := local.tom;
        var data := if loc.data == Empty then rec.data else loc.data;
        var bits := WithBit(OrBits(loc.bits, rec.bits, p.numNodes), id);
        (Tom(loc.(data := data, bits := bits)), data != loc.data || bits != loc.bits)
  }

  method MergeTomPacket(p: Protocol, local: Payload, received: Payload, id: nat)
    returns (local': Payload, newInfo: bool)
    requires p.TomCE?
    ensures (local', newInfo) == MergeTom(p, local, received, id)
  {
    local', newInfo := local, false;
    if !received.Tom? {
      return;
    }
    var rec := received.tom;
    if local.Blank? {
      return Tom(rec.(bits := WithBit(rec.bits, id))), true;
    }
    if !local.Tom? || rec.term < local.tom.term {
      return;
    }
    if rec.term > local.tom.term {
      return Tom(rec.(bits := WithBit(rec.bits, id))), true;
    }
    var loc := local.tom;
    if loc.data == Empty && rec.data != Empty {
      loc := loc.(data := rec.data);
      newInfo := true;
    }
    var n := p.numNodes;
    n := if |loc.bits| < n then |loc.bits| else n;
    n := if |rec.bits| < n then |rec.bits| else n;
    var bits, more := OrInto(loc.bits, rec.bits, n);
    assert bits == OrBits(loc.bits, rec.bits, p.numNodes);
    newInfo := newInfo || more;
    if id < |bits| && !bits[id] {
      bits := bits[id := true];
      newInfo := true;
      assert !loc.bits[id];
    }
    assert bits == WithBit(OrBits(loc.bits, rec.bits, p.numNodes), id);
    if newInfo {
      local' := Tom(loc.(bits := bits));
    }
  }

  // ---------------------------------------------------------------- the protocol interface

  predicate Mergeable(p: Protocol, local: Payload, rec: Payload, id: nat) {
    p.PaxosCE? ==> id < p.numNodes && Fits(p.numNodes, local) && Fits(p.numNodes, rec)
  }

  /** The new local payload, and whether it brought new information. */
  function Merge(p: Protocol, local: Payload, rec: Payload, id: nat): (Payload, bool)
    requires Mergeable(p, local, rec, id)
  {
    match p
    case TwoPcCE(_, _, _) => MergeTwoPc(p, local, rec, id)
    case PaxosCE(_, _) => MergePaxos(p, local, rec, id)
    case TomCE(_, _) => MergeTom(p, local, rec, id)
  }

  method MergePacket(p: Protocol, local: Payload, received: Payload, id: nat) returns (local': Payload, newInfo: bool)
    requires Mergeable(p, local, received, id)
    ensures (local', newInfo) == Merge(p, local, received, id)
  {
    match p
    case TwoPcCE(_, _, _) => local', newInfo := MergeTwoPcPacket(p, local, received, id);
    case PaxosCE(_, _) => local', newInfo := MergePaxosPacket(p, local, received, id);
    case TomCE(_, _) => local', newInfo := MergeTomPacket(p, local, received, id);
  }

  predicate NodeGoal(p: Protocol, payload: Payload) {
    match p
    case TwoPcCE(_, _, _) => payload.TwoPc? && IsFinal(payload.two.phase)
    case PaxosCE(n, _) => payload.Paxos? && HasQuorum(n, payload.pax.bits)
    case TomCE(_, _) => payload.Tom? && payload.tom.data != Empty
  }

  predicate CanSleep(p: Protocol, payload: Payload) {
    p.TwoPcCE? && payload.TwoPc? && IsFinal(payload.two.phase) && HasUnanimity(p.numNodes, payload.two.bits)
  }

  predicate InPhase(payload: Payload, phase: Phase) {
    payload.TwoPc? && payload.two.phase == phase
  }

  predicate AllInPhase(payloads: seq<Payload>, phase: Phase) {
    forall i :: 0 <= i < |payloads| ==> InPhase(payloads[i], phase)
  }

  predicate NetworkGoal(p: Protocol, payloads: seq<Payload>) {
    payloads != [] &&
    match p
    case TwoPcCE(n, _, _) => n != 0 && (AllInPhase(payloads, Commit) || AllInPhase(payloads, Abort))
    case _ => forall i :: 0 <= i < |payloads| ==> NodeGoal(p, payloads[i])
  }

  /** The counting loop of two-phase commit, the all-nodes test of the other two. */
  method NetworkGoalReached(p: Protocol, payloads: seq<Payload>) returns (reached: bool)
    ensures reached == NetworkGoal(p, payloads)
  {
    if payloads == [] || (p.TwoPcCE? && p.numNodes == 0) {
      return false;
    }
    if !p.TwoPcCE? {
      return forall i :: 0 <= i < |payloads| ==> NodeGoal(p, payloads[i]);
    }
    var commits, aborts := 0, 0;
    for i := 0 to |payloads|
      invariant forall j :: 0 <= j < i ==> InPhase(payloads[j], Commit) || InPhase(payloads[j], Abort)
      invariant commits <= i && aborts <= i
      invariant commits == i <==> forall j :: 0 <= j < i ==> InPhase(payloads[j], Commit)
      invariant aborts == i <==> forall j :: 0 <= j < i ==> InPhase(payloads[j], Abort)
    {
      if InPhase(payloads[i], Commit) {
        commits := commits + 1;
      } else if InPhase(payloads[i], Abort) {
        aborts := aborts + 1;
      } else {
        return false;
      }
    }
    return commits == |payloads| || aborts == |payloads|;
  }

  /** How many nodes hold a quorum certificate. */
  function GoalCount(p: Protocol, payloads: seq<Payload>): nat {
    if payloads == [] then 0
    else GoalCount(p, payloads[..|payloads| - 1]) + if NodeGoal(p, payloads[|payloads| - 1]) then 1 else 0
  }

  function Outcome(p: Protocol, payloads: seq<Payload>): ProposalOutcome {
    match p
    case TwoPcCE(_, _, _) =>
      if exists i :: 0 <= i < |payloads| && InPhase(payloads[i], Abort) then Aborted
      else if AllInPhase(payloads, Commit) && payloads != [] then Committed
      else Aborted
    case PaxosCE(n, _) => if GoalCount(p, payloads) >= n / 2 + 1 then Committed else TimedOut
    case TomCE(_, _) => if NetworkGoal(p, payloads) then Committed else TimedOut
  }

  /** A new proposal: the protocol forgets nothing but its term counter moves on. */
  function Proposed(p: Protocol, n: nat): Protocol {
    match p
    case TwoPcCE(_, term, no) => TwoPcCE(n, term + 1, no)
    case PaxosCE(_, term) => PaxosCE(n, term + 1)
    case TomCE(_, term) => TomCE(n, term + 1)
  }

  /** The packet the initiator of the current term starts from. */
  function Opening(p: Protocol, initiator: nat): Payload
    requires initiator < p.numNodes
  {
    var t := p.currentTerm;
    match p
    case TwoPcCE(n, _, no) =>
      var pkt := TwoPcPacket(t, Prepare, Tx(t), NoBits(n));
      if no(t, initiator) then TwoPc(Escalated(p, pkt, Abort, initiator))
      else
        var voted := pkt.(bits := pkt.bits[initiator := true]);
        if HasUnanimity(n, voted.bits) then TwoPc(Escalated(p, voted, Commit, initiator)) else TwoPc(voted)
    case PaxosCE(n, _) => Paxos(PaxosPacket(t, Tx(t), OneBit(n, initiator)))
    case TomCE(n, _) => Tom(TomPacket(t, Msg(t), OneBit(n, initiator)))
  }
}
