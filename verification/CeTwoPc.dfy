/**
  Safety of two-phase commit over capture effect, for every reachable state of
  every round: whatever is lost, whoever is captured, whoever times out.
 */
module CeTwoPc {
  import opened Wrappers
  import opened Bitmaps
  import opened Nodes
  import opened Metrics
  import opened CeProtocols
  import opened CeRun

  ghost predicate EveryoneYes(p: Protocol)
    requires p.TwoPcCE?
  {
    forall j: nat :: j < p.numNodes ==> !p.votesNo(p.currentTerm, j)
  }

  /**
    What node `i`'s packet says is true of the network: a vote bit names a
    willing node that has joined the round, Commit means everyone said YES,
    Abort means someone said NO, and an acknowledgement bit names a node that is
    already in that final phase.
   */
  ghost predicate Honest(p: Protocol, ps: seq<Payload>, i: nat)
    requires p.TwoPcCE? && |ps| == p.numNodes && i < |ps|
  {
    ps[i].TwoPc? ==>
      var pkt := ps[i].two;
      && |pkt.bits| == p.numNodes
      && match pkt.phase
         case Prepare =>
           && !AllSet(pkt.bits)
           && forall j :: 0 <= j < |ps| && pkt.bits[j] ==> ps[j] != Blank && !p.votesNo(p.currentTerm, j)
         case Commit =>
           EveryoneYes(p) && forall j :: 0 <= j < |ps| && pkt.bits[j] ==> InPhase(ps[j], Commit)
         case Abort =>
           !EveryoneYes(p) && forall j :: 0 <= j < |ps| && pkt.bits[j] ==> InPhase(ps[j], Abort)
  }

  ghost predicate AllHonest(p: Protocol, ps: seq<Payload>)
    requires p.TwoPcCE? && |ps| == p.numNodes
  {
    forall i :: 0 <= i < |ps| ==> Shaped(p, ps[i], i) && Honest(p, ps, i)
  }

  /** Phases only move forward, and a final one never changes. */
  predicate Extends(a: Payload, b: Payload) {
    && (a != Blank ==> b != Blank)
    && (InPhase(a, Commit) ==> InPhase(b, Commit))
    && (InPhase(a, Abort) ==> InPhase(b, Abort))
  }

  lemma MergeExtends(p: Protocol, ps: seq<Payload>, i: nat, h: nat)
    requires p.TwoPcCE? && |ps| == p.numNodes && i < |ps| && h < |ps|
    requires Shaped(p, ps[i], i) && Honest(p, ps, i) && Shaped(p, ps[h], h) && Honest(p, ps, h)
    ensures Mergeable(p, ps[i], ps[h], i) && Extends(ps[i], Merge(p, ps[i], ps[h], i).0)
  {
  }

  lemma MergedPrepare(p: Protocol, ps: seq<Payload>, i: nat, h: nat, ps': seq<Payload>)
    requires p.TwoPcCE? && |ps| == |ps'| == p.numNodes && i < |ps| && h < |ps|
    requires Shaped(p, ps[i], i) && Honest(p, ps, i) && Shaped(p, ps[h], h) && Honest(p, ps, h)
    requires forall j :: 0 <= j < |ps| ==> Extends(ps[j], ps'[j])
    requires ps'[i] == Merge(p, ps[i], ps[h], i).0 && InPhase(ps'[i], Prepare)
    ensures Honest(p, ps', i)
  {
  }

  lemma MergedCommit(p: Protocol, ps: seq<Payload>, i: nat, h: nat, ps': seq<Payload>)
    requires p.TwoPcCE? && |ps| == |ps'| == p.numNodes && i < |ps| && h < |ps|
    requires Shaped(p, ps[i], i) && Honest(p, ps, i) && Shaped(p, ps[h], h) && Honest(p, ps, h)
    requires forall j :: 0 <= j < |ps| ==> Extends(ps[j], ps'[j])
    requires ps'[i] == Merge(p, ps[i], ps[h], i).0 && InPhase(ps'[i], Commit)
    ensures Honest(p, ps', i)
  {
    if !InPhase(ps[i], Commit) && !InPhase(ps[h], Commit) {
      var heard := ps[h].two.bits;
      var voted := WithBit(if ps[i].Blank? then heard else OrBits(ps[i].two.bits, heard, p.numNodes), i);
      assert AllSet(voted);
      forall j: nat | j < p.numNodes ensures !p.votesNo(p.currentTerm, j) {
        assert voted[j];
      }
    }
  }

  lemma MergedAbort(p: Protocol, ps: seq<Payload>, i: nat, h: nat, ps': seq<Payload>)
    requires p.TwoPcCE? && |ps| == |ps'| == p.numNodes && i < |ps| && h < |ps|
    requires Shaped(p, ps[i], i) && Honest(p, ps, i) && Shaped(p, ps[h], h) && Honest(p, ps, h)
    requires forall j :: 0 <= j < |ps| ==> Extends(ps[j], ps'[j])
    requires ps'[i] == Merge(p, ps[i], ps[h], i).0 && InPhase(ps'[i], Abort)
    ensures Honest(p, ps', i)
  {
  }

  /** A merge of two honest packets is honest about every later state of the network. */
  lemma MergeHonest(p: Protocol, ps: seq<Payload>, i: nat, h: nat, ps': seq<Payload>)
    requires p.TwoPcCE? && |ps| == |ps'| == p.numNodes && i < |ps| && h < |ps|
    requires Shaped(p, ps[i], i) && Honest(p, ps, i) && Shaped(p, ps[h], h) && Honest(p, ps, h)
    requires forall j :: 0 <= j < |ps| ==> Extends(ps[j], ps'[j])
    requires ps'[i] == Merge(p, ps[i], ps[h], i).0
    ensures Honest(p, ps', i)
  {
    hide Merge, Shaped, Extends;
    if InPhase(ps'[i], Prepare) {
      MergedPrepare(p, ps, i, h, ps');
    } else if InPhase(ps'[i], Commit) {
      MergedCommit(p, ps, i, h, ps');
    } else if InPhase(ps'[i], Abort) {
      MergedAbort(p, ps, i, h, ps');
    }
  }

  lemma OpeningHonest(p: Protocol, initiator: nat)
    requires p.TwoPcCE? && initiator < p.numNodes
    ensures AllHonest(p, FreshPayloads(p, initiator))
  {
    OpeningShaped(p, initiator);
    var ps := FreshPayloads(p, initiator);
    assert ps[initiator] == Opening(p, initiator);
    if InPhase(ps[initiator], Commit) {
      forall j: nat | j < p.numNodes ensures !p.votesNo(p.currentTerm, j) {
        assert NoBits(p.numNodes)[initiator := true][j];
      }
    }
  }

  /** One slot: payloads move forward and stay honest. */
  lemma StepHonest(env: CeEnv, slot: nat, ns: seq<CeNode>)
    requires env.proto.TwoPcCE? && |ns| == |env.g| && ShapedAll(env.proto, ns) && MergeableAll(env.proto, ns)
    requires AllHonest(env.proto, PayloadsOf(ns))
    ensures AllHonest(env.proto, PayloadsOf(NextNodes(env, slot, ns)))
    ensures forall i :: 0 <= i < |ns| ==> Extends(ns[i].payload, NextNode(env, slot, ns, i).payload)
  {
    var p, ps, ps' := env.proto, PayloadsOf(ns), PayloadsOf(NextNodes(env, slot, ns));
    forall i | 0 <= i < |ns| ensures Extends(ps[i], ps'[i]) {
      CaptureSound(env, slot, ns, i);
      var h := Reception(env, slot, ns, i);
      if h.Some? {
        MergeExtends(p, ps, i, h.value);
      }
      assert ps'[i] == NextNode(env, slot, ns, i).payload;
    }
    assert forall i :: 0 <= i < |ns| ==> ps[i] == ns[i].payload && ps'[i] == NextNode(env, slot, ns, i).payload;
    StepShaped(env, slot, ns);
    forall i | 0 <= i < |ns| ensures Shaped(p, ps'[i], i) && Honest(p, ps', i) {
      CaptureSound(env, slot, ns, i);
      var h := Reception(env, slot, ns, i);
      if h.Some? {
        MergeHonest(p, ps, i, h.value, ps');
      } else {
        assert ps'[i] == ps[i];
      }
    }
  }

  lemma RoundHonest(env: CeEnv, k: nat)
    requires ValidEnv(env) && env.proto.TwoPcCE? && AllHonest(env.proto, PayloadsAt(env, k))
    ensures AllHonest(env.proto, PayloadsAt(env, k + 1))
    ensures forall i :: 0 <= i < |env.g| ==> Extends(PayloadsAt(env, k)[i], PayloadsAt(env, k + 1)[i])
  {
    hide AllHonest, Round, NextNode, MergeableAll, Extends;
    RoundStep(env, k);
    StepHonest(env, env.start + k, Round(env, k));
  }

  /** Every reachable state of a round is honest. */
  lemma {:induction false} ReachableHonest(env: CeEnv, k: nat)
    requires ValidEnv(env) && env.proto.TwoPcCE?
    ensures AllHonest(env.proto, PayloadsAt(env, k))
  {
    if k == 0 {
      OpeningHonest(env.proto, env.initiator);
      assert PayloadsAt(env, 0) == env.payloads;
    } else {
      hide Round, AllHonest;
      ReachableHonest(env, k - 1);
      RoundHonest(env, k - 1);
    }
  }

  /**
    Agreement: no reachable state has one node committed and another aborted.
    A committed node means every node voted YES, an aborted node that some node
    voted NO.
   */
  lemma Agreement(env: CeEnv, k: nat, i: nat, j: nat)
    requires ValidEnv(env) && env.proto.TwoPcCE? && i < |env.g| && j < |env.g|
    ensures !(InPhase(PayloadsAt(env, k)[i], Commit) && InPhase(PayloadsAt(env, k)[j], Abort))
    ensures InPhase(PayloadsAt(env, k)[i], Commit) ==> EveryoneYes(env.proto)
    ensures InPhase(PayloadsAt(env, k)[i], Abort) ==> !EveryoneYes(env.proto)
  {
    ReachableHonest(env, k);
    assert Honest(env.proto, PayloadsAt(env, k), i) && Honest(env.proto, PayloadsAt(env, k), j);
  }

  lemma RoundExtends(env: CeEnv, k: nat, i: nat)
    requires ValidEnv(env) && env.proto.TwoPcCE? && i < |env.g|
    ensures Extends(PayloadsAt(env, k)[i], PayloadsAt(env, k + 1)[i])
  {
    hide Round;
    ReachableHonest(env, k);
    RoundHonest(env, k);
  }

  /** A decision, once taken by a node, is never revised in the rest of the round. */
  lemma {:induction false} DecisionsAreFinal(env: CeEnv, k: nat, m: nat, i: nat)
    requires ValidEnv(env) && env.proto.TwoPcCE? && i < |env.g| && k <= m
    ensures Extends(PayloadsAt(env, k)[i], PayloadsAt(env, m)[i])
    decreases m
  {
    hide Round;
    if k < m {
      DecisionsAreFinal(env, k, m - 1, i);
      RoundExtends(env, m - 1, i);
    }
  }

  /** A full acknowledgement bitmap at one node means the whole network has decided the same way. */
  lemma FullBitmapMeansGoal(env: CeEnv, k: nat, i: nat)
    requires ValidEnv(env) && env.proto.TwoPcCE? && i < |env.g|
    requires CanSleep(env.proto, PayloadsAt(env, k)[i])
    ensures GoalAt(env, k)
  {
    ReachableHonest(env, k);
    var ps := PayloadsAt(env, k);
    assert Honest(env.proto, ps, i);
    forall j | 0 <= j < |ps| ensures InPhase(ps[j], ps[i].two.phase) {
      assert ps[i].two.bits[j];
    }
  }

  // ---------------------------------------------------------------- outcome of a round

  /**
    The recorded outcome is Committed exactly when the goal is met and everyone
    voted YES; then every node has committed.
   */
  lemma CommittedOutcome(env: CeEnv, k: nat)
    requires ValidEnv(env) && env.proto.TwoPcCE?
    ensures Outcome(env.proto, PayloadsAt(env, k)) == Committed <==> GoalAt(env, k) && EveryoneYes(env.proto)
    ensures Outcome(env.proto, PayloadsAt(env, k)) == Committed ==> AllInPhase(PayloadsAt(env, k), Commit)
    ensures GoalAt(env, k) && !EveryoneYes(env.proto) ==> AllInPhase(PayloadsAt(env, k), Abort)
  {
    var ps := PayloadsAt(env, k);
    Agreement(env, k, 0, 0);
    if GoalAt(env, k) {
      assert InPhase(ps[0], Commit) || InPhase(ps[0], Abort);
      assert ps[0] in ps;
    } else {
      assert !AllInPhase(ps, Commit);
    }
  }

  /**
    A recorded Aborted does not mean that nobody committed
    (AbortedOutcomeCanHideACommit is the witness): a reachable state with a
    committed node is recorded as Aborted exactly when the round is cut off
    before its goal.
   */
  lemma AbortedDespiteCommit(env: CeEnv, k: nat, i: nat)
    requires ValidEnv(env) && env.proto.TwoPcCE? && i < |env.g|
    requires InPhase(PayloadsAt(env, k)[i], Commit)
    ensures Outcome(env.proto, PayloadsAt(env, k)) == Aborted <==> !GoalAt(env, k)
  {
    Agreement(env, k, i, i);
    CommittedOutcome(env, k);
  }

  /** Two willing nodes, no loss, one slot: the listener commits, the deadline strikes, Aborted is recorded. */
  lemma AbortedOutcomeCanHideACommit() returns (env: CeEnv)
    ensures ValidEnv(env) && env.proto.TwoPcCE? && EveryoneYes(env.proto)
    ensures !GoalMet(env) && Steps(env, 0) == 1
    ensures Outcome(env.proto, PayloadsAt(env, 1)) == Aborted && InPhase(PayloadsAt(env, 1)[1], Commit)
  {
    var p := TwoPcCE(2, 1, (t, i) => false);
    env := CeEnv([{1}, {0}], 0, 0, 5, 1, p, FreshPayloads(p, 0), [false, false],
                 (s, i) => false, (s, t, i) => 0, (s, t, u) => false);
    var ns := Round(env, 0);
    var opening := TwoPc(TwoPcPacket(1, Prepare, Messages.Tx(1), [true, false]));
    assert Opening(p, 0) == opening by {
      assert NoBits(2)[0 := true] == [true, false];
      assert ![true, false][1];
    }
    assert ns[0].payload == opening && ns[1].payload == Blank;
    CaptureSound(env, 0, ns, 1);
    assert ns[0].state == Flood && 1 in env.g[0] && !env.lost(0, 1, 0);
    var ns' := Round(env, 1);
    assert Captured(env, 0, ns, 1) == Some(0);
    assert ns'[1].payload == Merge(p, Blank, opening, 1).0;
    assert WithBit([true, false], 1) == [true, true];
    assert AllSet([true, true]);
    assert ns'[0].payload == opening;
    assert !InPhase(PayloadsAt(env, 1)[0], Commit) && !InPhase(PayloadsAt(env, 1)[0], Abort);
    assert !InPhase(PayloadsAt(env, 0)[0], Commit) && !InPhase(PayloadsAt(env, 0)[0], Abort);
    assert Padded([true, false], 2) == [true, false];
  }
}
