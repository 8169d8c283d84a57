/** Paxos over capture effect: vote bitmaps are certificates that can be trusted. */
module CePaxos {
  import opened Bitmaps
  import opened Network
  import opened Metrics
  import opened CeProtocols
  import opened CeRun

  /** Every vote bit in node `i`'s packet names a node that holds a packet of the round. */
  ghost predicate Genuine(p: Protocol, ps: seq<Payload>, i: nat)
    requires p.PaxosCE? && |ps| == p.numNodes && i < |ps|
  {
    ps[i].Paxos? ==>
      && |ps[i].pax.bits| == p.numNodes
      && forall j :: 0 <= j < |ps| && ps[i].pax.bits[j] ==> ps[j].Paxos?
  }

  ghost predicate AllGenuine(p: Protocol, ps: seq<Payload>)
    requires p.PaxosCE? && |ps| == p.numNodes
  {
    forall i :: 0 <= i < |ps| ==> Shaped(p, ps[i], i) && Genuine(p, ps, i)
  }

  lemma MergeGenuine(p: Protocol, ps: seq<Payload>, i: nat, h: nat, ps': seq<Payload>)
    requires p.PaxosCE? && |ps| == |ps'| == p.numNodes && i < |ps| && h < |ps|
    requires Shaped(p, ps[i], i) && Genuine(p, ps, i) && Shaped(p, ps[h], h) && Genuine(p, ps, h)
    requires forall j :: 0 <= j < |ps| && ps[j].Paxos? ==> ps'[j].Paxos?
    requires Mergeable(p, ps[i], ps[h], i) && ps'[i] == Merge(p, ps[i], ps[h], i).0
    ensures Genuine(p, ps', i)
  {
  }

  lemma StepGenuine(env: CeEnv, slot: nat, ns: seq<CeNode>)
    requires env.proto.PaxosCE? && |ns| == |env.g| && ShapedAll(env.proto, ns) && MergeableAll(env.proto, ns)
    requires AllGenuine(env.proto, PayloadsOf(ns))
    ensures AllGenuine(env.proto, PayloadsOf(NextNodes(env, slot, ns)))
  {
    var p, ps, ps' := env.proto, PayloadsOf(ns), PayloadsOf(NextNodes(env, slot, ns));
    StepShaped(env, slot, ns);
    forall i | 0 <= i < |ns| ensures ps[i].Paxos? ==> ps'[i].Paxos? {
      var h := StepPayload(env, slot, ns, i);
    }
    forall i | 0 <= i < |ns| ensures Shaped(p, ps'[i], i) && Genuine(p, ps', i) {
      var h := StepPayload(env, slot, ns, i);
      if h.Some? {
        MergeGenuine(p, ps, i, h.value, ps');
      } else {
        assert ps'[i] == ps[i] && Genuine(p, ps, i);
      }
    }
  }

  lemma RoundGenuine(env: CeEnv, k: nat)
    requires ValidEnv(env) && env.proto.PaxosCE? && AllGenuine(env.proto, PayloadsAt(env, k))
    ensures AllGenuine(env.proto, PayloadsAt(env, k + 1))
  {
    RoundStep(env, k);
    StepGenuine(env, env.start + k, Round(env, k));
  }

  lemma {:induction false} ReachableGenuine(env: CeEnv, k: nat)
    requires ValidEnv(env) && env.proto.PaxosCE?
    ensures AllGenuine(env.proto, PayloadsAt(env, k))
  {
    if k == 0 {
      OpeningShaped(env.proto, env.initiator);
      assert PayloadsAt(env, 0) == env.payloads;
    } else {
      hide Round, AllGenuine;
      ReachableGenuine(env, k - 1);
      RoundGenuine(env, k - 1);
    }
  }

  // ---------------------------------------------------------------- quorums

  function Certified(p: Protocol, ps: seq<Payload>): set<nat> {
    set i: nat | i < |ps| && NodeGoal(p, ps[i])
  }

  lemma {:induction false} CertifiedCounted(p: Protocol, ps: seq<Payload>)
    ensures |Certified(p, ps)| == GoalCount(p, ps)
  {
    if ps == [] {
      assert Certified(p, ps) == {};
    } else {
      var n := |ps| - 1;
      CertifiedCounted(p, ps[..n]);
      if NodeGoal(p, ps[n]) {
        assert Certified(p, ps) == Certified(p, ps[..n]) + {n};
      } else {
        assert Certified(p, ps) == Certified(p, ps[..n]);
      }
    }
  }

  /** A node holding a certificate has heard from a majority, all of whom hold the same term and data. */
  lemma CertificateIsTruthful(env: CeEnv, k: nat, i: nat)
    requires ValidEnv(env) && env.proto.PaxosCE? && i < |env.g|
    requires NodeGoal(env.proto, PayloadsAt(env, k)[i])
    ensures var ps := PayloadsAt(env, k);
      var voters := Voters(ps[i].pax.bits);
      && |voters| >= |env.g| / 2 + 1 && voters <= Upto(|env.g|) && i in voters
      && forall j :: j in voters ==>
           ps[j].Paxos? && ps[j].pax.term == ps[i].pax.term && ps[j].pax.data == ps[i].pax.data
  {
    ReachableGenuine(env, k);
    var ps := PayloadsAt(env, k);
    assert Genuine(env.proto, ps, i);
    VotersCounted(ps[i].pax.bits);
    assert forall j: nat :: j < |ps| ==> Shaped(env.proto, ps[j], j);
  }

  /** Any two certificates share a voter. */
  lemma CertificatesShareAVoter(env: CeEnv, k: nat, m: nat, i: nat, j: nat)
    requires ValidEnv(env) && env.proto.PaxosCE? && i < |env.g| && j < |env.g|
    requires NodeGoal(env.proto, PayloadsAt(env, k)[i]) && NodeGoal(env.proto, PayloadsAt(env, m)[j])
    ensures Voters(PayloadsAt(env, k)[i].pax.bits) * Voters(PayloadsAt(env, m)[j].pax.bits) != {}
  {
    CertificateIsTruthful(env, k, i);
    CertificateIsTruthful(env, m, j);
    MajoritiesMeet(Voters(PayloadsAt(env, k)[i].pax.bits), Voters(PayloadsAt(env, m)[j].pax.bits), |env.g|);
  }

  /**
    The outcome is Committed exactly when a majority of nodes hold certificates
    (each of which is truthful, by CertificateIsTruthful), and reaching the goal
    implies it.
   */
  lemma CommittedMeansMajority(env: CeEnv, k: nat)
    requires ValidEnv(env) && env.proto.PaxosCE?
    ensures Outcome(env.proto, PayloadsAt(env, k)) == Committed
        <==> |Certified(env.proto, PayloadsAt(env, k))| >= |env.g| / 2 + 1
    ensures GoalAt(env, k) ==> Outcome(env.proto, PayloadsAt(env, k)) == Committed
  {
    var p, ps := env.proto, PayloadsAt(env, k);
    CertifiedCounted(p, ps);
    if GoalAt(env, k) {
      UptoSize(|ps|);
      assert Certified(p, ps) == Upto(|ps|);
    }
  }
}
