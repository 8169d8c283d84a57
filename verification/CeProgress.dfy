/**
  Progress and timing of capture-effect rounds, for all three protocols: what a
  merge learns, why nobody ever sleeps, and how fast a round can be.
 */
module CeProgress {
  import opened Bitmaps
  import opened Network
  import opened Nodes
  import opened CeProtocols
  import opened CeRun
  import CeTwoPc

  // ---------------------------------------------------------------- what a node knows

  /** How much a node knows: phase first, then bits. */
  function Knowledge(p: Protocol, payload: Payload): nat {
    match payload
    case Blank => 0
    case TwoPc(pkt) => Votes(pkt.bits) + if pkt.phase == Prepare || p.numNodes == 0 then 0 else p.numNodes - 1
    case Paxos(pkt) => Votes(pkt.bits)
    case Tom(pkt) => Votes(pkt.bits)
  }

  function KnowledgeLimit(p: Protocol): nat {
    if p.TwoPcCE? && p.numNodes > 0 then 2 * p.numNodes - 1 else p.numNodes
  }

  /** The payloads satisfy the invariant of their protocol. */
  ghost predicate Sane(p: Protocol, ps: seq<Payload>) {
    && |ps| == p.numNodes
    && (forall i :: 0 <= i < |ps| ==> Shaped(p, ps[i], i))
    && (p.TwoPcCE? ==> CeTwoPc.AllHonest(p, ps))
  }

  lemma ReachableSane(env: CeEnv, k: nat)
    requires ValidEnv(env)
    ensures Sane(env.proto, PayloadsAt(env, k))
  {
    if env.proto.TwoPcCE? {
      CeTwoPc.ReachableHonest(env, k);
    }
  }

  lemma KnowledgeBounded(p: Protocol, ps: seq<Payload>, i: nat)
    requires Sane(p, ps) && i < |ps|
    ensures Knowledge(p, ps[i]) <= KnowledgeLimit(p)
  {
    match ps[i]
    case Blank =>
    case TwoPc(pkt) => VotesGrow(pkt.bits, pkt.bits);
    case Paxos(pkt) => VotesGrow(pkt.bits, pkt.bits);
    case Tom(pkt) => VotesGrow(pkt.bits, pkt.bits);
  }

  // ---------------------------------------------------------------- the order of payloads

  /** Prepare comes before both final phases. */
  function Rank(phase: Phase): nat {
    if phase == Prepare then 0 else 1
  }

  predicate MoreBits(a: seq<bool>, b: seq<bool>) {
    |a| == |b| && a != b && forall i :: 0 <= i < |a| && a[i] ==> b[i]
  }

  /**
    `a` says strictly less than `b`: nothing at all, or about the same proposal something of
    a lower phase, or in the same phase a strict part of the bits.
   */
  predicate Below(a: Payload, b: Payload) {
    match a
    case Blank => b != Blank
    case TwoPc(x) =>
      && b.TwoPc? && x.term == b.two.term && x.data == b.two.data
      && (Rank(x.phase) < Rank(b.two.phase) || (x.phase == b.two.phase && MoreBits(x.bits, b.two.bits)))
    case Paxos(x) => b.Paxos? && x.term == b.pax.term && x.data == b.pax.data && MoreBits(x.bits, b.pax.bits)
    case Tom(x) => b.Tom? && x.term == b.tom.term && x.data == b.tom.data && MoreBits(x.bits, b.tom.bits)
  }

  /** It is a strict order. */
  lemma BelowIsAnOrder(a: Payload, b: Payload, c: Payload)
    ensures !Below(a, a)
    ensures Below(a, b) && Below(b, c) ==> Below(a, c)
  {
    if Below(a, b) && Below(b, c) {
      match a
      case Blank =>
      case TwoPc(x) => BitsTransitive(x.bits, b.two.bits, c.two.bits);
      case Paxos(x) => BitsTransitive(x.bits, b.pax.bits, c.pax.bits);
      case Tom(x) => BitsTransitive(x.bits, b.tom.bits, c.tom.bits);
    }
  }

  lemma BitsTransitive(a: seq<bool>, b: seq<bool>, c: seq<bool>)
    ensures MoreBits(a, b) && MoreBits(b, c) ==> MoreBits(a, c)
  {
    if MoreBits(a, b) && MoreBits(b, c) {
      var i :| 0 <= i < |a| && a[i] != b[i];
      assert c[i];
    }
  }

  lemma MergeGrows(p: Protocol, ps: seq<Payload>, i: nat, h: nat)
    requires Sane(p, ps) && i < |ps| && h < |ps| && Mergeable(p, ps[i], ps[h], i)
    ensures var (merged, newInfo) := Merge(p, ps[i], ps[h], i);
      && (newInfo ==> Below(ps[i], merged))
      && (!newInfo ==> merged == ps[i])
  {
    MergeShaped(p, ps[i], ps[h], i, h);
    if p.TwoPcCE? {
      CeTwoPc.MergeExtends(p, ps, i, h);
    }
  }

  /**
    In every reachable state of a round, for any two nodes: merging one's payload into the
    other's reports new information exactly when the result says strictly more than was
    there, and otherwise leaves the payload as it was.
   */
  lemma NewInfoMeansGrowth(env: CeEnv, k: nat, i: nat, h: nat)
    requires ValidEnv(env) && i < |env.g| && h < |env.g|
    ensures var ps := PayloadsAt(env, k);
      && Mergeable(env.proto, ps[i], ps[h], i)
      && var (merged, newInfo) := Merge(env.proto, ps[i], ps[h], i);
         && (newInfo <==> Below(ps[i], merged))
         && (!newInfo ==> merged == ps[i])
  {
    hide Round, Below;
    ReachableSane(env, k);
    var ps := PayloadsAt(env, k);
    MergeShaped(env.proto, ps[i], ps[h], i, h);
    MergeGrows(env.proto, ps, i, h);
    BelowIsAnOrder(ps[i], ps[i], ps[i]);
  }

  lemma SlotForgetsNothing(env: CeEnv, k: nat, i: nat)
    requires ValidEnv(env) && i < |env.g|
    ensures PayloadsAt(env, k + 1)[i] == PayloadsAt(env, k)[i]
         || Below(PayloadsAt(env, k)[i], PayloadsAt(env, k + 1)[i])
  {
    hide Round, Below, Merge, NextNodes, Received;
    ReachableSane(env, k);
    RoundStep(env, k);
    var ns := Round(env, k);
    var h := StepPayload(env, env.start + k, ns, i);
    if h.Some? {
      MergeGrows(env.proto, PayloadsOf(ns), i, h.value);
    }
  }

  /** In the course of a round a node's payload stays as it is or comes to say strictly more; it never goes back. */
  lemma {:induction false} NeverForgets(env: CeEnv, k: nat, m: nat, i: nat)
    requires ValidEnv(env) && i < |env.g| && k <= m
    ensures PayloadsAt(env, m)[i] == PayloadsAt(env, k)[i] || Below(PayloadsAt(env, k)[i], PayloadsAt(env, m)[i])
  {
    hide PayloadsAt, Below;
    if k < m {
      NeverForgets(env, k, m - 1, i);
      SlotForgetsNothing(env, m - 1, i);
      BelowIsAnOrder(PayloadsAt(env, k)[i], PayloadsAt(env, m - 1)[i], PayloadsAt(env, m)[i]);
    }
  }

  // ---------------------------------------------------------------- how often a node learns

  /** Who says more knows more. */
  lemma MoreIsKnown(p: Protocol, ps: seq<Payload>, i: nat, merged: Payload)
    requires Sane(p, ps) && i < |ps| && Shaped(p, merged, i) && Below(ps[i], merged)
    ensures Knowledge(p, ps[i]) < Knowledge(p, merged)
  {
    match merged
    case Blank =>
    case TwoPc(pkt) =>
      HasAVote(pkt.bits, i);
      if ps[i].TwoPc? {
        assert p.TwoPcCE? && CeTwoPc.Honest(p, ps, i);
        VotesGrow(ps[i].two.bits, ps[i].two.bits);
        if pkt.phase == ps[i].two.phase {
          VotesGrow(ps[i].two.bits, pkt.bits);
        }
      }
    case Paxos(pkt) => HasAVote(pkt.bits, i); if ps[i].Paxos? { VotesGrow(ps[i].pax.bits, pkt.bits); }
    case Tom(pkt) => HasAVote(pkt.bits, i); if ps[i].Tom? { VotesGrow(ps[i].tom.bits, pkt.bits); }
  }

  /** Node `i` learns something in the `k`-th slot. */
  ghost predicate Learns(env: CeEnv, k: nat, i: nat)
    requires ValidEnv(env) && i < |env.g|
  {
    RoundStep(env, k);
    Received(env, env.start + k, Round(env, k), i).1
  }

  /** How often node `i` learns something in the first `k` slots. */
  ghost function Lessons(env: CeEnv, k: nat, i: nat): nat
    requires ValidEnv(env) && i < |env.g|
  {
    if k == 0 then 0 else Lessons(env, k - 1, i) + if Learns(env, k - 1, i) then 1 else 0
  }

  lemma StepTeaches(env: CeEnv, slot: nat, ns: seq<CeNode>, i: nat)
    requires |ns| == |env.g| && i < |ns| && ShapedAll(env.proto, ns) && MergeableAll(env.proto, ns)
    requires Sane(env.proto, PayloadsOf(ns))
    ensures Knowledge(env.proto, ns[i].payload) + (if Received(env, slot, ns, i).1 then 1 else 0)
         <= Knowledge(env.proto, PayloadsOf(NextNodes(env, slot, ns))[i])
  {
    var h := StepPayload(env, slot, ns, i);
    if h.Some? {
      MergeGrows(env.proto, PayloadsOf(ns), i, h.value);
      MergeShaped(env.proto, ns[i].payload, ns[h.value].payload, i, h.value);
      var (merged, newInfo) := Merge(env.proto, ns[i].payload, ns[h.value].payload, i);
      hide Merge;
      if newInfo {
        MoreIsKnown(env.proto, PayloadsOf(ns), i, merged);
      }
    }
  }

  lemma LearningGrows(env: CeEnv, k: nat, i: nat)
    requires ValidEnv(env) && i < |env.g|
    ensures Knowledge(env.proto, PayloadsAt(env, k)[i]) + (if Learns(env, k, i) then 1 else 0)
         <= Knowledge(env.proto, PayloadsAt(env, k + 1)[i])
  {
    hide Knowledge, Received, NextNodes, Round;
    ReachableSane(env, k);
    RoundStep(env, k);
    StepTeaches(env, env.start + k, Round(env, k), i);
  }

  /** A node learns at most 2N - 1 times in a two-phase-commit round and at most N times in the others. */
  lemma {:induction false} LessonsBounded(env: CeEnv, k: nat, i: nat)
    requires ValidEnv(env) && i < |env.g|
    ensures Lessons(env, k, i) <= Knowledge(env.proto, PayloadsAt(env, k)[i]) <= KnowledgeLimit(env.proto)
  {
    hide Round, Knowledge;
    ReachableSane(env, k);
    KnowledgeBounded(env.proto, PayloadsAt(env, k), i);
    if k > 0 {
      LessonsBounded(env, k - 1, i);
      LearningGrows(env, k - 1, i);
    }
  }

  // ---------------------------------------------------------------- nobody sleeps

  /**
    No node of any capture-effect round ever enters Sleep: a payload that allows
    sleeping means the goal has been reached, and the goal is looked for before
    any transition to Sleep.
   */
  lemma {:induction false} NobodySleeps(env: CeEnv, k: nat)
    requires ValidEnv(env) && forall j :: 0 <= j < k ==> !GoalAt(env, j)
    ensures forall i :: 0 <= i < |env.g| ==> Round(env, k)[i].state != Sleep
  {
    if k > 0 {
      NobodySleeps(env, k - 1);
      var slot, ns := env.start + k - 1, Round(env, k - 1);
      StepShaped(env, slot, ns);
      forall i | 0 <= i < |env.g| ensures Round(env, k)[i].state != Sleep {
        assert Round(env, k)[i] == NextNode(env, slot, ns, i);
        if ns[i].state == Flood && CanSleep(env.proto, ns[i].payload) {
          CeTwoPc.FullBitmapMeansGoal(env, k - 1, i);
        }
      }
    }
  }

  // ---------------------------------------------------------------- how fast a round can be

  /** A node that knows something after a slot knew it before or heard it from a neighbour that did. */
  lemma HeardFrom(env: CeEnv, k: nat, v: nat) returns (u: nat)
    requires ValidEnv(env) && v < |env.g| && PayloadsAt(env, k + 1)[v] != Blank
    ensures u < |env.g| && (u == v || v in env.g[u]) && PayloadsAt(env, k)[u] != Blank
  {
    hide Round, NextNodes, Merge, Received, Captured, Shaped, ValidEnv;
    RoundStep(env, k);
    var ns := Round(env, k);
    var h := StepPayload(env, env.start + k, ns, v);
    u := if ns[v].payload == Blank then h.value else v;
    if ns[v].payload == Blank {
      MergeShaped(env.proto, ns[v].payload, ns[u].payload, v, u);
    }
  }

  /** A node that has heard anything by slot `k` is within `k` hops of the initiator. */
  lemma {:induction false} HeardInsideBall(env: CeEnv, k: nat, v: nat)
    requires ValidEnv(env) && v < |env.g| && PayloadsAt(env, k)[v] != Blank
    ensures v in Ball(env.g, env.initiator, k)
  {
    hide PayloadsAt, Ball;
    if k == 0 {
      HeardAtStart(env, v);
    } else {
      var u := HeardFrom(env, k - 1, v);
      HeardInsideBall(env, k - 1, u);
      if u != v {
        BallStep(env.g, env.initiator, k - 1, u, v);
      } else {
        BallGrows(env.g, env.initiator, k - 1, k);
      }
    }
  }

  lemma HeardAtStart(env: CeEnv, v: nat)
    requires ValidEnv(env) && v < |env.g| && PayloadsAt(env, 0)[v] != Blank
    ensures v in Ball(env.g, env.initiator, 0)
  {
  }

  /**
    No round of any of the three protocols meets its goal in fewer than `ecc + 1`
    slots, whatever the losses, and none does in a network its initiator cannot
    reach entirely.
   */
  lemma GoalTakesEccentricity(env: CeEnv)
    requires ValidEnv(env) && GoalMet(env)
    ensures TickedSlots(env) >= Ecc(env.g, env.initiator) + 1
    ensures Covers(env.g, env.initiator, Ecc(env.g, env.initiator))
  {
    var k := Steps(env, 0);
    var ps := PayloadsAt(env, k);
    forall v | 0 <= v < |env.g| ensures v in Ball(env.g, env.initiator, k) {
      assert ps[v] != Blank;
      HeardInsideBall(env, k, v);
    }
    CoverNeedsEcc(env.g, env.initiator, k);
  }

  ghost predicate Lossless(env: CeEnv) {
    forall slot, target, src :: !env.lost(slot, target, src)
  }

  /** A node at slot `k` of an undisturbed round: it has heard, it floods, or it has never been stirred. */
  ghost predicate InFront(env: CeEnv, k: nat, n: CeNode, v: nat)
    requires ValidEnv(env)
  {
    && (v in Ball(env.g, env.initiator, k) <==> n.payload != Blank)
    && (n.payload == Blank ==> n.state == Listen && n.lastProgress == env.start)
    && (AtDistance(env.g, env.initiator, k, v) ==> n.state == Flood)
    && env.start <= n.lastProgress
  }

  ghost predicate Front(env: CeEnv, k: nat, ns: seq<CeNode>)
    requires ValidEnv(env) && |ns| == |env.g|
  {
    forall v :: 0 <= v < |ns| ==> InFront(env, k, ns[v], v)
  }

  /** Before the first timeout a node next to the front hears it in this slot, and one further away does not. */
  lemma FrontHeard(env: CeEnv, k: nat, ns: seq<CeNode>, v: nat)
    requires ValidEnv(env) && Lossless(env) && k < env.listenTimeout
    requires |ns| == |env.g| && Front(env, k, ns)
    requires v < |ns| && ns[v].payload == Blank
    ensures !TimesOut(env, env.start + k, ns[v], v)
    ensures Reception(env, env.start + k, ns, v).Some? <==> v in Ball(env.g, env.initiator, k + 1)
  {
    var slot := env.start + k;
    CaptureSound(env, slot, ns, v);
    var h := Captured(env, slot, ns, v);
    if v in Ball(env.g, env.initiator, k + 1) {
      var u := Predecessor(env.g, env.initiator, k + 1, v);
      assert ns[u].state == Flood && !env.lost(slot, v, u);
    }
    if h.Some? {
      assert ns[h.value].payload != Blank;
      BallStep(env.g, env.initiator, k, h.value, v);
    }
  }

  /** What the slot does to a node that has not heard anything yet. */
  lemma FrontAdvances(env: CeEnv, k: nat, ns: seq<CeNode>, v: nat)
    requires ValidEnv(env) && Lossless(env) && k < env.listenTimeout
    requires |ns| == |env.g| && ShapedAll(env.proto, ns) && MergeableAll(env.proto, ns) && Front(env, k, ns)
    requires v < |ns| && ns[v].payload == Blank
    ensures var n := NextNode(env, env.start + k, ns, v);
      if v in Ball(env.g, env.initiator, k + 1)
      then n.payload != Blank && n.state == Flood && n.lastProgress >= env.start
      else n.payload == Blank && n.state == Listen && n.lastProgress == env.start
  {
    FrontHeard(env, k, ns, v);
    var h := StepPayload(env, env.start + k, ns, v);
    if h.Some? {
      assert ns[h.value].payload != Blank;
      MergeShaped(env.proto, ns[v].payload, ns[h.value].payload, v, h.value);
      assert Merge(env.proto, Blank, ns[h.value].payload, v).1;
    }
  }

  lemma FirstFront(env: CeEnv)
    requires ValidEnv(env)
    ensures Front(env, 0, Round(env, 0))
  {
    OpeningShaped(env.proto, env.initiator);
  }

  /** Until the first timeout can fire, an undisturbed round spreads exactly ball by ball. */
  lemma {:induction false} UndisturbedFront(env: CeEnv, k: nat)
    requires ValidEnv(env) && Lossless(env) && k <= env.listenTimeout
    ensures Front(env, k, Round(env, k))
  {
    hide Round, Front, ValidEnv, Lossless;
    if k == 0 {
      FirstFront(env);
    } else {
      UndisturbedFront(env, k - 1);
      RoundFront(env, k - 1);
    }
  }

  lemma RoundFront(env: CeEnv, k: nat)
    requires ValidEnv(env) && Lossless(env) && k < env.listenTimeout && Front(env, k, Round(env, k))
    ensures Front(env, k + 1, Round(env, k + 1))
  {
    RoundStep(env, k);
    var ns, ns' := Round(env, k), NextNodes(env, env.start + k, Round(env, k));
    forall v | 0 <= v < |env.g| ensures InFront(env, k + 1, ns'[v], v) {
      FrontStep(env, k, ns, v);
    }
  }

  lemma FrontStep(env: CeEnv, k: nat, ns: seq<CeNode>, v: nat)
    requires ValidEnv(env) && Lossless(env) && k < env.listenTimeout
    requires |ns| == |env.g| && ShapedAll(env.proto, ns) && Front(env, k, ns) && v < |ns|
    ensures MergeableAll(env.proto, ns) && InFront(env, k + 1, NextNode(env, env.start + k, ns, v), v)
  {
    StepShaped(env, env.start + k, ns);
    if ns[v].payload == Blank {
      FrontAdvances(env, k, ns, v);
    } else {
      BallGrows(env.g, env.initiator, k, k + 1);
      var h := StepPayload(env, env.start + k, ns, v);
    }
  }

  /**
    A lossless multicast round in a network its initiator can reach takes exactly
    `ecc + 1` slots, for every capture order, as long as neither the listen timeout
    nor the deadline comes first.
   */
  lemma LosslessTomTakesEccentricity(env: CeEnv)
    requires ValidEnv(env) && env.proto.TomCE? && Lossless(env)
    requires Covers(env.g, env.initiator, Ecc(env.g, env.initiator))
    requires Ecc(env.g, env.initiator) <= env.listenTimeout
    requires Ecc(env.g, env.initiator) < env.maxRoundSlots
    ensures GoalMet(env) && TickedSlots(env) == Ecc(env.g, env.initiator) + 1
    ensures forall v :: 0 <= v < |env.g| ==> NodeGoal(env.proto, PayloadsAt(env, Steps(env, 0))[v])
  {
    var e := Ecc(env.g, env.initiator);
    UndisturbedFront(env, e);
    var ps := PayloadsAt(env, e);
    forall v | 0 <= v < |env.g| ensures NodeGoal(env.proto, ps[v]) {
      assert Shaped(env.proto, Round(env, e)[v].payload, v);
    }
    assert GoalAt(env, e);
    GoalTakesEccentricity(env);
  }
}
