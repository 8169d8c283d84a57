/**
  The slots of a capture-effect round, said without the engine: whom a listener hears, who
  floods next, and when a stalled listener recovers.
 */
module CeSlots {
  import opened Wrappers
  import opened Network
  import opened Nodes
  import opened CeProtocols
  import opened CeRun
  import CeProgress
  import CeTwoPc
  import Metrics

  // ---------------------------------------------------------------- whom a listener hears

  ghost predicate Ascending(s: seq<nat>) {
    forall a, b :: 0 <= a < b < |s| ==> s[a] < s[b]
  }

  lemma {:induction false} FloodersAscend(g: Graph, ns: seq<CeNode>, target: nat, k: nat)
    requires k <= |ns| && k <= |g|
    ensures Ascending(Flooders(g, ns, target, k))
    ensures forall a :: 0 <= a < |Flooders(g, ns, target, k)| ==> Flooders(g, ns, target, k)[a] < k
  {
    if k > 0 {
      FloodersAscend(g, ns, target, k - 1);
    }
  }

  /** A shuffle rearranges. */
  lemma {:induction false} ShuffleRearranges(s: seq<nat>, i: nat, draw: nat -> nat)
    requires i < |s| || i == 0
    ensures multiset(Shuffled(s, i, draw)) == multiset(s)
    decreases i
  {
    if i > 0 {
      ShuffleRearranges(s[i := s[draw(i) % (i + 1)]][draw(i) % (i + 1) := s[i]], i - 1, draw);
    }
  }

  /** Only the first `i + 1` places are touched, and the last of these gets what stood at the place drawn for it. */
  lemma {:induction false} ShuffleTop(s: seq<nat>, i: nat, draw: nat -> nat)
    requires i < |s|
    ensures Shuffled(s, i, draw)[i + 1..] == s[i + 1..]
    ensures Shuffled(s, i, draw)[i] == s[draw(i) % (i + 1)]
    decreases i
  {
    if i > 0 {
      var j := draw(i) % (i + 1);
      var t := s[i := s[j]][j := s[i]];
      ShuffleTop(t, i - 1, draw);
      var r := Shuffled(t, i - 1, draw);
      assert r[i..] == t[i..];
      assert t[i..][0] == t[i] && r[i..][0] == r[i];
      assert r[i + 1..] == r[i..][1..] && t[i + 1..] == t[i..][1..] && t[i + 1..] == s[i + 1..];
    }
  }

  /** Different draws give different orders: no order is lost and none is favoured. */
  lemma {:induction false} DrawsMatter(s: seq<nat>, i: nat, draw: nat -> nat, draw': nat -> nat)
    requires i < |s| && (forall a, b :: 0 <= a < b < |s| ==> s[a] != s[b])
    requires Shuffled(s, i, draw) == Shuffled(s, i, draw')
    ensures forall k :: 1 <= k <= i ==> draw(k) % (k + 1) == draw'(k) % (k + 1)
    decreases i
  {
    if i > 0 {
      ShuffleTop(s, i, draw);
      ShuffleTop(s, i, draw');
      var j := draw(i) % (i + 1);
      assert j == draw'(i) % (i + 1);
      DrawsMatter(s[i := s[j]][j := s[i]], i - 1, draw, draw');
    }
  }

  /** `h` stands in the order, its transmission gets through, and those before it do not. */
  ghost predicate EarliestSurvivor(order: seq<nat>, lost: nat -> bool, h: nat) {
    exists m :: 0 <= m < |order| && order[m] == h && !lost(h) && forall l :: 0 <= l < m ==> lost(order[l])
  }

  lemma {:induction false} EarliestIsFirst(order: seq<nat>, lost: nat -> bool, h: nat)
    ensures FirstHeard(order, lost) == Some(h) <==> EarliestSurvivor(order, lost, h)
  {
    if order != [] {
      var rest := order[1..];
      EarliestIsFirst(rest, lost, h);
      if lost(order[0]) {
        if EarliestSurvivor(rest, lost, h) {
          var m :| 0 <= m < |rest| && rest[m] == h && !lost(h) && forall l :: 0 <= l < m ==> lost(rest[l]);
          assert order[m + 1] == h && forall l :: 0 < l < m + 1 ==> order[l] == rest[l - 1];
        }
        if EarliestSurvivor(order, lost, h) {
          var m :| 0 <= m < |order| && order[m] == h && !lost(h) && forall l :: 0 <= l < m ==> lost(order[l]);
          assert rest[m - 1] == h && forall l :: 0 <= l < m - 1 ==> rest[l] == order[l + 1];
        }
      }
    }
  }

  /**
    The capture order of a listener is a rearrangement of its flooding neighbours, and it
    hears the earliest of them in that order whose transmission is not lost.
   */
  lemma CapturesEarliest(env: CeEnv, slot: nat, ns: seq<CeNode>, target: nat, h: nat) returns (order: seq<nat>)
    requires |ns| == |env.g|
    ensures multiset(order) == multiset(Flooders(env.g, ns, target, |ns|))
    ensures forall u: nat :: u in order <==> u < |ns| && ns[u].state == Flood && target in env.g[u]
    ensures Captured(env, slot, ns, target) == Some(h)
      <==> EarliestSurvivor(order, (src: nat) => env.lost(slot, target, src), h)
  {
    var flooding := Flooders(env.g, ns, target, |ns|);
    var last := if |flooding| == 0 then 0 else |flooding| - 1;
    order := Shuffled(flooding, last, (i: nat) => env.draw(slot, target, i));
    ShuffleRearranges(flooding, last, (i: nat) => env.draw(slot, target, i));
    EarliestIsFirst(order, (src: nat) => env.lost(slot, target, src), h);
    forall u: nat ensures u in order <==> u < |ns| && ns[u].state == Flood && target in env.g[u] {
      FloodersAre(env.g, ns, target, |ns|, u);
      ShuffledMembers(flooding, last, (i: nat) => env.draw(slot, target, i), u);
    }
  }

  // ---------------------------------------------------------------- who floods next

  /** In the `k`-th slot a listener without progress for the whole timeout has a coin that says flood. */
  predicate Recovers(env: CeEnv, k: nat, i: nat)
    requires ValidEnv(env) && i < |env.g|
  {
    var n := Round(env, k)[i];
    n.state == Listen && env.start + k >= n.lastProgress + env.listenTimeout && env.coin(env.start + k, i)
  }

  /** What node `i` says changes in the `k`-th slot. */
  ghost predicate Changes(env: CeEnv, k: nat, i: nat)
    requires ValidEnv(env) && i < |env.g|
  {
    PayloadsAt(env, k + 1)[i] != PayloadsAt(env, k)[i]
  }

  /** The node that `i` hears in the `k`-th slot: only a listener that does not recover hears anybody. */
  function Heard(env: CeEnv, k: nat, i: nat): (h: Option<nat>)
    requires ValidEnv(env) && i < |env.g|
    ensures h.Some? ==> h.value < |env.g|
  {
    CaptureSound(env, env.start + k, Round(env, k), i);
    if Round(env, k)[i].state == Listen && !Recovers(env, k, i) then Captured(env, env.start + k, Round(env, k), i)
    else None
  }

  lemma HeardIs(env: CeEnv, k: nat, i: nat)
    requires ValidEnv(env) && i < |env.g|
    ensures Heard(env, k, i) == Reception(env, env.start + k, Round(env, k), i)
    ensures Recovers(env, k, i) <==> TimesOut(env, env.start + k, Round(env, k)[i], i)
  {
    hide Captured, Round;
  }

  /** Node `i` a slot later, and what changed. */
  lemma SlotOf(env: CeEnv, k: nat, i: nat)
    requires ValidEnv(env) && i < |env.g|
    ensures MergeableAll(env.proto, Round(env, k))
    ensures Round(env, k + 1)[i] == NextNode(env, env.start + k, Round(env, k), i)
    ensures Changes(env, k, i) <==> Received(env, env.start + k, Round(env, k), i).1
    ensures Changes(env, k, i) ==> Round(env, k)[i].state == Listen && !Recovers(env, k, i)
  {
    hide Round, NextNode, Captured, Merge, Shaped, MergeableAll;
    RoundStep(env, k);
    CeProgress.ReachableSane(env, k);
    HeardIs(env, k, i);
    var ns := Round(env, k);
    var h := StepPayload(env, env.start + k, ns, i);
    if h.Some? {
      CeProgress.MergeGrows(env.proto, PayloadsOf(ns), i, h.value);
      CeProgress.BelowIsAnOrder(ns[i].payload, ns[i].payload, ns[i].payload);
    }
  }

  /** Whose payload allows sleeping before the goal has just heard the rest. */
  lemma SleepIsNews(env: CeEnv, k: nat, i: nat)
    requires ValidEnv(env) && i < |env.g| && !GoalAt(env, k)
    ensures CanSleep(env.proto, PayloadsAt(env, k + 1)[i]) ==> Changes(env, k, i)
  {
    hide Round;
    if CanSleep(env.proto, PayloadsAt(env, k)[i]) {
      CeTwoPc.FullBitmapMeansGoal(env, k, i);
    }
  }

  /**
    Until the goal is met a node floods in a slot exactly if in the slot before it recovered
    from a stall or came to say something new, and otherwise listens.
   */
  lemma FloodsExactly(env: CeEnv, k: nat, i: nat)
    requires ValidEnv(env) && i < |env.g| && forall j :: 0 <= j <= k ==> !GoalAt(env, j)
    ensures Round(env, k + 1)[i].state == if Recovers(env, k, i) || Changes(env, k, i) then Flood else Listen
    ensures !(Recovers(env, k, i) && Changes(env, k, i))
  {
    hide Round, Received, CanSleep, Changes;
    SlotOf(env, k, i);
    SleepIsNews(env, k, i);
    HeardIs(env, k, i);
    CeProgress.NobodySleeps(env, k);
  }

  /** At the start only the initiator floods, and nobody has made progress yet. */
  lemma StartsExactly(env: CeEnv, i: nat)
    requires ValidEnv(env) && i < |env.g|
    ensures Round(env, 0)[i].state == (if i == env.initiator then Flood else Listen)
    ensures Round(env, 0)[i].lastProgress == env.start
  {
  }

  lemma ProgressStep(env: CeEnv, k: nat, i: nat)
    requires ValidEnv(env) && i < |env.g|
    ensures Round(env, k + 1)[i].lastProgress
         == if Recovers(env, k, i) || Changes(env, k, i) then env.start + k else Round(env, k)[i].lastProgress
  {
    hide Round, Received, CanSleep, Changes;
    SlotOf(env, k, i);
    HeardIs(env, k, i);
  }

  /** The last progress of a node is the last slot in which it recovered or came to say something new, if any. */
  lemma {:induction false} ProgressExactly(env: CeEnv, k: nat, i: nat)
    requires ValidEnv(env) && i < |env.g|
    ensures var last := Round(env, k)[i].lastProgress;
      if exists q: nat :: q < k && (Recovers(env, q, i) || Changes(env, q, i))
      then exists q: nat :: q < k && last == env.start + q && (Recovers(env, q, i) || Changes(env, q, i))
             && forall m: nat :: q < m < k ==> !Recovers(env, m, i) && !Changes(env, m, i)
      else last == env.start
  {
    hide Round, Recovers, Changes;
    if k == 0 {
      StartsExactly(env, i);
    } else {
      ProgressExactly(env, k - 1, i);
      ProgressStep(env, k - 1, i);
    }
  }

  /** A node's goal flag is what it was before the round until it comes to say something new, and then says so. */
  lemma {:induction false} GoalFlagExactly(env: CeEnv, k: nat, i: nat)
    requires ValidEnv(env) && i < |env.g|
    ensures Round(env, k)[i].goalReached
         == if exists q: nat :: q < k && Changes(env, q, i) then NodeGoal(env.proto, PayloadsAt(env, k)[i])
            else env.goals[i]
  {
    hide Round, Changes, NodeGoal;
    if k == 0 {
      FlagAtStart(env, i);
    } else {
      GoalFlagExactly(env, k - 1, i);
      GoalFlagStep(env, k - 1, i);
      if !Changes(env, k - 1, i) {
        Unchanged(env, k - 1, i);
      }
    }
  }

  lemma FlagAtStart(env: CeEnv, i: nat)
    requires ValidEnv(env) && i < |env.g|
    ensures Round(env, 0)[i].goalReached == env.goals[i]
  {
  }

  lemma GoalFlagStep(env: CeEnv, k: nat, i: nat)
    requires ValidEnv(env) && i < |env.g|
    ensures Round(env, k + 1)[i].goalReached
         == if Changes(env, k, i) then NodeGoal(env.proto, PayloadsAt(env, k + 1)[i]) else Round(env, k)[i].goalReached
  {
    hide Round, Received, CanSleep, Changes, NodeGoal, TimesOut;
    SlotOf(env, k, i);
  }

  lemma Unchanged(env: CeEnv, k: nat, i: nat)
    requires ValidEnv(env) && i < |env.g| && !Changes(env, k, i)
    ensures PayloadsAt(env, k + 1)[i] == PayloadsAt(env, k)[i]
  {
  }

  /**
    Any nodes in any slot: a node whose payload allows sleeping floods in the next slot, unless
    it floods in this one: then it sleeps.  What it hears and its timeouts make no difference.
   */
  lemma CompletedNode(env: CeEnv, slot: nat, ns: seq<CeNode>, i: nat)
    requires |ns| == |env.g| && i < |ns| && MergeableAll(env.proto, ns)
    requires CanSleep(env.proto, Received(env, slot, ns, i).0)
    ensures NextNode(env, slot, ns, i).state == if ns[i].state == Flood then Sleep else Flood
  {
    hide Received, CanSleep;
  }

  // ---------------------------------------------------------------- recovery helps

  /** In the `k`-th slot every neighbour of `v` that floods has something to say, and gets through. */
  ghost predicate ClearAround(env: CeEnv, k: nat, v: nat)
    requires ValidEnv(env) && v < |env.g|
  {
    forall u: nat :: u < |env.g| && v in env.g[u] && Round(env, k)[u].state == Flood ==>
      PayloadsAt(env, k)[u] != Blank && !env.lost(env.start + k, v, u)
  }

  /** A node that has heard nothing hears something from any neighbour that floods, if none of them is lost or blank. */
  lemma ClearIsHeard(env: CeEnv, k: nat, u: nat, v: nat)
    requires ValidEnv(env) && u < |env.g| && v < |env.g| && v in env.g[u]
    requires Round(env, k)[u].state == Flood && Round(env, k)[v].state == Listen && !Recovers(env, k, v)
    requires PayloadsAt(env, k)[v] == Blank && ClearAround(env, k, v)
    ensures PayloadsAt(env, k + 1)[v] != Blank
  {
    hide Round, Merge, Captured, Shaped, Recovers;
    RoundStep(env, k);
    HeardIs(env, k, v);
    var ns := Round(env, k);
    CaptureSound(env, env.start + k, ns, v);
    var h := StepPayload(env, env.start + k, ns, v);
    assert h == Captured(env, env.start + k, ns, v) && h.Some?;
    MergeShaped(env.proto, ns[v].payload, ns[h.value].payload, v, h.value);
  }

  lemma BlankMeansNoGoal(env: CeEnv, k: nat, v: nat)
    requires ValidEnv(env) && v < |env.g| && PayloadsAt(env, k)[v] == Blank
    ensures forall j :: 0 <= j <= k ==> !GoalAt(env, j)
  {
    hide Round;
    forall j: nat | j <= k ensures !GoalAt(env, j) {
      CeProgress.NeverForgets(env, j, k, v);
      assert PayloadsAt(env, j)[v] == Blank;
    }
  }

  /**
    A stalled round gets going again: when a node that has heard something recovers, a
    neighbour that has not, and listens, hears something in the next slot, if the losses have
    stopped there and no other neighbour floods nothing.
   */
  lemma RecoveryInforms(env: CeEnv, k: nat, u: nat, v: nat)
    requires ValidEnv(env) && u < |env.g| && v < |env.g| && v in env.g[u]
    requires Recovers(env, k, u) && PayloadsAt(env, k + 1)[v] == Blank
    requires Round(env, k + 1)[v].state == Listen && !Recovers(env, k + 1, v) && ClearAround(env, k + 1, v)
    ensures PayloadsAt(env, k + 2)[v] != Blank
    ensures env.proto.TomCE? ==> NodeGoal(env.proto, PayloadsAt(env, k + 2)[v])
  {
    hide Round, Recovers, ClearAround;
    BlankMeansNoGoal(env, k + 1, v);
    FloodsExactly(env, k, u);
    ClearIsHeard(env, k + 1, u, v);
    assert Shaped(env.proto, Round(env, k + 2)[v].payload, v);
  }

  /** The round of two nodes in which only the first slot is lost and only the initiator's coin says flood. */
  ghost predicate Stalled(env: CeEnv) {
    && ValidEnv(env) && env.g == [{1}, {0}] && env.initiator == 0 && env.proto.TomCE?
    && env.listenTimeout == 5 && env.maxRoundSlots == 20
    && (forall s: nat, i: nat :: env.coin(s, i) <==> i == 0)
    && (forall s: nat, t: nat, u: nat :: env.lost(s, t, u) <==> s == env.start)
  }

  /** Between the lost slot and the timeout both nodes listen, and nothing moves. */
  lemma {:induction false} StillStalled(env: CeEnv, k: nat)
    requires Stalled(env) && 1 <= k <= 5
    ensures forall i :: 0 <= i < 2 ==> Round(env, k)[i].state == Listen && Round(env, k)[i].lastProgress == env.start
    ensures PayloadsAt(env, k)[0] == env.payloads[0] != Blank && PayloadsAt(env, k)[1] == Blank
  {
    hide Round;
    var q := k - 1;
    if q > 0 {
      StillStalled(env, q);
    } else {
      StalledStart(env);
    }
    BlankMeansNoGoal(env, q, 1);
    forall i: nat | i < 2
      ensures !Recovers(env, q, i) && !Changes(env, q, i)
      ensures Round(env, k)[i].state == Listen && Round(env, k)[i].lastProgress == env.start
    {
      NothingHeard(env, q, i);
      FloodsExactly(env, q, i);
      ProgressStep(env, q, i);
    }
  }

  lemma StalledStart(env: CeEnv)
    requires Stalled(env)
    ensures forall i :: 0 <= i < 2 ==> Round(env, 0)[i].state == if i == 0 then Flood else Listen
    ensures forall i :: 0 <= i < 2 ==> Round(env, 0)[i].lastProgress == env.start
    ensures PayloadsAt(env, 0)[0] == env.payloads[0] != Blank && PayloadsAt(env, 0)[1] == Blank
  {
    OpeningShaped(env.proto, 0);
  }

  /** A slot in which no transmission gets through changes nothing. */
  lemma NothingHeard(env: CeEnv, k: nat, i: nat)
    requires ValidEnv(env) && i < |env.g|
    requires forall u: nat :: u < |env.g| && Round(env, k)[u].state == Flood && i in env.g[u] ==>
      env.lost(env.start + k, i, u)
    ensures !Changes(env, k, i)
  {
    hide Round, Merge, Captured, Shaped, Recovers, Received;
    SlotOf(env, k, i);
    CaptureSound(env, env.start + k, Round(env, k), i);
    var h := StepPayload(env, env.start + k, Round(env, k), i);
    HeardIs(env, k, i);
  }

  /** It is the recovery that ends such a round: the timeout in slot 5, the message in slot 6, the goal in slot 7. */
  lemma StalledRoundRecovers(env: CeEnv)
    requires Stalled(env)
    ensures Steps(env, 0) == 7 && GoalMet(env) && TickedSlots(env) == 8
    ensures Outcome(env.proto, PayloadsAt(env, 7)) == Metrics.Committed
  {
    hide Round;
    StillStalled(env, 5);
    BlankMeansNoGoal(env, 5, 1);
    FloodsExactly(env, 5, 0);
    FloodsExactly(env, 5, 1);
    assert Recovers(env, 5, 0) && !Recovers(env, 5, 1);
    NothingHeard(env, 5, 1);
    Unchanged(env, 5, 1);
    CeProgress.NeverForgets(env, 5, 6, 0);
    BlankMeansNoGoal(env, 6, 1);
    assert !Recovers(env, 6, 1);
    RecoveryInforms(env, 5, 0, 1);
    CeProgress.NeverForgets(env, 6, 7, 0);
    assert Shaped(env.proto, Round(env, 7)[0].payload, 0) && Shaped(env.proto, Round(env, 7)[1].payload, 1);
    assert GoalAt(env, 7);
  }
}
