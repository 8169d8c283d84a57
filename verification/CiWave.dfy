/**
  The constructive-interference flood as a function of time.

  `Wave(env, k)` is the radio state of every node at the start of slot `k` of a
  round.  Losses are an oracle: `env.lost(slot, src, dst)` says whether the
  transmission of `src` in `slot` is dropped at `dst`, so a statement for all
  `env` is a statement for every outcome of the random draws.
 */
module CiWave {
  import opened Wrappers
  import opened Network
  import opened Nodes

  datatype Radio = Radio(state: NodeState, remaining: nat)

  datatype FloodEnv =
    FloodEnv(g: Graph, initiator: nat, repeats: nat, start: nat, lost: (nat, nat, nat) -> bool)

  predicate ValidEnv(env: FloodEnv) {
    ValidGraph(env.g) && env.initiator < |env.g| && env.repeats >= 1
  }

  ghost predicate Lossless(env: FloodEnv) {
    forall slot, u, v :: !env.lost(slot, u, v)
  }

  function Launch(env: FloodEnv): seq<Radio> {
    seq(|env.g|, i => if i == env.initiator then Radio(Flood, env.repeats) else Radio(Listen, 0))
  }

  /** Some flooding node's transmission gets through to `v` in `slot`. */
  ghost predicate Hears(env: FloodEnv, slot: nat, rs: seq<Radio>, v: nat) {
    exists u :: 0 <= u < |env.g| && u < |rs| && rs[u].state == Flood && v in env.g[u] && !env.lost(slot, u, v)
  }

  ghost function NextRadio(env: FloodEnv, slot: nat, rs: seq<Radio>, v: nat): Radio
    requires v < |rs|
  {
    var r := rs[v];
    if r.state == Flood then
      if r.remaining <= 1 then Radio(Sleep, 0) else Radio(Flood, r.remaining - 1)
    else if r.state == Listen && Hears(env, slot, rs, v) then Radio(Flood, env.repeats)
    else r
  }

  ghost function NextRadios(env: FloodEnv, slot: nat, rs: seq<Radio>): (rs': seq<Radio>)
    ensures |rs'| == |rs|
  {
    seq(|rs|, v requires 0 <= v < |rs| => NextRadio(env, slot, rs, v))
  }

  ghost function Wave(env: FloodEnv, k: nat): (rs: seq<Radio>)
    ensures |rs| == |env.g|
  {
    if k == 0 then Launch(env) else NextRadios(env, env.start + k - 1, Wave(env, k - 1))
  }

  ghost predicate AnyFlood(rs: seq<Radio>) {
    exists u :: 0 <= u < |rs| && rs[u].state == Flood
  }

  /** How many slots, from the `k`-th on, a round limited to `limit` slots has run when it ends. */
  ghost function RoundLength(env: FloodEnv, limit: nat, k: nat): (len: nat)
    requires k <= limit
    ensures k <= len <= limit
    ensures forall j :: k < j < len ==> AnyFlood(Wave(env, j))
    ensures len < limit ==> k < len && !AnyFlood(Wave(env, len))
    decreases limit - k
  {
    if k == limit then k
    else if !AnyFlood(Wave(env, k + 1)) then k + 1
    else RoundLength(env, limit, k + 1)
  }

  /** Slots among the first `k` that node `v` spends in state `s`. */
  ghost function SlotsIn(env: FloodEnv, v: nat, k: nat, s: NodeState): nat
    requires v < |env.g|
  {
    if k == 0 then 0
    else SlotsIn(env, v, k - 1, s) + if Wave(env, k - 1)[v].state == s then 1 else 0
  }

  // ---------------------------------------------------------------- floods under arbitrary loss

  /** A node that has left Listen by slot `k` is within `k` hops of the initiator. */
  lemma {:induction false} WaveInsideBall(env: FloodEnv, k: nat, v: nat)
    requires ValidEnv(env) && v < |env.g| && Wave(env, k)[v].state != Listen
    ensures v in Ball(env.g, env.initiator, k)
  {
    if k > 0 {
      var rs := Wave(env, k - 1);
      if rs[v].state != Listen {
        WaveInsideBall(env, k - 1, v);
      } else {
        var u :| 0 <= u < |env.g| && rs[u].state == Flood && v in env.g[u]
                 && !env.lost(env.start + k - 1, u, v);
        WaveInsideBall(env, k - 1, u);
      }
    }
  }

  /** The repeat counter of a flooding node is live, so decrementing it never underflows. */
  lemma {:induction false} WaveCounters(env: FloodEnv, k: nat, v: nat)
    requires ValidEnv(env) && v < |env.g|
    ensures var r := Wave(env, k)[v];
            if r.state == Flood then 1 <= r.remaining <= env.repeats else r.remaining == 0
  {
    if k > 0 {
      WaveCounters(env, k - 1, v);
    }
  }

  /** What a node has transmitted so far and what it still will add up to `repeats` once it is in the flood. */
  lemma {:induction false} FloodBudget(env: FloodEnv, k: nat, v: nat)
    requires ValidEnv(env) && v < |env.g|
    ensures var r := Wave(env, k)[v];
            SlotsIn(env, v, k, Flood) + r.remaining == if r.state == Listen then 0 else env.repeats
  {
    if k > 0 {
      FloodBudget(env, k - 1, v);
      WaveCounters(env, k - 1, v);
    }
  }

  /** A node asleep at slot `k` has been charged exactly `repeats` flood slots. */
  lemma SleepersPaidInFull(env: FloodEnv, k: nat, v: nat)
    requires ValidEnv(env) && v < |env.g| && Wave(env, k)[v].state == Sleep
    ensures SlotsIn(env, v, k, Flood) == env.repeats
  {
    FloodBudget(env, k, v);
    WaveCounters(env, k, v);
  }

  /** In the `k`-th slot some node that floods gets through to `v`. */
  ghost predicate Hit(env: FloodEnv, k: nat, v: nat) {
    exists u: nat :: u < |env.g| && Wave(env, k)[u].state == Flood && v in env.g[u] && !env.lost(env.start + k, u, v)
  }

  /** The slot after which node `v` is in the flood: the initiator is from the start. */
  ghost function EntersAt(env: FloodEnv, k: nat, v: nat): (d: Option<nat>)
    requires ValidEnv(env) && v < |env.g|
    ensures d.Some? ==> d.value <= k
  {
    if v == env.initiator then Some(0)
    else if k == 0 then None
    else if EntersAt(env, k - 1, v).Some? then EntersAt(env, k - 1, v)
    else if Hit(env, k - 1, v) then Some(k)
    else None
  }

  /**
    Under any loss: a node listens until the first slot in which somebody gets through to it,
    floods in the `repeats` slots after that, and then sleeps.
   */
  lemma {:induction false} WaveExactly(env: FloodEnv, k: nat, v: nat)
    requires ValidEnv(env) && v < |env.g|
    ensures Wave(env, k)[v]
         == if EntersAt(env, k, v).Some? then WaveFront(EntersAt(env, k, v).value, k, env.repeats) else Radio(Listen, 0)
  {
    if k > 0 {
      WaveExactly(env, k - 1, v);
      hide Wave;
      WaveStep(env, k - 1, v);
    }
  }

  lemma WaveStep(env: FloodEnv, k: nat, v: nat)
    requires ValidEnv(env) && v < |env.g|
    ensures var r := Wave(env, k)[v];
      Wave(env, k + 1)[v]
      == if r.state == Flood then (if r.remaining <= 1 then Radio(Sleep, 0) else Radio(Flood, r.remaining - 1))
         else if r.state == Listen && Hit(env, k, v) then Radio(Flood, env.repeats) else r
  {
  }

  // ---------------------------------------------------------------- repeats against losses

  /** Of any `repeats` transmissions in a row over a link at least one gets through. */
  ghost predicate Patient(env: FloodEnv) {
    forall slot: nat, u: nat, v: nat :: u < |env.g| && v in env.g[u] ==> GetsThrough(env, slot, u, v)
  }

  ghost predicate GetsThrough(env: FloodEnv, slot: nat, u: nat, v: nat) {
    exists q: nat :: slot <= q < slot + env.repeats && !env.lost(q, u, v)
  }

  lemma {:induction false} EntersOnce(env: FloodEnv, k: nat, m: nat, v: nat)
    requires ValidEnv(env) && v < |env.g| && k <= m && EntersAt(env, k, v).Some?
    ensures EntersAt(env, m, v) == EntersAt(env, k, v)
  {
    hide Hit;
    if k < m {
      EntersOnce(env, k, m - 1, v);
    }
  }

  /** Whoever floods `repeats` times over patient links is heard by all its neighbours. */
  lemma NeighbourEnters(env: FloodEnv, u: nat, v: nat, e: nat)
    requires ValidEnv(env) && Patient(env) && u < |env.g| && v in env.g[u] && EntersAt(env, e, u) == Some(e)
    ensures v < |env.g| && EntersAt(env, e + env.repeats, v).Some?
  {
    hide Wave;
    assert GetsThrough(env, env.start + e, u, v);
    var q: nat :| env.start + e <= q < env.start + e + env.repeats && !env.lost(q, u, v);
    var k := q - env.start;
    EntersOnce(env, e, k, u);
    WaveExactly(env, k, u);
    assert Hit(env, k, v);
    EntersOnce(env, k + 1, e + env.repeats, v);
  }

  lemma {:induction false} EntersWhen(env: FloodEnv, k: nat, v: nat)
    requires ValidEnv(env) && v < |env.g| && EntersAt(env, k, v).Some?
    ensures EntersAt(env, EntersAt(env, k, v).value, v) == EntersAt(env, k, v)
  {
    hide Hit;
    if v != env.initiator && EntersAt(env, k - 1, v).Some? {
      EntersWhen(env, k - 1, v);
    }
  }

  /** Over patient links a node `d` hops away is in the flood after `d * repeats` slots at the latest. */
  lemma {:induction false} PatientWave(env: FloodEnv, d: nat, v: nat)
    requires ValidEnv(env) && Patient(env) && AtDistance(env.g, env.initiator, d, v)
    ensures EntersAt(env, d * env.repeats, v).Some?
  {
    hide Hit, Wave, Patient;
    if d > 0 {
      var u := Predecessor(env.g, env.initiator, d, v);
      PatientWave(env, d - 1, u);
      var k := (d - 1) * env.repeats;
      var e := EntersAt(env, k, u).value;
      EntersWhen(env, k, u);
      NeighbourEnters(env, u, v, e);
      assert d * env.repeats == k + env.repeats;
      EntersOnce(env, e + env.repeats, d * env.repeats, v);
    }
  }

  /** Once nobody floods, nobody ever enters. */
  lemma {:induction false} QuietForever(env: FloodEnv, k: nat, m: nat, v: nat)
    requires ValidEnv(env) && v < |env.g| && k <= m && !AnyFlood(Wave(env, k))
    ensures EntersAt(env, m, v) == EntersAt(env, k, v)
    ensures !AnyFlood(Wave(env, m))
  {
    if k < m {
      QuietForever(env, k, m - 1, v);
      StaysQuiet(env, m - 1);
      assert !Hit(env, m - 1, v);
    }
  }

  lemma StaysQuiet(env: FloodEnv, k: nat)
    requires ValidEnv(env) && !AnyFlood(Wave(env, k))
    ensures !AnyFlood(Wave(env, k + 1))
  {
    var rs := Wave(env, k + 1);
    forall v | 0 <= v < |env.g| ensures rs[v].state != Flood {
      WaveStep(env, k, v);
    }
  }

  /** Transmissions still to come if every listening node were yet to flood. */
  ghost function Potential(rs: seq<Radio>, repeats: nat): nat {
    if rs == [] then 0
    else
      var r := rs[|rs| - 1];
      Potential(rs[..|rs| - 1], repeats)
      + match r.state
        case Listen => repeats
        case Flood => r.remaining
        case Sleep => 0
  }

  /** One node's transition from slot to slot. */
  predicate RadioStep(r: Radio, r': Radio, repeats: nat) {
    match r.state
    case Listen => r' == r || r' == Radio(Flood, repeats)
    case Sleep => r' == r
    case Flood =>
      r.remaining >= 1 && r' == if r.remaining == 1 then Radio(Sleep, 0) else Radio(Flood, r.remaining - 1)
  }

  /** The potential never rises from `rs` to `rs'`, and falls when some node was flooding. */
  lemma {:induction false} PotentialFalls(rs: seq<Radio>, rs': seq<Radio>, repeats: nat)
    requires |rs| == |rs'| && repeats >= 1
    requires forall v :: 0 <= v < |rs| ==> RadioStep(rs[v], rs'[v], repeats)
    ensures Potential(rs', repeats) <= Potential(rs, repeats)
    ensures AnyFlood(rs) ==> Potential(rs', repeats) < Potential(rs, repeats)
  {
    if rs != [] {
      var n := |rs| - 1;
      PotentialFalls(rs[..n], rs'[..n], repeats);
      if AnyFlood(rs) && rs[n].state != Flood {
        var u :| 0 <= u < |rs| && rs[u].state == Flood;
        assert rs[..n][u].state == Flood;
      }
    }
  }

  lemma {:induction false} PotentialOfListeners(rs: seq<Radio>, repeats: nat)
    requires forall v :: 0 <= v < |rs| ==> rs[v].state == Listen || rs[v] == Radio(Flood, repeats)
    ensures Potential(rs, repeats) == |rs| * repeats
  {
    if rs != [] {
      PotentialOfListeners(rs[..|rs| - 1], repeats);
    }
  }

  lemma {:induction false} WavePotential(env: FloodEnv, k: nat)
    requires ValidEnv(env)
    requires forall j :: 0 <= j < k ==> AnyFlood(Wave(env, j))
    ensures Potential(Wave(env, k), env.repeats) + k <= |env.g| * env.repeats
  {
    hide Potential, RadioStep, AnyFlood, NextRadios;
    if k == 0 {
      LaunchPotential(env);
    } else {
      WavePotential(env, k - 1);
      WaveSteps(env, k - 1);
      assert AnyFlood(Wave(env, k - 1));
      PotentialFalls(Wave(env, k - 1), Wave(env, k), env.repeats);
    }
  }

  lemma LaunchPotential(env: FloodEnv)
    requires ValidEnv(env)
    ensures Potential(Launch(env), env.repeats) == |env.g| * env.repeats
  {
    PotentialOfListeners(Launch(env), env.repeats);
  }

  lemma WaveSteps(env: FloodEnv, k: nat)
    requires ValidEnv(env)
    ensures forall v :: 0 <= v < |env.g| ==> RadioStep(Wave(env, k)[v], Wave(env, k + 1)[v], env.repeats)
  {
    forall v | 0 <= v < |env.g| ensures RadioStep(Wave(env, k)[v], Wave(env, k + 1)[v], env.repeats) {
      WaveCounters(env, k, v);
    }
  }

  lemma LaunchFloods(env: FloodEnv)
    requires ValidEnv(env)
    ensures Wave(env, 0) == Launch(env) && AnyFlood(Wave(env, 0))
  {
    assert Wave(env, 0)[env.initiator].state == Flood;
  }

  /** Whatever is lost, a round never runs longer than `N * repeats` slots. */
  lemma RoundBounded(env: FloodEnv, limit: nat)
    requires ValidEnv(env)
    ensures RoundLength(env, limit, 0) <= |env.g| * env.repeats
  {
    LaunchFloods(env);
    WavePotential(env, RoundLength(env, limit, 0));
  }

  // ---------------------------------------------------------------- the lossless wave

  /** The state of a node at hop distance `d` at the start of slot `k`. */
  function WaveFront(d: nat, k: nat, repeats: nat): Radio {
    if k < d then Radio(Listen, 0)
    else if k < d + repeats then Radio(Flood, repeats - (k - d))
    else Radio(Sleep, 0)
  }

  /**
    Without losses the flood is exactly the breadth-first wave: a node `d` hops
    away listens before slot `d`, floods in slots `d .. d + repeats - 1` and
    sleeps from then on.
   */
  lemma {:induction false} LosslessWave(env: FloodEnv, k: nat, d: nat, v: nat)
    requires ValidEnv(env) && Lossless(env)
    requires AtDistance(env.g, env.initiator, d, v)
    ensures Wave(env, k)[v] == WaveFront(d, k, env.repeats)
    decreases k
  {
    if k < d {
      BallGrows(env.g, env.initiator, k, d - 1);
      StillListening(env, k, v);
    } else if k == d > 0 {
      FrontArrives(env, k, v);
    } else if k > d {
      LosslessWave(env, k - 1, d, v);
    }
  }

  /** A node out of the ball of slot `k` is still listening. */
  lemma StillListening(env: FloodEnv, k: nat, v: nat)
    requires ValidEnv(env) && v < |env.g| && v !in Ball(env.g, env.initiator, k)
    ensures Wave(env, k)[v] == Radio(Listen, 0)
  {
    WaveCounters(env, k, v);
    if Wave(env, k)[v].state != Listen {
      WaveInsideBall(env, k, v);
    }
  }

  /** A node `k` hops away hears its predecessor in slot `k - 1`. */
  lemma {:induction false} FrontArrives(env: FloodEnv, k: nat, v: nat)
    requires ValidEnv(env) && Lossless(env) && k > 0
    requires AtDistance(env.g, env.initiator, k, v)
    ensures Wave(env, k)[v] == Radio(Flood, env.repeats)
    decreases k, 0
  {
    var u := Predecessor(env.g, env.initiator, k, v);
    LosslessWave(env, k - 1, k - 1, u);
    StillListening(env, k - 1, v);
    var rs := Wave(env, k - 1);
    assert rs[u].state == Flood && !env.lost(env.start + k - 1, u, v);
    assert Hears(env, env.start + k - 1, rs, v);
  }

  /** Without losses somebody floods in each of the first `ecc + repeats` slots, and nobody after. */
  lemma LosslessActivity(env: FloodEnv, k: nat)
    requires ValidEnv(env) && Lossless(env)
    ensures AnyFlood(Wave(env, k)) <==> k < Ecc(env.g, env.initiator) + env.repeats
  {
    var g, s, e := env.g, env.initiator, Ecc(env.g, env.initiator);
    if k < e + env.repeats {
      var d := if k < e then k else e;
      EccIsLargestDistance(g, s, d);
      var v: nat :| AtDistance(g, s, d, v);
      LosslessWave(env, k, d, v);
      assert Wave(env, k)[v].state == Flood;
    } else if AnyFlood(Wave(env, k)) {
      var v :| 0 <= v < |g| && Wave(env, k)[v].state == Flood;
      WaveInsideBall(env, k, v);
      var d := DistanceExists(g, s, k, v);
      EccIsLargestDistance(g, s, d);
      LosslessWave(env, k, d, v);
    }
  }

  /**
    A lossless round given `ecc + repeats` slots returns after exactly that many,
    with every reachable node asleep and every other node still listening.
   */
  lemma LosslessRound(env: FloodEnv, limit: nat)
    requires ValidEnv(env) && Lossless(env)
    requires Ecc(env.g, env.initiator) + env.repeats <= limit
    ensures RoundLength(env, limit, 0) == Ecc(env.g, env.initiator) + env.repeats
    ensures forall v :: 0 <= v < |env.g| ==>
      Wave(env, RoundLength(env, limit, 0))[v].state
        == if v in Ball(env.g, env.initiator, Ecc(env.g, env.initiator)) then Sleep else Listen
  {
    var g, s, e := env.g, env.initiator, Ecc(env.g, env.initiator);
    var len := RoundLength(env, limit, 0);
    LosslessActivity(env, len);
    LosslessActivity(env, e + env.repeats);
    forall v | 0 <= v < |g|
      ensures Wave(env, len)[v].state == if v in Ball(g, s, e) then Sleep else Listen
    {
      BallSaturates(g, s, len);
      if v in Ball(g, s, e) {
        var d := DistanceExists(g, s, e, v);
        LosslessWave(env, len, d, v);
      } else if Wave(env, len)[v].state != Listen {
        WaveInsideBall(env, len, v);
      }
    }
  }
}
