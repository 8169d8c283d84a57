/** Growing a scale-free network by preferential attachment. */
module Topology {
  import opened Network

  /** Undirected, without loops, and with edges among the first `k` nodes only. */
  ghost predicate Among(g: Graph, k: nat) {
    && k <= |g|
    && (forall u: nat, v: nat :: u < |g| && v in g[u] ==> u < k && v < k && u != v)
    && (forall u: nat, v: nat :: u < |g| && v < |g| && v in g[u] ==> u in g[v])
  }

  /** The degrees of the first `k` nodes, added up. */
  function DegreeSum(g: Graph, k: nat): nat
    requires k <= |g|
  {
    if k == 0 then 0 else DegreeSum(g, k - 1) + |g[k - 1]|
  }

  /** The first `k` nodes all reach one another. */
  ghost predicate ConnectedUpTo(g: Graph, k: nat)
    requires ValidGraph(g) && k <= |g|
  {
    forall s: nat, v: nat :: s < k && v < k ==> Reaches(g, s, v)
  }

  // ---------------------------------------------------------------- complete graphs

  /** All edges among the first `k` of `n` nodes. */
  function Complete(n: nat, k: nat): (g: Graph)
    requires k <= n
    ensures |g| == n
    ensures forall u: nat :: u < n ==> g[u] == if u < k then Upto(k) - {u} else {}
  {
    seq(n, (u: nat) requires u < n => if u < k then Upto(k) - {u} else {})
  }

  lemma CompleteAmong(n: nat, k: nat)
    requires k <= n
    ensures Among(Complete(n, k), k) && ValidGraph(Complete(n, k))
  {
    var g := Complete(n, k);
    assert forall u: nat, v: nat :: u < n && v in g[u] ==> u < k && v < k && u != v;
  }

  lemma CompleteIs(n: nat, k: nat)
    requires k <= n
    ensures Among(Complete(n, k), k) && ValidGraph(Complete(n, k)) && ConnectedUpTo(Complete(n, k), k)
    ensures forall u :: 0 <= u < k ==> |Complete(n, k)[u]| == k - 1
    ensures forall u :: k <= u < n ==> Complete(n, k)[u] == {}
  {
    CompleteAmong(n, k);
    hide Among, Upto, Reaches;
    var g := Complete(n, k);
    UptoSize(k);
    forall s: nat, v: nat | s < k && v < k ensures Reaches(g, s, v) {
      if s == v {
        ReachesSelf(g, s);
      } else {
        ReachesNext(g, s, v);
      }
    }
  }

  lemma ReachesSelf(g: Graph, s: nat)
    requires ValidGraph(g) && s < |g|
    ensures Reaches(g, s, s)
  {
    assert s in Ball(g, s, 0);
  }

  lemma {:induction false} CompleteDegrees(n: nat, m: nat, k: nat)
    requires 1 <= m <= n && k <= n
    ensures DegreeSum(Complete(n, m), k) == Times(if k < m then k else m, m - 1)
  {
    CompleteIs(n, m);
    hide Complete, Among, ConnectedUpTo;
    if k > 0 {
      CompleteDegrees(n, m, k - 1);
    }
  }

  /** `k` times `d`. */
  function Times(k: nat, d: nat): (p: nat)
    ensures p == k * d
  {
    if k == 0 then 0
    else
      assert k * d == (k - 1) * d + d;
      Times(k - 1, d) + d
  }

  // ---------------------------------------------------------------- attaching one node

  /** The graph with node `i` linked to the nodes `ts`. */
  function Attached(g: Graph, i: nat, ts: set<nat>): (g': Graph)
    ensures |g'| == |g|
  {
    seq(|g|, (u: nat) requires u < |g| => if u == i then ts else if u in ts then g[u] + {i} else g[u])
  }

  /** A node not placed yet has no edges. */
  lemma NoEdgesYet(g: Graph, i: nat)
    requires i < |g| && Among(g, i)
    ensures g[i] == {} && forall u :: 0 <= u < |g| ==> i !in g[u]
  {
    assert forall v: nat :: v !in g[i];
  }

  lemma AttachedAmong(g: Graph, i: nat, ts: set<nat>)
    requires i < |g| && Among(g, i) && forall t :: t in ts ==> t < i
    ensures Among(Attached(g, i, ts), i + 1) && ValidGraph(Attached(g, i, ts))
  {
    NoEdgesYet(g, i);
  }

  lemma AttachedConnected(g: Graph, i: nat, ts: set<nat>)
    requires i < |g| && Among(g, i) && ValidGraph(g) && ConnectedUpTo(g, i)
    requires ts != {} && forall t :: t in ts ==> t < i
    ensures ValidGraph(Attached(g, i, ts)) && ConnectedUpTo(Attached(g, i, ts), i + 1)
  {
    AttachedAmong(g, i, ts);
    var g' := Attached(g, i, ts);
    var t :| t in ts;
    ReachesNext(g', i, t);
    ReachesNext(g', t, i);
    NoEdgesYet(g, i);
    forall s: nat, v: nat | s < i && v < i ensures Reaches(g', s, v) {
      assert Reaches(g, s, v);
      var d: nat :| v in Ball(g, s, d);
      BallsWiden(g, g', s, d);
    }
    hide Reaches, Attached, Among;
    forall s: nat, v: nat | s < i + 1 && v < i + 1 ensures Reaches(g', s, v) {
      if s < i && v == i {
        ReachesThrough(g', s, t, i);
      } else if s == i && v < i {
        ReachesThrough(g', i, t, v);
      } else if s == i {
        ReachesThrough(g', i, t, i);
      }
    }
  }

  /** Attaching adds two to the degree sum for every new edge. */
  lemma {:induction false} AttachedDegrees(g: Graph, i: nat, ts: set<nat>, k: nat)
    requires i < |g| && Among(g, i) && k <= |g| && forall t :: t in ts ==> t < i
    ensures DegreeSum(Attached(g, i, ts), k)
         == DegreeSum(g, k) + |set t | t in ts && t < k| + if k > i then |ts| else 0
  {
    if k > 0 {
      AttachedDegrees(g, i, ts, k - 1);
      var u := k - 1;
      var before, after := set t | t in ts && t < u, set t | t in ts && t < k;
      assert after == if u in ts then before + {u} else before;
      NoEdgesYet(g, i);
      assert u in ts ==> |g[u] + {i}| == |g[u]| + 1;
    } else {
      assert (set t | t in ts && t < 0) == {};
    }
  }

  lemma AttachedSum(g: Graph, i: nat, ts: set<nat>)
    requires i < |g| && Among(g, i) && forall t :: t in ts ==> t < i
    ensures DegreeSum(Attached(g, i, ts), |g|) == DegreeSum(g, |g|) + 2 * |ts|
  {
    AttachedDegrees(g, i, ts, |g|);
    assert (set t | t in ts && t < |g|) == ts;
  }

  // ---------------------------------------------------------------- preferential attachment

  /** Every node occurs in the list as often as it has neighbours. */
  ghost predicate Weighted(g: Graph, repeated: seq<nat>) {
    && (forall v: nat :: v < |g| ==> multiset(repeated)[v] == |g[v]|)
    && (forall k :: 0 <= k < |repeated| ==> repeated[k] < |g|)
  }

  /** The network once `i` nodes have been placed. */
  ghost predicate Grown(g: Graph, repeated: seq<nat>, i: nat, m: nat) {
    && i >= m && Among(g, i) && ValidGraph(g)
    && Weighted(g, repeated)
    && DegreeSum(g, |g|) == (if m == 0 then 0 else m * (m - 1)) + 2 * m * (i - m)
    && (m >= 2 ==> ConnectedUpTo(g, i) && forall v :: 0 <= v < i ==> g[v] != {})
  }

  lemma CountsSnoc(xs: seq<nat>, x: nat)
    ensures multiset(xs + [x]) == multiset(xs)[x := multiset(xs)[x] + 1]
  {
  }

  /** The first `m` nodes: a complete graph, each node listed once per neighbour. */
  method Core(n: nat, m: nat) returns (g: Graph, repeated: seq<nat>)
    requires m < n && m != 1
    ensures |g| == n && Grown(g, repeated, m, m)
  {
    g, repeated := seq(n, _ => {}), [];
    for i := 0 to m
      invariant |g| == n
      invariant forall u :: 0 <= u < i ==> g[u] == Complete(n, m)[u]
      invariant forall u :: i <= u < n ==> g[u] == {}
      invariant forall k :: 0 <= k < |repeated| ==> repeated[k] < i
      invariant forall v: nat :: multiset(repeated)[v] == if v < i then m - 1 else 0
    {
      var row: set<nat> := {};
      for j := 0 to m
        invariant row == Upto(j) - {i}
      {
        if i != j {
          row := row + {j};
        }
      }
      g := g[i := row];
      repeated := PushTimes(repeated, i, m - 1);
    }
    CoreGrown(g, repeated, n, m);
  }

  method PushTimes(xs: seq<nat>, x: nat, times: nat) returns (ys: seq<nat>)
    ensures multiset(ys) == multiset(xs)[x := multiset(xs)[x] + times]
    ensures |ys| == |xs| + times
    ensures forall k :: 0 <= k < |ys| ==> ys[k] == x || ys[k] in xs
  {
    ys := xs;
    for k := 0 to times
      invariant multiset(ys) == multiset(xs)[x := multiset(xs)[x] + k]
      invariant |ys| == |xs| + k
      invariant forall j :: 0 <= j < |ys| ==> ys[j] == x || ys[j] in xs
    {
      CountsSnoc(ys, x);
      ys := ys + [x];
    }
  }

  lemma CoreGrown(g: Graph, repeated: seq<nat>, n: nat, m: nat)
    requires m < n && m != 1 && |g| == n
    requires forall u :: 0 <= u < m ==> g[u] == Complete(n, m)[u]
    requires forall u :: m <= u < n ==> g[u] == {}
    requires forall k :: 0 <= k < |repeated| ==> repeated[k] < m
    requires forall v: nat :: multiset(repeated)[v] == if v < m then m - 1 else 0
    ensures Grown(g, repeated, m, m)
  {
    CompleteIs(n, m);
    assert g == Complete(n, m);
    if m > 0 {
      CompleteDegrees(n, m, n);
    } else {
      NoDegrees(g, n);
    }
    hide Complete;
    forall u: nat | u < n && m >= 2 && u < m ensures g[u] != {} {
      assert |g[u]| == m - 1;
    }
  }

  lemma {:induction false} NoDegrees(g: Graph, k: nat)
    requires k <= |g| && forall u :: 0 <= u < |g| ==> g[u] == {}
    ensures DegreeSum(g, k) == 0
  {
    if k > 0 {
      NoDegrees(g, k - 1);
    }
  }

  /** Every placed node is in the list, so there are always enough distinct ones to draw. */
  lemma EnoughToDraw(g: Graph, repeated: seq<nat>, i: nat, m: nat, some: set<nat>)
    requires Grown(g, repeated, i, m) && m >= 2 && |some| < m && forall t :: t in some ==> t < i
    ensures exists candidate :: candidate in repeated && candidate !in some
  {
    UptoSize(i);
    if Upto(i) <= some {
      SubsetSize(Upto(i), some);
    } else {
      var v :| v in Upto(i) && v !in some;
      assert g[v] != {};
      assert multiset(repeated)[v] == |g[v]| > 0;
      assert v in multiset(repeated);
    }
  }

  lemma Listed(g: Graph, repeated: seq<nat>, i: nat, v: nat)
    requires Among(g, i) && Weighted(g, repeated) && v in repeated
    ensures v < i
  {
    var k :| 0 <= k < |repeated| && repeated[k] == v;
    assert v in multiset(repeated);
    assert |g[v]| > 0;
    if v >= i {
      NoEdgesYet(g, v);
    }
  }

  /** Draw `m` distinct targets for node `i`, each a draw from the list that is not a target yet. */
  method DrawTargets(g: Graph, repeated: seq<nat>, i: nat, m: nat) returns (targets: set<nat>)
    requires Grown(g, repeated, i, m) && m != 1
    ensures |targets| == m && forall t :: t in targets ==> t < i
  {
    targets := {};
    while |targets| < m
      invariant |targets| <= m && forall t :: t in targets ==> t < i
    {
      EnoughToDraw(g, repeated, i, m, targets);
      var candidate :| candidate in repeated && candidate !in targets;
      Listed(g, repeated, i, candidate);
      targets := targets + {candidate};
    }
  }

  lemma AttachedNone(g: Graph, i: nat)
    requires i < |g| && g[i] == {}
    ensures Attached(g, i, {}) == g
  {
  }

  lemma AttachedStep(g: Graph, i: nat, ts: set<nat>, t: nat)
    requires i < |g| && t < i && t !in ts
    ensures var a := Attached(g, i, ts);
      var b := a[i := a[i] + {t}];
      b[t := b[t] + {i}] == Attached(g, i, ts + {t})
  {
  }

  /** The list `ys` is `xs` with each of `done` added once. */
  ghost predicate AddedOnce(xs: seq<nat>, ys: seq<nat>, done: set<nat>, n: nat) {
    && (forall v: nat :: multiset(ys)[v] == multiset(xs)[v] + if v in done then 1 else 0)
    && (forall k :: 0 <= k < |ys| ==> ys[k] < n)
  }

  lemma AddOnce(xs: seq<nat>, ys: seq<nat>, done: set<nat>, n: nat, t: nat)
    requires AddedOnce(xs, ys, done, n) && t !in done && t < n
    ensures AddedOnce(xs, ys + [t], done + {t}, n)
  {
    CountsSnoc(ys, t);
  }

  /** Link node `i` to its targets, in increasing order, listing each target once. */
  method LinkAll(g: Graph, repeated: seq<nat>, i: nat, targets: set<nat>) returns (g': Graph, repeated': seq<nat>)
    requires i < |g| && g[i] == {} && forall t :: t in targets ==> t < i
    requires forall k :: 0 <= k < |repeated| ==> repeated[k] < |g|
    ensures g' == Attached(g, i, targets) && AddedOnce(repeated, repeated', targets, |g|)
  {
    g', repeated' := g, repeated;
    ghost var done: set<nat> := {};
    AttachedNone(g, i);
    assert AddedOnce(repeated, repeated', {}, |g|);
    hide Attached, AddedOnce;
    for t := 0 to i
      invariant done <= targets && forall u :: u in targets ==> (u in done <==> u < t)
      invariant |g'| == |g| && g' == Attached(g, i, done)
      invariant AddedOnce(repeated, repeated', done, |g|)
    {
      if t in targets {
        AttachedStep(g, i, done, t);
        AddOnce(repeated, repeated', done, |g|, t);
        g' := g'[i := g'[i] + {t}];
        g' := g'[t := g'[t] + {i}];
        repeated' := repeated' + [t];
        done := done + {t};
      }
    }
    assert done == targets;
  }

  /** Link node `i` to its targets and list it as often: each end of each new edge once. */
  method LinkTargets(g: Graph, repeated: seq<nat>, i: nat, m: nat, targets: set<nat>)
    returns (g': Graph, repeated': seq<nat>)
    requires Grown(g, repeated, i, m) && i < |g| && |targets| == m && forall t :: t in targets ==> t < i
    ensures g' == Attached(g, i, targets)
    ensures forall v: nat ::
      multiset(repeated')[v] == multiset(repeated)[v] + if v == i then m else if v in targets then 1 else 0
    ensures forall k :: 0 <= k < |repeated'| ==> repeated'[k] < |g|
  {
    NoEdgesYet(g, i);
    hide Attached, Among, ConnectedUpTo;
    g', repeated' := LinkAll(g, repeated, i, targets);
    repeated' := PushTimes(repeated', i, m);
  }

  /** Attaching a node to `m` targets keeps everything about a growing network. */
  lemma LinkedGrown(g: Graph, repeated: seq<nat>, i: nat, m: nat, targets: set<nat>, repeated': seq<nat>)
    requires Grown(g, repeated, i, m) && i < |g| && |targets| == m && forall t :: t in targets ==> t < i
    requires forall v: nat ::
      multiset(repeated')[v] == multiset(repeated)[v] + if v == i then m else if v in targets then 1 else 0
    requires forall k :: 0 <= k < |repeated'| ==> repeated'[k] < |g|
    ensures Grown(Attached(g, i, targets), repeated', i + 1, m)
  {
    var g' := Attached(g, i, targets);
    NoEdgesYet(g, i);
    AttachedAmong(g, i, targets);
    AttachedSum(g, i, targets);
    if m >= 2 {
      AttachedConnected(g, i, targets);
    }
    forall v: nat | v < |g| ensures multiset(repeated')[v] == |g'[v]| {
      assert v in targets ==> |g[v] + {i}| == |g[v]| + 1;
    }
    assert 2 * m * (i + 1 - m) == 2 * m * (i - m) + 2 * m;
  }

  /**
    A scale-free network of `n` nodes with `m` edges per new node, whatever is drawn:
    undirected and without loops, connected when `m >= 2`, and with
    m(m-1)/2 + m(n-m) edges.
   */
  method ScaleFree(n: nat, m: nat) returns (g: Graph)
    requires n <= m || m != 1
    ensures |g| == n && Among(g, n) && ValidGraph(g)
    ensures n <= m ==> g == Complete(n, n)
    ensures n <= m || m >= 2 ==> ConnectedUpTo(g, n)
    ensures n > m ==> DegreeSum(g, n) == (if m == 0 then 0 else m * (m - 1)) + 2 * m * (n - m)
  {
    if n <= m {
      CompleteIs(n, n);
      return Complete(n, n);
    }
    hide Among, ConnectedUpTo, Weighted, DegreeSum, Grown, Attached;
    var repeated;
    g, repeated := Core(n, m);
    for i := m to n
      invariant |g| == n && Grown(g, repeated, i, m)
    {
      var targets := DrawTargets(g, repeated, i, m);
      ghost var g0, repeated0 := g, repeated;
      g, repeated := LinkTargets(g, repeated, i, m, targets);
      LinkedGrown(g0, repeated0, i, m, targets, repeated);
    }
    GrownUp(g, repeated, n, m);
  }

  lemma GrownUp(g: Graph, repeated: seq<nat>, n: nat, m: nat)
    requires |g| == n && Grown(g, repeated, n, m)
    ensures Among(g, n) && ValidGraph(g) && (m >= 2 ==> ConnectedUpTo(g, n))
    ensures DegreeSum(g, n) == (if m == 0 then 0 else m * (m - 1)) + 2 * m * (n - m)
  {
  }
}
