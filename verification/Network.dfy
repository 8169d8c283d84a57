/**
  The network graph: who hears whom, hop distances, and the queue-based
  breadth-first search behind `diameter()`.

  `Ball(g, s, k)` is the set of nodes within `k` hops of `s`.  Every distance
  statement of this project is phrased with it, so that unreachable nodes need
  no sentinel: they are simply in no ball.
 */
module Network {
  import opened Wrappers

  /** `g[u]` is the set of nodes that hear `u`. */
  type Graph = seq<set<nat>>

  predicate ValidGraph(g: Graph) {
    forall u, v :: 0 <= u < |g| && v in g[u] ==> v < |g|
  }

  /** The nodes that hear some member of `from`. */
  ghost function Hearers(g: Graph, from: set<nat>): (to: set<nat>)
    requires ValidGraph(g) && (forall u :: u in from ==> u < |g|)
    ensures forall v :: v in to ==> v < |g|
  {
    set u, v | u in from && v in g[u] :: v
  }

  ghost function Ball(g: Graph, s: nat, k: nat): (b: set<nat>)
    requires ValidGraph(g) && s < |g|
    ensures forall v :: v in b ==> v < |g|
    ensures s in b
  {
    if k == 0 then {s} else Ball(g, s, k - 1) + Hearers(g, Ball(g, s, k - 1))
  }

  /** `v` is exactly `d` hops from `s`. */
  ghost predicate AtDistance(g: Graph, s: nat, d: nat, v: nat)
    requires ValidGraph(g) && s < |g|
  {
    v in Ball(g, s, d) && (d > 0 ==> v !in Ball(g, s, d - 1))
  }

  lemma {:induction false} BallGrows(g: Graph, s: nat, j: nat, k: nat)
    requires ValidGraph(g) && s < |g| && j <= k
    ensures Ball(g, s, j) <= Ball(g, s, k)
    decreases k
  {
    if j < k {
      BallGrows(g, s, j, k - 1);
    }
  }

  lemma BallStep(g: Graph, s: nat, k: nat, u: nat, v: nat)
    requires ValidGraph(g) && s < |g|
    requires u in Ball(g, s, k) && v in g[u]
    ensures v in Ball(g, s, k + 1)
  {
    assert v in Hearers(g, Ball(g, s, k));
  }

  /** A node first reached at hop `d > 0` is heard from a node at hop exactly `d - 1`. */
  lemma Predecessor(g: Graph, s: nat, d: nat, v: nat) returns (u: nat)
    requires ValidGraph(g) && s < |g| && d > 0
    requires AtDistance(g, s, d, v)
    ensures u < |g| && v in g[u] && AtDistance(g, s, d - 1, u)
  {
    assert v in Hearers(g, Ball(g, s, d - 1));
    u :| u in Ball(g, s, d - 1) && v in g[u];
  }

  lemma SelfDistance(g: Graph, s: nat)
    requires ValidGraph(g) && s < |g|
    ensures AtDistance(g, s, 0, s)
  {
  }

  /** A node in some ball has an exact distance. */
  lemma {:induction false} DistanceExists(g: Graph, s: nat, k: nat, v: nat) returns (d: nat)
    requires ValidGraph(g) && s < |g| && v in Ball(g, s, k)
    ensures d <= k && AtDistance(g, s, d, v)
    decreases k
  {
    if k > 0 && v in Ball(g, s, k - 1) {
      d := DistanceExists(g, s, k - 1, v);
    } else {
      d := k;
    }
  }

  lemma DistanceUnique(g: Graph, s: nat, d: nat, e: nat, v: nat)
    requires ValidGraph(g) && s < |g|
    requires AtDistance(g, s, d, v) && AtDistance(g, s, e, v)
    ensures d == e
  {
    if d < e {
      BallGrows(g, s, d, e - 1);
    } else if e < d {
      BallGrows(g, s, e, d - 1);
    }
  }

  // ---------------------------------------------------------------- connectivity

  ghost predicate Reaches(g: Graph, s: nat, v: nat)
    requires ValidGraph(g) && s < |g|
  {
    exists d: nat :: v in Ball(g, s, d)
  }

  ghost predicate Connected(g: Graph)
    requires ValidGraph(g)
  {
    forall s: nat, v: nat :: s < |g| && v < |g| ==> Reaches(g, s, v)
  }

  lemma LastHop(g: Graph, s: nat, d: nat, v: nat) returns (u: nat)
    requires ValidGraph(g) && s < |g| && v in Ball(g, s, d + 1) && v !in Ball(g, s, d)
    ensures u < |g| && u in Ball(g, s, d) && v in g[u]
  {
    u :| u in Ball(g, s, d) && v in g[u];
  }

  lemma {:induction false} BallsChain(g: Graph, a: nat, b: nat, d: nat, e: nat, v: nat)
    requires ValidGraph(g) && a < |g| && b < |g| && b in Ball(g, a, d) && v in Ball(g, b, e)
    ensures v in Ball(g, a, d + e)
  {
    hide Hearers;
    if e == 0 {
      assert v == b;
    } else if v in Ball(g, b, e - 1) {
      BallsChain(g, a, b, d, e - 1, v);
      BallGrows(g, a, d + e - 1, d + e);
    } else {
      var u := LastHop(g, b, e - 1, v);
      BallsChain(g, a, b, d, e - 1, u);
      BallStep(g, a, d + e - 1, u, v);
    }
  }

  lemma ReachesThrough(g: Graph, a: nat, b: nat, v: nat)
    requires ValidGraph(g) && a < |g| && b < |g| && Reaches(g, a, b) && Reaches(g, b, v)
    ensures Reaches(g, a, v)
  {
    var d: nat :| b in Ball(g, a, d);
    var e: nat :| v in Ball(g, b, e);
    BallsChain(g, a, b, d, e, v);
  }

  lemma ReachesNext(g: Graph, u: nat, v: nat)
    requires ValidGraph(g) && u < |g| && v in g[u]
    ensures Reaches(g, u, v)
  {
    BallStep(g, u, 0, u, v);
  }

  /** More edges reach no less. */
  lemma {:induction false} BallsWiden(g: Graph, g': Graph, s: nat, d: nat)
    requires ValidGraph(g) && ValidGraph(g') && |g| == |g'| && s < |g|
    requires forall u :: 0 <= u < |g| ==> g[u] <= g'[u]
    ensures Ball(g, s, d) <= Ball(g', s, d)
  {
    if d > 0 {
      BallsWiden(g, g', s, d - 1);
    }
  }

  // ---------------------------------------------------------------- eccentricity

  function Upto(n: nat): (r: set<nat>)
    ensures forall v: nat :: v in r <==> v < n
  {
    if n == 0 then {} else Upto(n - 1) + {n - 1}
  }

  lemma {:induction false} UptoSize(n: nat)
    ensures |Upto(n)| == n
  {
    if n > 0 {
      UptoSize(n - 1);
    }
  }

  lemma {:induction false} SubsetSize<T>(a: set<T>, b: set<T>)
    requires a <= b
    ensures |a| <= |b|
    ensures a != b ==> |a| < |b|
  {
    assert b == a + (b - a);
    assert |b| == |a| + |b - a|;
    if a != b {
      var x :| x in b && x !in a;
      assert x in b - a;
    }
  }

  lemma BallSize(g: Graph, s: nat, k: nat)
    requires ValidGraph(g) && s < |g|
    ensures |Ball(g, s, k)| <= |g|
  {
    UptoSize(|g|);
    assert Ball(g, s, k) <= Upto(|g|);
    SubsetSize(Ball(g, s, k), Upto(|g|));
  }

  lemma GrowingBall(g: Graph, s: nat, k: nat)
    requires ValidGraph(g) && s < |g|
    requires !Settled(g, s, k)
    ensures |Ball(g, s, k)| < |Ball(g, s, k + 1)| <= |g|
  {
    BallGrows(g, s, k, k + 1);
    SubsetSize(Ball(g, s, k), Ball(g, s, k + 1));
    BallSize(g, s, k + 1);
  }

  /** The ball of radius `k` does not grow any more. */
  ghost predicate Settled(g: Graph, s: nat, k: nat)
    requires ValidGraph(g) && s < |g|
  {
    Ball(g, s, k) == Ball(g, s, k + 1)
  }

  /** The first radius, from `k` on, at which the ball stops growing. */
  ghost function EccFrom(g: Graph, s: nat, k: nat): nat
    requires ValidGraph(g) && s < |g|
    decreases |g| - |Ball(g, s, k)|
  {
    if Settled(g, s, k) then k
    else
      GrowingBall(g, s, k);
      EccFrom(g, s, k + 1)
  }

  lemma {:induction false} EccFromIsFirst(g: Graph, s: nat, k: nat)
    requires ValidGraph(g) && s < |g|
    ensures k <= EccFrom(g, s, k) && Settled(g, s, EccFrom(g, s, k))
    ensures forall j :: k <= j < EccFrom(g, s, k) ==> !Settled(g, s, j)
    decreases |g| - |Ball(g, s, k)|
  {
    hide Ball, Settled;
    if !Settled(g, s, k) {
      GrowingBall(g, s, k);
      EccFromIsFirst(g, s, k + 1);
    }
  }

  /** Eccentricity of `s`: the largest finite hop distance from `s` (EccIsLargestDistance). */
  ghost function Ecc(g: Graph, s: nat): nat
    requires ValidGraph(g) && s < |g|
  {
    EccFrom(g, s, 0)
  }

  lemma {:induction false} BallSaturates(g: Graph, s: nat, k: nat)
    requires ValidGraph(g) && s < |g| && Ecc(g, s) <= k
    ensures Ball(g, s, k) == Ball(g, s, Ecc(g, s))
    decreases k
  {
    EccFromIsFirst(g, s, 0);
    if Ecc(g, s) < k {
      BallSaturates(g, s, k - 1);
    }
  }

  /** Every hop distance up to the eccentricity is taken by some node, and no larger one is. */
  lemma EccIsLargestDistance(g: Graph, s: nat, d: nat)
    requires ValidGraph(g) && s < |g|
    ensures d <= Ecc(g, s) <==> exists v: nat :: AtDistance(g, s, d, v)
  {
    hide Ball, Settled, EccFrom;
    if d == 0 {
      SelfDistance(g, s);
    } else if d <= Ecc(g, s) {
      EccFromIsFirst(g, s, 0);
      var v := NewAtDistance(g, s, d);
    } else {
      BallSaturates(g, s, d);
      BallSaturates(g, s, d - 1);
    }
  }

  lemma NewAtDistance(g: Graph, s: nat, d: nat) returns (v: nat)
    requires ValidGraph(g) && s < |g| && d > 0 && !Settled(g, s, d - 1)
    ensures AtDistance(g, s, d, v)
  {
    BallGrows(g, s, d - 1, d);
    assert Ball(g, s, d - 1) != Ball(g, s, d);
    hide Ball;
    v :| v in Ball(g, s, d) && v !in Ball(g, s, d - 1);
  }

  /** The whole network lies within `k` hops of `s`. */
  ghost predicate Covers(g: Graph, s: nat, k: nat)
    requires ValidGraph(g) && s < |g|
  {
    forall v :: 0 <= v < |g| ==> v in Ball(g, s, k)
  }

  lemma SettledCover(g: Graph, s: nat, k: nat)
    requires ValidGraph(g) && s < |g| && Covers(g, s, k)
    ensures Settled(g, s, k)
  {
    BallGrows(g, s, k, k + 1);
  }

  lemma CoverNeedsEcc(g: Graph, s: nat, k: nat)
    requires ValidGraph(g) && s < |g| && Covers(g, s, k)
    ensures Ecc(g, s) <= k && Covers(g, s, Ecc(g, s))
  {
    SettledCover(g, s, k);
    EccFromIsFirst(g, s, 0);
    BallSaturates(g, s, k);
  }

  // ---------------------------------------------------------------- breadth-first search

  /** The distance table is right about every node it has filled in. */
  ghost predicate Sound(g: Graph, s: nat, dist: seq<Option<nat>>)
    requires ValidGraph(g) && s < |g| && |dist| == |g|
  {
    forall v :: 0 <= v < |g| && dist[v].Some? ==> AtDistance(g, s, dist[v].value, v)
  }

  /** Every node within `k` hops is filled in. */
  ghost predicate Filled(g: Graph, s: nat, dist: seq<Option<nat>>, k: nat)
    requires ValidGraph(g) && s < |g| && |dist| == |g|
  {
    forall v :: v in Ball(g, s, k) ==> dist[v].Some?
  }

  /**
    The state between two pops of the search from `s`: the filled nodes are the
    finished ones and the queued ones, apart; the queue runs through distances
    `d` then `d + 1`; finished nodes have all their hearers filled.
   */
  ghost predicate BfsState(g: Graph, s: nat, dist: seq<Option<nat>>, queue: seq<nat>, done: set<nat>, d: nat)
    requires ValidGraph(g) && s < |g|
  {
    && |dist| == |g|
    && Sound(g, s, dist)
    && Filled(g, s, dist, d)
    && (forall v :: 0 <= v < |g| ==> (dist[v].Some? <==> v in done || v in queue))
    && (forall v :: v in done ==> v < |g| && v !in queue)
    && (forall i :: 0 <= i < |queue| ==>
          queue[i] < |g| && dist[queue[i]].Some? && d <= dist[queue[i]].value <= d + 1)
    && (forall i, j :: 0 <= i < j < |queue| ==>
          queue[i] != queue[j] && dist[queue[i]].value <= dist[queue[j]].value)
    && dist[s].Some?
  }

  /** Finished nodes have all their hearers filled in, except for those of `u` still in `todo`. */
  ghost predicate HearersFilled(g: Graph, dist: seq<Option<nat>>, done: set<nat>, u: nat, todo: set<nat>)
    requires ValidGraph(g) && |dist| == |g|
  {
    forall w, v :: w in done && w < |g| && v in g[w] && !(w == u && v in todo) ==> dist[v].Some?
  }

  /** When the head of the queue is one level deeper, that whole level is already filled in. */
  lemma NextLevel(g: Graph, s: nat, dist: seq<Option<nat>>, queue: seq<nat>, done: set<nat>, d: nat)
    requires ValidGraph(g) && s < |g|
    requires BfsState(g, s, dist, queue, done, d)
    requires forall w, v :: w in done && v in g[w] ==> dist[v].Some?
    requires queue == [] || dist[queue[0]].value == d + 1
    ensures Filled(g, s, dist, d + 1)
  {
    forall v | v in Ball(g, s, d + 1) && v !in Ball(g, s, d)
      ensures dist[v].Some?
    {
      var w :| w in Ball(g, s, d) && v in g[w];
      var e := DistanceExists(g, s, d, w);
      DistanceUnique(g, s, e, dist[w].value, w);
      assert w in done;
    }
  }

  lemma {:induction false} ClosedIsFilled(g: Graph, s: nat, dist: seq<Option<nat>>, k: nat)
    requires ValidGraph(g) && s < |g| && |dist| == |g| && dist[s].Some?
    requires forall w, v :: 0 <= w < |g| && dist[w].Some? && v in g[w] ==> dist[v].Some?
    ensures Filled(g, s, dist, k)
  {
    if k > 0 {
      ClosedIsFilled(g, s, dist, k - 1);
    }
  }

  /** Popping the head keeps the search state, one level deeper when the head is. */
  lemma PopHead(g: Graph, s: nat, dist: seq<Option<nat>>, queue: seq<nat>, done: set<nat>, d: nat)
    returns (e: nat)
    requires ValidGraph(g) && s < |g| && queue != []
    requires BfsState(g, s, dist, queue, done, d)
    requires HearersFilled(g, dist, done, s, {})
    ensures e == dist[queue[0]].value && queue[0] !in done
    ensures BfsState(g, s, dist, queue[1..], done + {queue[0]}, e)
    ensures HearersFilled(g, dist, done + {queue[0]}, queue[0], g[queue[0]])
  {
    hide Ball, AtDistance;
    var u, rest := queue[0], queue[1..];
    e := dist[u].value;
    if e == d + 1 {
      NextLevel(g, s, dist, queue, done, d);
    }
    assert queue == [u] + rest;
    assert u !in done && u !in rest;
  }

  /** Filling in a newly heard node at the next level keeps the search state. */
  lemma PushHearer(g: Graph, s: nat, dist: seq<Option<nat>>, queue: seq<nat>, done: set<nat>, d: nat, u: nat, v: nat)
    requires ValidGraph(g) && s < |g|
    requires BfsState(g, s, dist, queue, done, d)
    requires u < |g| && dist[u] == Some(d) && v in g[u] && dist[v].None?
    ensures BfsState(g, s, dist[v := Some(d + 1)], queue + [v], done, d)
  {
    PushSound(g, s, dist, d, u, v);
    PushMembers(dist, queue, done, d, v);
    PushOrder(dist, queue, d, v);
    hide Sound, Filled, Ball;
  }

  lemma PushMembers(dist: seq<Option<nat>>, queue: seq<nat>, done: set<nat>, d: nat, v: nat)
    requires v < |dist| && dist[v].None?
    requires forall w :: 0 <= w < |dist| ==> (dist[w].Some? <==> w in done || w in queue)
    requires forall w :: w in done ==> w < |dist| && w !in queue
    ensures forall w :: 0 <= w < |dist| ==> (dist[v := Some(d + 1)][w].Some? <==> w in done || w in queue + [v])
    ensures forall w :: w in done ==> w < |dist| && w !in queue + [v]
  {
  }

  lemma PushOrder(dist: seq<Option<nat>>, queue: seq<nat>, d: nat, v: nat)
    requires v < |dist| && dist[v].None?
    requires forall i :: 0 <= i < |queue| ==>
      queue[i] < |dist| && dist[queue[i]].Some? && d <= dist[queue[i]].value <= d + 1
    requires forall i, j :: 0 <= i < j < |queue| ==>
      queue[i] != queue[j] && dist[queue[i]].value <= dist[queue[j]].value
    ensures var dist', queue' := dist[v := Some(d + 1)], queue + [v];
      && (forall i :: 0 <= i < |queue'| ==>
            queue'[i] < |dist'| && dist'[queue'[i]].Some? && d <= dist'[queue'[i]].value <= d + 1)
      && (forall i, j :: 0 <= i < j < |queue'| ==>
            queue'[i] != queue'[j] && dist'[queue'[i]].value <= dist'[queue'[j]].value)
  {
  }

  lemma PushSound(g: Graph, s: nat, dist: seq<Option<nat>>, d: nat, u: nat, v: nat)
    requires ValidGraph(g) && s < |g| && |dist| == |g| && Sound(g, s, dist) && Filled(g, s, dist, d)
    requires u < |g| && dist[u] == Some(d) && v in g[u] && dist[v].None?
    ensures Sound(g, s, dist[v := Some(d + 1)]) && Filled(g, s, dist[v := Some(d + 1)], d)
  {
    BallStep(g, s, d, u, v);
    assert AtDistance(g, s, d + 1, v);
    hide Ball, AtDistance;
  }

  method SetEntry(a: array<Option<nat>>, i: nat, x: Option<nat>)
    requires i < a.Length
    modifies a
    ensures a[..] == old(a[..])[i := x]
  {
    a[i] := x;
  }

  /** The table and the queue once hearer `v` of a node at distance `d` has been looked at. */
  function Looked(dist: seq<Option<nat>>, queue: seq<nat>, v: nat, d: nat): (seq<Option<nat>>, seq<nat>)
    requires v < |dist|
  {
    if dist[v].None? then (dist[v := Some(d + 1)], queue + [v]) else (dist, queue)
  }

  method LookAt(dist: array<Option<nat>>, queue: seq<nat>, u: nat, v: nat) returns (queue': seq<nat>)
    requires u < dist.Length && v < dist.Length && dist[u].Some?
    modifies dist
    ensures (dist[..], queue') == Looked(old(dist[..]), queue, v, old(dist[u].value))
  {
    queue' := queue;
    if dist[v].None? {
      SetEntry(dist, v, Some(dist[u].value + 1));
      queue' := queue' + [v];
    }
  }

  lemma LookKeepsState(g: Graph, s: nat, dist: seq<Option<nat>>, queue: seq<nat>, done: set<nat>, d: nat,
                       u: nat, v: nat, todo: set<nat>)
    requires ValidGraph(g) && s < |g| && u < |g| && v in g[u]
    requires BfsState(g, s, dist, queue, done, d) && dist[u] == Some(d)
    requires HearersFilled(g, dist, done, u, todo)
    ensures var (dist', queue') := Looked(dist, queue, v, d);
      BfsState(g, s, dist', queue', done, d) && dist'[u] == Some(d) && HearersFilled(g, dist', done, u, todo - {v})
  {
    if dist[v].None? {
      PushHearer(g, s, dist, queue, done, d, u, v);
    }
  }

  /** The inner loop of the search: fill in and queue every unfilled hearer of `u`. */
  method VisitHearers(g: Graph, ghost start: nat, dist: array<Option<nat>>, queue: seq<nat>, u: nat,
                      ghost done: set<nat>)
    returns (queue': seq<nat>)
    requires ValidGraph(g) && start < |g| && u < |g| && u in done
    requires dist.Length == |g| && dist[u].Some?
    requires BfsState(g, start, dist[..], queue, done, dist[u].value)
    requires HearersFilled(g, dist[..], done, u, g[u])
    modifies dist
    ensures BfsState(g, start, dist[..], queue', done, old(dist[u].value))
    ensures HearersFilled(g, dist[..], done, start, {})
  {
    queue' := queue;
    ghost var table := dist[..];
    ghost var d := dist[u].value;
    var todo := g[u];
    while todo != {}
      invariant todo <= g[u]
      invariant dist[..] == table && |table| == |g| && table[u] == Some(d)
      invariant BfsState(g, start, table, queue', done, d)
      invariant HearersFilled(g, table, done, u, todo)
      decreases |todo|
    {
      var v :| v in todo;
      assert dist[u] == table[u];
      LookKeepsState(g, start, table, queue', done, d, u, v, todo);
      table := Looked(table, queue', v, d).0;
      queue' := LookAt(dist, queue', u, v);
      todo := todo - {v};
    }
  }

  /** One source of the search: fills the distance table and returns its largest finite entry. */
  method Farthest(g: Graph, start: nat) returns (far: nat)
    requires ValidGraph(g) && start < |g|
    ensures far == Ecc(g, start)
  {
    var dist := new Option<nat>[|g|](_ => None);
    dist[start] := Some(0);
    var queue := [start];
    ghost var done: set<nat>, d := {}, 0;
    assert AtDistance(g, start, 0, start);
    while queue != []
      invariant dist.Length == |g| && BfsState(g, start, dist[..], queue, done, d)
      invariant HearersFilled(g, dist[..], done, start, {})
      decreases |g| - |done|
    {
      var u := queue[0];
      d := PopHead(g, start, dist[..], queue, done, d);
      ghost var done0 := done;
      done := done + {u};
      assert |done| == |done0| + 1;
      queue := VisitHearers(g, start, dist, queue[1..], u, done);
      SubsetOfNodes(g, done);
    }
    forall k: nat ensures Filled(g, start, dist[..], k) {
      ClosedIsFilled(g, start, dist[..], k);
    }
    far := LargestEntry(dist);
    FarthestIsEcc(g, start, dist[..], far);
  }

  lemma SubsetOfNodes(g: Graph, nodes: set<nat>)
    requires forall v :: v in nodes ==> v < |g|
    ensures |nodes| <= |g|
  {
    UptoSize(|g|);
    SubsetSize(nodes, Upto(|g|));
  }

  /** The largest filled-in entry, 0 when there is none. */
  method LargestEntry(dist: array<Option<nat>>) returns (far: nat)
    ensures forall v :: 0 <= v < dist.Length && dist[v].Some? ==> dist[v].value <= far
    ensures (exists v :: 0 <= v < dist.Length && dist[v] == Some(far)) || far == 0
  {
    far := 0;
    for i := 0 to dist.Length
      invariant forall v :: 0 <= v < i && dist[v].Some? ==> dist[v].value <= far
      invariant (exists v :: 0 <= v < i && dist[v] == Some(far)) || far == 0
    {
      if dist[i].Some? && far < dist[i].value {
        far := dist[i].value;
      }
    }
  }

  lemma FarthestIsEcc(g: Graph, s: nat, dist: seq<Option<nat>>, far: nat)
    requires ValidGraph(g) && s < |g| && |dist| == |g|
    requires Sound(g, s, dist) && forall k: nat :: Filled(g, s, dist, k)
    requires forall v :: 0 <= v < |g| && dist[v].Some? ==> dist[v].value <= far
    requires (exists v :: 0 <= v < |g| && dist[v] == Some(far)) || far == 0
    ensures far == Ecc(g, s)
  {
    var e := Ecc(g, s);
    EccIsLargestDistance(g, s, e);
    var v: nat :| AtDistance(g, s, e, v);
    assert Filled(g, s, dist, e);
    DistanceUnique(g, s, e, dist[v].value, v);
    EccIsLargestDistance(g, s, far);
  }

  /** The largest eccentricity of the first `k` nodes. */
  ghost function MaxEcc(g: Graph, k: nat): nat
    requires ValidGraph(g) && k <= |g|
  {
    if k == 0 then 0
    else
      var m := MaxEcc(g, k - 1);
      if m < Ecc(g, k - 1) then Ecc(g, k - 1) else m
  }

  ghost function HopDiameter(g: Graph): nat
    requires ValidGraph(g)
  {
    MaxEcc(g, |g|)
  }

  lemma {:induction false} MaxEccCovers(g: Graph, k: nat, s: nat)
    requires ValidGraph(g) && s < k <= |g|
    ensures Ecc(g, s) <= MaxEcc(g, k)
  {
    hide Ecc;
    if s < k - 1 {
      MaxEccCovers(g, k - 1, s);
    }
  }

  /**
    The hop diameter: the largest finite shortest-path distance over all ordered
    pairs of nodes, connected graph or not.
   */
  method Diameter(g: Graph) returns (maxDist: nat)
    requires ValidGraph(g)
    ensures forall s, d: nat, v :: 0 <= s < |g| && AtDistance(g, s, d, v) ==> d <= maxDist
    ensures |g| > 0 ==> exists s, v :: 0 <= s < |g| && AtDistance(g, s, maxDist, v)
    ensures |g| == 0 ==> maxDist == 0
    ensures maxDist == HopDiameter(g)
  {
    hide Ball, Ecc;
    maxDist := 0;
    if |g| > 0 {
      SelfDistance(g, 0);
    }
    for start := 0 to |g|
      invariant maxDist == MaxEcc(g, start)
      invariant |g| > 0 ==> exists s, v :: 0 <= s < |g| && AtDistance(g, s, maxDist, v)
      invariant |g| == 0 ==> maxDist == 0
    {
      var d := Farthest(g, start);
      EccIsLargestDistance(g, start, d);
      if maxDist < d {
        maxDist := d;
      }
    }
    forall s, d: nat, v | 0 <= s < |g| && AtDistance(g, s, d, v)
      ensures d <= maxDist
    {
      EccIsLargestDistance(g, s, d);
      MaxEccCovers(g, |g|, s);
    }
  }
}
