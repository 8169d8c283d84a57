/** The round-robin rotation of initiators: which nodes have had their turn in a range of rounds. */
module Rotation {
  import opened Network

  /** The initiators of rounds `t .. r`. */
  function Inits(n: nat, t: nat, r: nat): set<nat>
    requires n > 0
    decreases r
  {
    if r <= t then {} else Inits(n, t, r - 1) + {(r - 1) % n}
  }

  lemma {:induction false} InitsSize(n: nat, t: nat, r: nat)
    requires n > 0
    ensures |Inits(n, t, r)| <= if r <= t then 0 else r - t
    decreases r
  {
    if r > t {
      InitsSize(n, t, r - 1);
    }
  }

  lemma {:induction false} InitsGrow(n: nat, t: nat, u: nat, r: nat, s: nat)
    requires n > 0 && t <= u && r <= s
    ensures Inits(n, u, r) <= Inits(n, t, s)
    decreases s, r
  {
    if u < r {
      if r == s {
        InitsGrow(n, t, u, r - 1, s - 1);
      } else {
        InitsGrow(n, t, u, r, s - 1);
      }
    }
  }

  lemma {:induction false} InitsAre(n: nat, t: nat, r: nat, v: nat)
    requires n > 0
    ensures v in Inits(n, t, r) <==> exists q: nat :: t <= q < r && v == q % n
    decreases r
  {
    if r > t {
      InitsAre(n, t, r - 1, v);
      if v in Inits(n, t, r) && v !in Inits(n, t, r - 1) {
        assert t <= r - 1 < r && v == (r - 1) % n;
      }
    }
  }

  lemma NoInitsYet(n: nat, t: nat, r: nat)
    requires n > 0
    ensures t <= r ==> Inits(n, t, r + 1) == Inits(n, t, r) + {r % n}
    ensures t > r ==> Inits(n, t, r) == {}
  {
  }

  /** Within `n` consecutive rounds every node initiates at most once. */
  lemma {:induction false} InitsExact(n: nat, t: nat, r: nat)
    requires n > 0 && t <= r && r - t < n
    ensures |Inits(n, t, r) + {r % n}| == r - t + 1
    ensures Inits(n, t, r) + {r % n} <= Upto(n)
    decreases r
  {
    hide Inits;
    if t == r {
      InitsEmpty(n, t);
    } else {
      InitsExact(n, t, r - 1);
      InitsSnoc(n, t, r - 1);
      NotAgain(n, t, r, r);
    }
  }

  lemma InitsEmpty(n: nat, t: nat)
    requires n > 0
    ensures Inits(n, t, t) == {}
  {
  }

  lemma InitsSnoc(n: nat, t: nat, r: nat)
    requires n > 0 && t <= r
    ensures Inits(n, t, r + 1) == Inits(n, t, r) + {r % n}
  {
  }

  lemma {:induction false} NotAgain(n: nat, t: nat, q: nat, r: nat)
    requires n > 0 && t <= q <= r && r - t < n
    ensures r % n !in Inits(n, t, q)
    decreases q
  {
    hide Inits;
    if t == q {
      InitsEmpty(n, t);
    } else {
      NotAgain(n, t, q - 1, r);
      InitsSnoc(n, t, q - 1);
      DifferentTurns(n, q - 1, r);
    }
  }

  lemma DifferentTurns(n: nat, q: nat, r: nat)
    requires n > 0 && q < r < q + n
    ensures q % n != r % n
  {
    var steps := r / n - q / n;
    assert r - q == n * steps + (r % n - q % n);
    assert steps >= 1 ==> n * steps >= n;
    assert steps <= 0 ==> n * steps <= 0;
  }
}
