/** Vote bitmaps: union, counting and quorums. */
module Bitmaps {
  import opened Network

  function NoBits(n: nat): seq<bool> {
    seq(n, i => false)
  }

  function OneBit(n: nat, id: nat): (b: seq<bool>)
    ensures |b| == n
  {
    seq(n, i => i == id)
  }

  /** The bitmap grown to at least `n` entries. */
  function Padded(bits: seq<bool>, n: nat): (b: seq<bool>)
    ensures |b| == if |bits| < n then n else |bits|
  {
    if |bits| < n then bits + NoBits(n - |bits|) else bits
  }

  function WithBit(bits: seq<bool>, id: nat): (b: seq<bool>)
    ensures |b| == |bits|
  {
    if id < |bits| then bits[id := true] else bits
  }

  /** `a` with the bits of `b` among the first `n` added. */
  function OrBits(a: seq<bool>, b: seq<bool>, n: nat): (c: seq<bool>)
    ensures |c| == |a|
  {
    seq(|a|, i requires 0 <= i < |a| => a[i] || (i < n && i < |b| && b[i]))
  }

  function Votes(bits: seq<bool>): nat {
    if bits == [] then 0 else Votes(bits[..|bits| - 1]) + if bits[|bits| - 1] then 1 else 0
  }

  predicate AllSet(bits: seq<bool>) {
    forall i :: 0 <= i < |bits| ==> bits[i]
  }

  /** In-place OR of the first `n` bits, reporting whether any was new. */
  method OrInto(a: seq<bool>, b: seq<bool>, n: nat) returns (c: seq<bool>, newInfo: bool)
    requires n <= |a| && n <= |b|
    ensures c == OrBits(a, b, n)
    ensures newInfo <==> c != a
  {
    c, newInfo := a, false;
    for i := 0 to n
      invariant |c| == |a|
      invariant forall j :: 0 <= j < |a| ==> c[j] == (a[j] || (j < i && b[j]))
      invariant newInfo <==> exists j :: 0 <= j < |a| && c[j] != a[j]
    {
      if b[i] && !c[i] {
        c := c[i := true];
        newInfo := true;
        assert c[i] != a[i];
      }
    }
    assert c == OrBits(a, b, n);
  }

  function Voters(bits: seq<bool>): set<nat> {
    set j: nat | j < |bits| && bits[j]
  }

  lemma {:induction false} VotersCounted(bits: seq<bool>)
    ensures |Voters(bits)| == Votes(bits)
  {
    if bits == [] {
      assert Voters(bits) == {};
    } else {
      var n := |bits| - 1;
      VotersCounted(bits[..n]);
      assert Voters(bits) == Voters(bits[..n]) + if bits[n] then {n} else {};
    }
  }

  lemma MajoritiesMeet(a: set<nat>, b: set<nat>, n: nat)
    requires a <= Upto(n) && b <= Upto(n) && |a| >= n / 2 + 1 && |b| >= n / 2 + 1
    ensures a * b != {}
  {
    if a * b == {} {
      assert |a + b| == |a| + |b|;
      UptoSize(n);
      SubsetSize(a + b, Upto(n));
    }
  }

  lemma {:induction false} VotesGrow(a: seq<bool>, b: seq<bool>)
    requires |a| == |b| && forall i :: 0 <= i < |a| && a[i] ==> b[i]
    ensures Votes(a) <= Votes(b) <= |b|
    ensures a != b ==> Votes(a) < Votes(b)
    ensures Votes(b) == |b| <==> AllSet(b)
  {
    if a != [] {
      var n := |a| - 1;
      VotesGrow(a[..n], b[..n]);
      assert a == a[..n] + [a[n]] && b == b[..n] + [b[n]];
      assert AllSet(b) <==> AllSet(b[..n]) && b[n];
    }
  }

  lemma HasAVote(bits: seq<bool>, i: nat)
    requires i < |bits| && bits[i]
    ensures Votes(bits) >= 1
  {
    VotesGrow(NoBits(|bits|), bits);
    assert !NoBits(|bits|)[i];
  }
}
