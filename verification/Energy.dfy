/**
  Amortised energy over exact reals: every slot's awake nodes are shared out among
  the proposals alive in it.  The prefix-sum computation and the direct one agree,
  and no awake slot is lost or counted twice.
 */
module Energy {
  import opened Metrics

  /** One row per slot, contiguous from zero. */
  ghost predicate PerSlot(rows: seq<Snapshot>) {
    forall i :: 0 <= i < |rows| ==> rows[i].slot == i
  }

  function Awake(row: Snapshot): nat {
    row.listening + row.flooding
  }

  /** Is the proposal's window open in `slot`? */
  predicate IsOpen(rec: ProposalRecord, slot: nat) {
    rec.startSlot <= slot < rec.endSlot
  }

  /** How many of the proposals are alive in `slot`. */
  function Alive(recs: seq<ProposalRecord>, slot: nat): nat {
    if recs == [] then 0
    else Alive(recs[..|recs| - 1], slot) + if IsOpen(recs[|recs| - 1], slot) then 1 else 0
  }

  /** What a slot costs each proposal alive in it. */
  function Share(rows: seq<Snapshot>, recs: seq<ProposalRecord>, slot: nat): real
    requires slot < |rows|
  {
    var alive := Alive(recs, slot);
    if alive > 0 then Awake(rows[slot]) as real / alive as real else 0.0
  }

  /** Shares of the slots before `k`, added up. */
  function Prefix(rows: seq<Snapshot>, recs: seq<ProposalRecord>, k: nat): real
    requires k <= |rows|
  {
    if k == 0 then 0.0 else Prefix(rows, recs, k - 1) + Share(rows, recs, k - 1)
  }

  /** The shares of the slots before `k` that lie in the proposal's window. */
  function Cost(rows: seq<Snapshot>, recs: seq<ProposalRecord>, rec: ProposalRecord, k: nat): real
    requires k <= |rows|
  {
    if k == 0 then 0.0
    else Cost(rows, recs, rec, k - 1) + if IsOpen(rec, k - 1) then Share(rows, recs, k - 1) else 0.0
  }

  /** The energies of the committed proposals among the first `k`, in order. */
  function Energies(rows: seq<Snapshot>, recs: seq<ProposalRecord>, k: nat): seq<real>
    requires k <= |recs|
  {
    if k == 0 then []
    else Energies(rows, recs, k - 1)
         + if recs[k - 1].outcome == Committed then [Cost(rows, recs, recs[k - 1], |rows|)] else []
  }

  /** The committed proposals among the first `k`. */
  function CommittedAmong(recs: seq<ProposalRecord>, k: nat): nat
    requires k <= |recs|
  {
    if k == 0 then 0 else CommittedAmong(recs, k - 1) + if recs[k - 1].outcome == Committed then 1 else 0
  }

  /** One energy for each committed proposal, in their order: what its own window costs. */
  lemma {:induction false} EnergyOf(rows: seq<Snapshot>, recs: seq<ProposalRecord>, k: nat, m: nat)
    requires m < k <= |recs| && recs[m].outcome == Committed
    ensures |Energies(rows, recs, k)| == CommittedAmong(recs, k)
    ensures CommittedAmong(recs, m) < CommittedAmong(recs, k)
    ensures Energies(rows, recs, k)[CommittedAmong(recs, m)] == Cost(rows, recs, recs[m], |rows|)
  {
    hide Cost;
    EnergiesCounted(rows, recs, k - 1);
    if m < k - 1 {
      EnergyOf(rows, recs, k - 1, m);
    }
  }

  lemma {:induction false} EnergiesCounted(rows: seq<Snapshot>, recs: seq<ProposalRecord>, k: nat)
    requires k <= |recs|
    ensures |Energies(rows, recs, k)| == CommittedAmong(recs, k)
  {
    if k > 0 {
      EnergiesCounted(rows, recs, k - 1);
    }
  }

  // ---------------------------------------------------------------- the two computations

  /** The first and one past the last slot of the window that are in the series. */
  function WindowFrom(rec: ProposalRecord, n: nat): nat {
    if rec.startSlot < n then rec.startSlot else n
  }

  function WindowTo(rec: ProposalRecord, n: nat): (k: nat)
    ensures WindowFrom(rec, n) <= k <= n
  {
    var end := if rec.endSlot < n then rec.endSlot else n;
    if end < WindowFrom(rec, n) then WindowFrom(rec, n) else end
  }

  /** The cost of a window is a difference of two prefix sums. */
  lemma {:induction false} CostIsDifference(rows: seq<Snapshot>, recs: seq<ProposalRecord>, rec: ProposalRecord, k: nat)
    requires k <= |rows|
    ensures Cost(rows, recs, rec, k)
         == Prefix(rows, recs, WindowTo(rec, k)) - Prefix(rows, recs, WindowFrom(rec, k))
  {
    hide Share;
    if k > 0 {
      CostIsDifference(rows, recs, rec, k - 1);
    }
  }

  lemma AliveSnoc(recs: seq<ProposalRecord>, k: nat, slot: nat)
    requires k < |recs|
    ensures Alive(recs[..k + 1], slot) == Alive(recs[..k], slot) + if IsOpen(recs[k], slot) then 1 else 0
  {
    assert recs[..k + 1][..k] == recs[..k];
  }

  /** Live proposals per slot: every window adds one to each of its slots. */
  method Concurrency(rows: seq<Snapshot>, recs: seq<ProposalRecord>) returns (concurrent: array<nat>)
    requires PerSlot(rows)
    ensures fresh(concurrent) && concurrent.Length == |rows|
    ensures forall i :: 0 <= i < |rows| ==> concurrent[i] == Alive(recs, i)
  {
    concurrent := new nat[|rows|](_ => 0);
    for k := 0 to |recs|
      invariant forall i :: 0 <= i < |rows| ==> concurrent[i] == Alive(recs[..k], i)
    {
      for i := 0 to |rows|
        invariant forall j :: 0 <= j < i ==> concurrent[j] == Alive(recs[..k + 1], j)
        invariant forall j :: i <= j < |rows| ==> concurrent[j] == Alive(recs[..k], j)
      {
        AliveSnoc(recs, k, i);
        if rows[i].slot >= recs[k].startSlot && rows[i].slot < recs[k].endSlot {
          concurrent[i] := concurrent[i] + 1;
        }
      }
    }
    assert recs[..|recs|] == recs;
  }

  method PrefixSums(rows: seq<Snapshot>, recs: seq<ProposalRecord>) returns (pref: seq<real>)
    requires PerSlot(rows)
    ensures |pref| == |rows| + 1
    ensures forall k :: 0 <= k <= |rows| ==> pref[k] == Prefix(rows, recs, k)
  {
    var concurrent := Concurrency(rows, recs);
    pref := [0.0];
    for i := 0 to |rows|
      invariant |pref| == i + 1
      invariant forall k :: 0 <= k <= i ==> pref[k] == Prefix(rows, recs, k)
    {
      var share := if concurrent[i] > 0 then Awake(rows[i]) as real / concurrent[i] as real else 0.0;
      pref := pref + [pref[i] + share];
    }
  }

  /** The first and one past the last index of a window's slots in a series of `n`, if there are any. */
  method WindowIndices(rec: ProposalRecord, n: nat) returns (found: bool, first: nat, next: nat)
    ensures found ==> first == WindowFrom(rec, n) && next == WindowTo(rec, n)
    ensures !found ==> WindowFrom(rec, n) == WindowTo(rec, n)
  {
    found, first, next := false, 0, 0;
    var t := rec.startSlot;
    while t < rec.endSlot
      invariant t == rec.startSlot || rec.startSlot < t <= rec.endSlot
      invariant found <==> rec.startSlot < t && rec.startSlot < n
      invariant found ==> first == rec.startSlot && next == if t < n then t else n
    {
      if t < n {
        if !found {
          first := t;
        }
        found, next := true, t + 1;
      }
      t := t + 1;
    }
  }

  /** The amortised energy of each committed proposal, by prefix sums. */
  method LoadAmortized(rows: seq<Snapshot>, recs: seq<ProposalRecord>) returns (energies: seq<real>)
    requires PerSlot(rows)
    ensures energies == Energies(rows, recs, |recs|)
  {
    hide Prefix, Cost, WindowFrom, WindowTo;
    var pref := PrefixSums(rows, recs);
    energies := [];
    for k := 0 to |recs|
      invariant energies == Energies(rows, recs, k)
    {
      if recs[k].outcome == Committed {
        CostIsDifference(rows, recs, recs[k], |rows|);
        var found, first, next := WindowIndices(recs[k], |rows|);
        energies := energies + [if found then pref[next] - pref[first] else 0.0];
      }
    }
  }

  method CountAlive(recs: seq<ProposalRecord>, slot: nat) returns (alive: nat)
    ensures alive == Alive(recs, slot)
  {
    alive := 0;
    for k := 0 to |recs|
      invariant alive == Alive(recs[..k], slot)
    {
      AliveSnoc(recs, k, slot);
      if recs[k].startSlot <= slot && recs[k].endSlot > slot {
        alive := alive + 1;
      }
    }
    assert recs[..|recs|] == recs;
  }

  /** The amortised cost of one proposal, row by row. */
  method DirectCost(rows: seq<Snapshot>, recs: seq<ProposalRecord>, rec: ProposalRecord) returns (cost: real)
    requires PerSlot(rows)
    ensures cost == Cost(rows, recs, rec, |rows|)
  {
    cost := 0.0;
    for k := 0 to |rows|
      invariant cost == Cost(rows, recs, rec, k)
    {
      var row := rows[k];
      if rec.startSlot <= row.slot < rec.endSlot && Awake(row) > 0 {
        var concurrent := CountAlive(recs, row.slot);
        if concurrent > 0 {
          cost := cost + Awake(row) as real / concurrent as real;
        }
      }
    }
  }

  /** The amortised energy of each committed proposal, by nested sums. */
  method ExtractPerProposal(rows: seq<Snapshot>, recs: seq<ProposalRecord>) returns (energies: seq<real>)
    requires PerSlot(rows)
    ensures energies == Energies(rows, recs, |recs|)
  {
    energies := [];
    for k := 0 to |recs|
      invariant energies == Energies(rows, recs, k)
    {
      if recs[k].outcome == Committed {
        var cost := DirectCost(rows, recs, recs[k]);
        energies := energies + [cost];
      }
    }
  }

  // ---------------------------------------------------------------- conservation

  function Sum(xs: seq<real>): real {
    if xs == [] then 0.0 else Sum(xs[..|xs| - 1]) + xs[|xs| - 1]
  }

  /** The committed ones among the proposals. */
  function CommittedOnly(recs: seq<ProposalRecord>): seq<ProposalRecord> {
    if recs == [] then []
    else CommittedOnly(recs[..|recs| - 1])
         + if recs[|recs| - 1].outcome == Committed then [recs[|recs| - 1]] else []
  }

  /** The costs of the proposals `some` in the slots before `k`. */
  function CostOfAll(rows: seq<Snapshot>, recs: seq<ProposalRecord>, some: seq<ProposalRecord>, k: nat): real
    requires k <= |rows|
  {
    if some == [] then 0.0
    else CostOfAll(rows, recs, some[..|some| - 1], k) + Cost(rows, recs, some[|some| - 1], k)
  }

  /** One more slot costs the proposals alive in it a share each. */
  lemma {:induction false} OneMoreSlot(rows: seq<Snapshot>, recs: seq<ProposalRecord>, some: seq<ProposalRecord>,
                                       k: nat)
    requires k < |rows|
    ensures CostOfAll(rows, recs, some, k + 1)
         == CostOfAll(rows, recs, some, k) + Alive(some, k) as real * Share(rows, recs, k)
  {
    hide Share;
    if some != [] {
      OneMoreSlot(rows, recs, some[..|some| - 1], k);
      Distribute(Alive(some[..|some| - 1], k), Share(rows, recs, k));
    }
  }

  lemma Distribute(n: nat, x: real)
    ensures (n + 1) as real * x == n as real * x + x
  {
  }

  lemma {:induction false} NoSlots(rows: seq<Snapshot>, recs: seq<ProposalRecord>, some: seq<ProposalRecord>)
    ensures CostOfAll(rows, recs, some, 0) == 0.0
  {
    if some != [] {
      NoSlots(rows, recs, some[..|some| - 1]);
    }
  }

  /** The slots before `k`, each with the shares the proposals `some` pay in it. */
  function PaidFor(rows: seq<Snapshot>, recs: seq<ProposalRecord>, some: seq<ProposalRecord>, k: nat): real
    requires k <= |rows|
  {
    if k == 0 then 0.0
    else PaidFor(rows, recs, some, k - 1) + Alive(some, k - 1) as real * Share(rows, recs, k - 1)
  }

  /** Adding up by proposal or by slot gives the same. */
  lemma {:induction false} SumsSwap(rows: seq<Snapshot>, recs: seq<ProposalRecord>, some: seq<ProposalRecord>, k: nat)
    requires k <= |rows|
    ensures CostOfAll(rows, recs, some, k) == PaidFor(rows, recs, some, k)
  {
    hide Share, Cost;
    if k == 0 {
      NoSlots(rows, recs, some);
    } else {
      SumsSwap(rows, recs, some, k - 1);
      OneMoreSlot(rows, recs, some, k - 1);
    }
  }

  lemma {:induction false} SumOfEnergies(rows: seq<Snapshot>, recs: seq<ProposalRecord>, k: nat)
    requires k <= |recs|
    ensures Sum(Energies(rows, recs, k)) == CostOfAll(rows, recs, CommittedOnly(recs[..k]), |rows|)
  {
    hide Cost;
    if k > 0 {
      SumOfEnergies(rows, recs, k - 1);
      var n := k - 1;
      assert recs[..k][..n] == recs[..n];
      var before, some := Energies(rows, recs, n), CommittedOnly(recs[..n]);
      if recs[n].outcome == Committed {
        var cost := Cost(rows, recs, recs[n], |rows|);
        assert (before + [cost])[..|before|] == before;
        assert (some + [recs[n]])[..|some|] == some;
      } else {
        assert before + [] == before && some + [] == some;
      }
    }
  }

  /** Whatever the outcomes: the energies add up to what the committed proposals pay for in all slots. */
  lemma EnergiesAddUp(rows: seq<Snapshot>, recs: seq<ProposalRecord>)
    ensures Sum(Energies(rows, recs, |recs|)) == PaidFor(rows, recs, CommittedOnly(recs), |rows|)
  {
    SumOfEnergies(rows, recs, |recs|);
    SumsSwap(rows, recs, CommittedOnly(recs), |rows|);
    assert recs[..|recs|] == recs;
  }

  /** Awake node-slots of the first `k` slots that some proposal's window covers. */
  function CoveredAwake(rows: seq<Snapshot>, recs: seq<ProposalRecord>, k: nat): nat
    requires k <= |rows|
  {
    if k == 0 then 0
    else CoveredAwake(rows, recs, k - 1) + if Alive(recs, k - 1) > 0 then Awake(rows[k - 1]) else 0
  }

  lemma FullShare(awake: nat, alive: nat)
    requires alive > 0
    ensures alive as real * (awake as real / alive as real) == awake as real
  {
  }

  lemma {:induction false} EverySlotPaid(rows: seq<Snapshot>, recs: seq<ProposalRecord>, k: nat)
    requires k <= |rows|
    ensures PaidFor(rows, recs, recs, k) == CoveredAwake(rows, recs, k) as real
  {
    if k > 0 {
      EverySlotPaid(rows, recs, k - 1);
      if Alive(recs, k - 1) > 0 {
        FullShare(Awake(rows[k - 1]), Alive(recs, k - 1));
      }
    }
  }

  lemma {:induction false} AllOfThem(recs: seq<ProposalRecord>)
    requires forall k :: 0 <= k < |recs| ==> recs[k].outcome == Committed
    ensures CommittedOnly(recs) == recs
  {
    if recs != [] {
      var n := |recs| - 1;
      AllOfThem(recs[..n]);
      assert recs == recs[..n] + [recs[n]];
    }
  }

  /** When every proposal commits, the energies add up to exactly the awake node-slots of the covered slots. */
  lemma NoSlotLost(rows: seq<Snapshot>, recs: seq<ProposalRecord>)
    requires forall k :: 0 <= k < |recs| ==> recs[k].outcome == Committed
    ensures Sum(Energies(rows, recs, |recs|)) == CoveredAwake(rows, recs, |rows|) as real
  {
    EnergiesAddUp(rows, recs);
    AllOfThem(recs);
    EverySlotPaid(rows, recs, |rows|);
  }
}
