/**
  How many transactions of a two-phase-commit pipeline are in flight at once, which is
  what its awake slots are shared out among.
 */
module TwoPcConcurrency {
  import opened Network
  import opened Metrics
  import opened Energy
  import opened TwoPcRun
  import opened TwoPcSafety
  import opened TwoPcDecisions
  import CiPipeline
  import TwoPcPipeline

  // ---------------------------------------------------------------- one record per decided transaction

  /** The record of transaction `t`. */
  ghost function RecordFor(c: Plan, t: nat): ProposalRecord
    requires c.n > 0
  {
    if Doomed(c, t) then Record(t, c.preparedAt(t), c.processedAt(t), Aborted)
    else Record(t, c.preparedAt(t), c.preparedAt(t + c.n), OutcomeAt(c, t))
  }

  /** The transactions recorded by the rounds before `r` whose window is open in `slot`. */
  ghost function InFlight(c: Plan, r: nat, slot: nat): set<nat>
    requires c.n > 0
  {
    set t: nat | t < c.txs && Decided(c, t, r) && IsOpen(RecordFor(c, t), slot)
  }

  lemma AliveSnocs(recs: seq<ProposalRecord>, more: seq<ProposalRecord>, slot: nat)
    requires |more| <= 1
    ensures Alive(recs + more, slot)
         == Alive(recs, slot) + if more != [] && IsOpen(more[0], slot) then 1 else 0
  {
    if more != [] {
      assert (recs + more)[..|recs|] == recs;
    } else {
      assert recs + more == recs;
    }
  }

  /** The transaction that the preparation of round `q` records, and the one that its processing records. */
  ghost function Closes(c: Plan, q: nat, slot: nat): set<nat>
    requires c.n > 0
  {
    if Ending(c, q) && !Doomed(c, q - c.n) && IsOpen(RecordFor(c, q - c.n), slot) then {q - c.n} else {}
  }

  ghost function Aborts(c: Plan, q: nat, slot: nat): set<nat>
    requires c.n > 0
  {
    if q < c.txs && Doomed(c, q) && IsOpen(RecordFor(c, q), slot) then {q} else {}
  }

  lemma FlightStep(c: Plan, q: nat, slot: nat)
    requires c.n > 0
    ensures InFlight(c, q + 1, slot) == InFlight(c, q, slot) + Closes(c, q, slot) + Aborts(c, q, slot)
    ensures InFlight(c, q, slot) !! Closes(c, q, slot) !! Aborts(c, q, slot)
  {
    hide Doomed, RecordFor, IsOpen;
  }

  lemma RoundAlive(c: Plan, q: nat, slot: nat)
    requires c.n > 0
    ensures Alive(RecordsAfter(c, q + 1), slot)
         == Alive(RecordsAfter(c, q), slot) + |Closes(c, q, slot)| + |Aborts(c, q, slot)|
  {
    hide Doomed, OutcomeAt;
    AliveSnocs(RecordsAfter(c, q), Closing(c, q), slot);
    AliveSnocs(RecordsAfter(c, q) + Closing(c, q), Aborting(c, q), slot);
  }

  /** Each is recorded once, so the live records are counted by their transactions. */
  lemma {:induction false} AliveCounts(c: Plan, r: nat, slot: nat)
    requires c.n > 0
    ensures Alive(RecordsAfter(c, r), slot) == |InFlight(c, r, slot)|
  {
    hide Doomed, RecordFor, IsOpen, Closes, Aborts, RecordsAfter, InFlight, Alive;
    if r > 0 {
      AliveCounts(c, r - 1, slot);
      RoundAlive(c, r - 1, slot);
      FlightStep(c, r - 1, slot);
      DisjointSizes(InFlight(c, r - 1, slot), Closes(c, r - 1, slot), Aborts(c, r - 1, slot));
    } else {
      NothingInFlight(c, slot);
    }
  }

  lemma NothingInFlight(c: Plan, slot: nat)
    requires c.n > 0
    ensures Alive(RecordsAfter(c, 0), slot) == |InFlight(c, 0, slot)|
  {
    assert InFlight(c, 0, slot) == {};
  }

  lemma DisjointSizes(a: set<nat>, b: set<nat>, d: set<nat>)
    requires a !! b !! d
    ensures |a + b + d| == |a| + |b| + |d|
  {
  }

  // ---------------------------------------------------------------- rounds in time

  /** Rounds follow one another without a pause. */
  ghost predicate InTime(c: Plan) {
    forall r: nat :: c.preparedAt(r) <= c.processedAt(r) == c.preparedAt(r + 1)
  }

  lemma {:induction false} StartsGrow(c: Plan, q: nat, r: nat)
    requires InTime(c) && q <= r
    ensures c.preparedAt(q) <= c.preparedAt(r)
  {
    if q < r {
      StartsGrow(c, q, r - 1);
      assert c.preparedAt(r - 1) <= c.processedAt(r - 1);
    }
  }

  /** A slot between the starts of two rounds lies in a round between them. */
  lemma {:induction false} RoundOfSlot(c: Plan, q: nat, r: nat, slot: nat) returns (rho: nat)
    requires InTime(c) && q < r && c.preparedAt(q) <= slot < c.preparedAt(r)
    ensures q <= rho < r && c.preparedAt(rho) <= slot < c.preparedAt(rho + 1)
    decreases r
  {
    rho := r - 1;
    if slot < c.preparedAt(r - 1) {
      rho := RoundOfSlot(c, q, r - 1, slot);
    }
  }

  /** Transaction `t` is the one of round `rho`, or an undoomed one of less than a full turn before. */
  ghost predicate OpenIn(c: Plan, t: nat, rho: nat) {
    t == rho || (t < rho < t + c.n && !Doomed(c, t))
  }

  /** The transactions in flight in a slot of round `rho`. */
  lemma FlightExactly(c: Plan, r: nat, slot: nat, rho: nat)
    requires c.n > 0 && InTime(c) && c.preparedAt(rho) <= slot < c.preparedAt(rho + 1)
    ensures forall t: nat :: t in InFlight(c, r, slot) <==> t < c.txs && Decided(c, t, r) && OpenIn(c, t, rho)
  {
    hide Doomed, OutcomeAt, InTime, IsOpen, RecordFor, OpenIn, Decided;
    forall t: nat ensures IsOpen(RecordFor(c, t), slot) <==> OpenIn(c, t, rho) {
      OpenExactly(c, t, slot, rho);
    }
  }

  lemma OpenExactly(c: Plan, t: nat, slot: nat, rho: nat)
    requires c.n > 0 && InTime(c) && c.preparedAt(rho) <= slot < c.preparedAt(rho + 1)
    ensures IsOpen(RecordFor(c, t), slot) <==> OpenIn(c, t, rho)
  {
    hide Doomed, OutcomeAt;
    if t <= rho {
      StartsGrow(c, t, rho);
    } else {
      StartsGrow(c, rho + 1, t);
    }
    if rho < t + c.n {
      StartsGrow(c, rho + 1, t + c.n);
    } else {
      StartsGrow(c, t + c.n, rho);
    }
    if t < rho {
      StartsGrow(c, t + 1, rho);
    }
    assert c.processedAt(t) == c.preparedAt(t + 1);
  }

  /** The numbers `lo .. hi`. */
  function Range(lo: nat, hi: nat): (r: set<nat>)
    ensures forall t: nat :: t in r <==> lo <= t < hi
    decreases hi
  {
    if lo < hi then Range(lo, hi - 1) + {hi - 1} else {}
  }

  lemma {:induction false} RangeSize(lo: nat, hi: nat)
    ensures |Range(lo, hi)| == if lo < hi then hi - lo else 0
    decreases hi
  {
    if lo < hi {
      RangeSize(lo, hi - 1);
    }
  }

  /**
    Whatever is lost and whatever coins fall: in no slot are more transactions in flight than
    there are nodes, nor than there are transactions.
   */
  lemma AliveBounded(c: Plan, r: nat, slot: nat)
    requires c.n > 0 && InTime(c)
    ensures Alive(RecordsAfter(c, r), slot) <= c.n && Alive(RecordsAfter(c, r), slot) <= c.txs
  {
    hide RecordsAfter, InFlight, Alive, InTime, Upto;
    AliveCounts(c, r, slot);
    var flight := InFlight(c, r, slot);
    UptoSize(c.txs);
    FlightOfTxs(c, r, slot);
    SubsetSize(flight, Upto(c.txs));
    if t: nat :| t in flight {
      var first, next := FlightInRange(c, r, slot, t);
      RangeSize(first, next);
      SubsetSize(flight, Range(first, next));
    }
  }

  lemma FlightOfTxs(c: Plan, r: nat, slot: nat)
    requires c.n > 0
    ensures InFlight(c, r, slot) <= Upto(c.txs)
  {
    hide Doomed, RecordFor, IsOpen, Upto;
  }

  lemma FlightInRange(c: Plan, r: nat, slot: nat, t: nat) returns (first: nat, next: nat)
    requires c.n > 0 && InTime(c) && t in InFlight(c, r, slot)
    ensures first <= next <= first + c.n && InFlight(c, r, slot) <= Range(first, next)
  {
    hide Doomed, OutcomeAt, Decided;
    assert c.processedAt(t) == c.preparedAt(t + 1);
    var rho := RoundOfSlot(c, t, if Doomed(c, t) then t + 1 else t + c.n, slot);
    FlightExactly(c, r, slot, rho);
    hide InFlight, InTime;
    first, next := if rho + 1 < c.n then 0 else rho + 1 - c.n, rho + 1;
  }

  /**
    Without aborts, once all is decided: a slot of round `rho` has exactly the transactions of
    the last `n` rounds in flight; from the first round by which as many as there can be have
    been proposed to the last before the first of them is missing these are min(n, txs).
   */
  lemma CalmAlive(c: Plan, r: nat, slot: nat, rho: nat)
    requires c.n > 0 && InTime(c) && (forall t: nat :: t < c.txs ==> !Doomed(c, t)) && r > c.txs + c.n
    requires c.preparedAt(rho) <= slot < c.preparedAt(rho + 1)
    ensures var first, next := if rho + 1 < c.n then 0 else rho + 1 - c.n, if rho < c.txs then rho + 1 else c.txs;
      Alive(RecordsAfter(c, r), slot) == if first < next then next - first else 0
    ensures c.n <= rho + 1 <= c.txs ==> Alive(RecordsAfter(c, r), slot) == c.n
    ensures c.txs <= rho + 1 <= c.n ==> Alive(RecordsAfter(c, r), slot) == c.txs
  {
    hide Doomed, RecordsAfter, InFlight, Alive, InTime, Range;
    AliveCounts(c, r, slot);
    var first, next := if rho + 1 < c.n then 0 else rho + 1 - c.n, if rho < c.txs then rho + 1 else c.txs;
    RangeSize(first, next);
    CalmFlight(c, r, slot, rho, first, next);
  }

  lemma CalmFlight(c: Plan, r: nat, slot: nat, rho: nat, first: nat, next: nat)
    requires c.n > 0 && InTime(c) && (forall t: nat :: t < c.txs ==> !Doomed(c, t)) && r > c.txs + c.n
    requires c.preparedAt(rho) <= slot < c.preparedAt(rho + 1)
    requires first == (if rho + 1 < c.n then 0 else rho + 1 - c.n) && next == if rho < c.txs then rho + 1 else c.txs
    ensures InFlight(c, r, slot) == Range(first, next)
  {
    hide Doomed, InFlight, InTime, Range;
    FlightExactly(c, r, slot, rho);
    forall t: nat ensures t in InFlight(c, r, slot) <==> t in Range(first, next) {
      assert t < c.txs ==> !Doomed(c, t);
    }
  }

  // ---------------------------------------------------------------- in a run

  lemma PlansAreInTime(config: CiPipeline.PipeConfig, txs: nat, coins: (nat, nat) -> bool)
    requires CiPipeline.ValidPipe(config)
    ensures InTime(TwoPcPipeline.PlanOf(config, txs, coins))
  {
    hide TwoPcPipeline.PlanOf, CiPipeline.Takers;
    var c := TwoPcPipeline.PlanOf(config, txs, coins);
    forall r: nat ensures c.preparedAt(r) <= c.processedAt(r) == c.preparedAt(r + 1) {
      TwoPcPipeline.PlanIs(config, txs, coins, r);
      TwoPcPipeline.PlanIs(config, txs, coins, r + 1);
    }
  }

  /** The records that a simulated run leaves after any number of rounds, on any network and under any loss. */
  lemma RunConcurrency(ci: TwoPcPipeline.TwoPcCi, core: TwoPcPipeline.Core, k: nat, slot: nat)
    requires ci.Reached(core, k)
    ensures Alive(core.metrics.proposals, slot) <= |core.config.g| && Alive(core.metrics.proposals, slot) <= ci.numTxs
  {
    hide CiPipeline.Accounted, CiPipeline.RoundStart, CiPipeline.History, TwoPcPipeline.PlanOf, After, Alive,
         TwoPcPipeline.Informing;
    var c := TwoPcPipeline.PlanOf(core.config, ci.numTxs, ci.coins);
    TwoPcPipeline.PlanIs(core.config, ci.numTxs, ci.coins, 0);
    PlansAreInTime(core.config, ci.numTxs, ci.coins);
    DecidesOnTime(c, k);
    AliveBounded(c, k, slot);
  }
}
