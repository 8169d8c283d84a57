/** Amortised energy of capture-effect runs: proposals never overlap and nobody sleeps. */
module CeEnergy {
  import opened Metrics
  import opened CeSimulator
  import opened Energy

  /** Exactly one proposal is alive in every slot of a run. */
  lemma {:induction false} OneAlive(c: CeConfig, k: nat, slot: nat)
    requires ValidConfig(c)
    ensures Alive(Records(c, k), slot) == if slot < StartOf(c, k) then 1 else 0
  {
    hide OutcomeOf, EnvAt;
    if k > 0 {
      OneAlive(c, k - 1, slot);
      assert Records(c, k)[..k - 1] == Records(c, k - 1);
    }
  }

  lemma {:induction false} WindowCost(c: CeConfig, rows: seq<Snapshot>, rec: ProposalRecord, k: nat)
    requires ValidConfig(c) && k <= |rows| == StartOf(c, c.numProposals)
    requires forall j :: 0 <= j < |rows| ==> AllAwake(rows[j], |c.g|)
    requires rec.startSlot <= rec.endSlot
    ensures Cost(rows, Records(c, c.numProposals), rec, k)
         == |c.g| as real * (if k <= rec.startSlot then 0 else if k < rec.endSlot then k - rec.startSlot
                             else rec.endSlot - rec.startSlot) as real
  {
    hide StartOf, Records, ValidConfig;
    if k > 0 {
      WindowCost(c, rows, rec, k - 1);
      OneAlive(c, c.numProposals, k - 1);
    }
  }

  lemma {:induction false} StartsGrow(c: CeConfig, i: nat, k: nat)
    requires ValidConfig(c) && i <= k
    ensures StartOf(c, i) <= StartOf(c, k)
  {
    hide ValidConfig, StartOf;
    if i < k {
      StartsGrow(c, i, k - 1);
      NextStart(c, k - 1);
    }
  }

  lemma NextStart(c: CeConfig, k: nat)
    requires ValidConfig(c)
    ensures StartOf(c, k) <= StartOf(c, k + 1)
  {
    hide EnvAt;
  }

  /** In a series of awake rows a proposal's amortised energy is one awake slot per node and slot it took. */
  lemma EnergyIsLatency(c: CeConfig, rows: seq<Snapshot>, id: nat)
    requires ValidConfig(c) && id < c.numProposals && |rows| == StartOf(c, c.numProposals)
    requires forall j :: 0 <= j < |rows| ==> AllAwake(rows[j], |c.g|)
    ensures var rec := Records(c, c.numProposals)[id];
      Cost(rows, Records(c, c.numProposals), rec, |rows|) == |c.g| as real * rec.latency as real
  {
    hide StartOf, Records, OutcomeOf, AllAwake, Cost;
    RecordsAre(c, c.numProposals, id);
    NextStart(c, id);
    StartsGrow(c, id + 1, c.numProposals);
    WindowCost(c, rows, RecordOf(c, id), |rows|);
  }

  /** At the end of a run sampled at every slot, the snapshots and the records it leaves say exactly that. */
  lemma RunEnergyIsLatency(sim: Simulator, next: nat, id: nat)
    requires sim.Finished(next) && sim.config.interval == 1 && id < sim.config.numProposals
    ensures id < |sim.metrics.proposals|
    ensures var rows, recs := sim.metrics.snapshots, sim.metrics.proposals;
      PerSlot(rows) && Cost(rows, recs, recs[id], |rows|) == |sim.config.g| as real * recs[id].latency as real
  {
    hide StartOf, Records, Balanced, HistoryOf, Cost, AllAwake;
    EverySlotSampled(sim.metrics.BooksAt(next));
    EnergyIsLatency(sim.config, sim.metrics.snapshots, id);
  }
}
