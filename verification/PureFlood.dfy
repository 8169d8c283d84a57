/** Repeated one-shot floods with no protocol on top: how many receivers each flood covers. */
module PureFlood {
  import opened Wrappers
  import opened Network
  import opened Nodes
  import opened CiPipeline

  type Core = CiCore<Option<nat>>

  /** The receivers of flood `f`: everybody who took part but its initiator. */
  ghost function Receivers(c: PipeConfig, f: nat): set<nat>
    requires ValidPipe(c)
  {
    Takers(c, f) - {f % |c.g|}
  }

  /** Receivers covered by the floods before `k`, all told. */
  ghost function Covered(c: PipeConfig, k: nat): nat
    requires ValidPipe(c)
  {
    if k == 0 then 0 else Covered(c, k - 1) + |Receivers(c, k - 1)|
  }

  lemma ReceiversBounded(c: PipeConfig, f: nat)
    requires ValidPipe(c)
    ensures |Receivers(c, f)| <= |c.g| - 1
  {
    hide FinalWave;
    var n := |c.g|;
    UptoSize(n);
    assert Receivers(c, f) <= Upto(n) - {f % n};
    SubsetSize(Receivers(c, f), Upto(n) - {f % n});
  }

  /** Coverage never exceeds the opportunities, and meets them all on a connected network with patient links. */
  lemma {:induction false} CoverageBounded(c: PipeConfig, k: nat)
    requires ValidPipe(c)
    ensures Covered(c, k) <= k * (|c.g| - 1)
    ensures Connected(c.g) && c.ci.roundSlots.None? && PatientLinks(c) ==> Covered(c, k) == k * (|c.g| - 1)
  {
    hide Receivers, Connected, PatientLinks;
    if k > 0 {
      CoverageBounded(c, k - 1);
      ReceiversBounded(c, k - 1);
      if Connected(c.g) && c.ci.roundSlots.None? && PatientLinks(c) {
        EverybodyReceives(c, k - 1);
      }
      assert k * (|c.g| - 1) == (k - 1) * (|c.g| - 1) + (|c.g| - 1);
    }
  }

  lemma EverybodyReceives(c: PipeConfig, f: nat)
    requires ValidPipe(c) && Connected(c.g) && c.ci.roundSlots.None? && PatientLinks(c)
    ensures |Receivers(c, f)| == |c.g| - 1
  {
    var n := |c.g|;
    forall v: nat | v < n ensures v in Takers(c, f) {
      EverybodyTakesPart(c, f, v);
    }
    hide FinalWave;
    UptoSize(n);
    assert Takers(c, f) == Upto(n);
  }

  /** Clear every payload and reset every radio. */
  method ClearAll(core: Core)
    requires core.Running()
    modifies core.nodes
    ensures core.Running() && core.roundNum == old(core.roundNum)
    ensures forall i :: 0 <= i < |core.nodes| ==> core.nodes[i].payload == None
  {
    hide Accounted;
    for k := 0 to |core.nodes|
      invariant forall i :: 0 <= i < k ==> core.nodes[i].payload == None
      invariant forall i :: 0 <= i < |core.nodes| ==> core.nodes[i].Meter() == old(core.nodes[i].Meter())
    {
      core.nodes[k].payload := None;
      core.nodes[k].ResetRound();
    }
    assert Meters(core.nodes) == old(Meters(core.nodes));
  }

  /** How many nodes but the initiator hold the payload of flood `f`. */
  method CountCovered(core: Core, f: nat) returns (covered: nat)
    requires core.Flooded() && core.roundNum == f
    requires forall i :: 0 <= i < |core.nodes| ==>
      (core.nodes[i].payload == Some(f) <==> i in Takers(core.config, f))
    ensures covered == |Receivers(core.config, f)|
  {
    hide Accounted, FinalWave;
    covered := 0;
    ghost var counted: set<nat> := {};
    for k := 0 to |core.nodes|
      invariant covered == |counted|
      invariant forall i: nat :: i in counted <==> i < k && i in Receivers(core.config, f)
    {
      if core.nodes[k].id != core.Initiator() && core.nodes[k].payload == Some(f) {
        covered := covered + 1;
        counted := counted + {k};
      }
    }
    assert counted == Receivers(core.config, f);
  }

  /** One flood, counted. */
  method FloodOnce(core: Core) returns (covered: nat)
    requires core.Running()
    modifies core, core.nodes, core.metrics`snapshots, core.metrics`history
    ensures core.Running() && core.roundNum == old(core.roundNum) + 1
    ensures covered == |Receivers(core.config, old(core.roundNum))|
  {
    hide Accounted, RoundStart, FinalWave, Takers, Receivers;
    var f := core.roundNum;
    ClearAll(core);
    SeedInitiator(core, f);
    FloodSeed(core, f);
    covered := CountCovered(core, f);
    core.roundNum := f + 1;
  }

  /** The seeded payload ends up with the participants and nobody else. */
  method FloodSeed(core: Core, f: nat)
    requires core.Running() && core.roundNum == f && core.nodes[core.Initiator()].payload == Some(f)
    requires forall i :: 0 <= i < |core.nodes| && i != core.Initiator() ==> core.nodes[i].payload == None
    modifies core`currentSlot, core`nextSnapshot, core.nodes, core.metrics`snapshots, core.metrics`history
    ensures core.Flooded() && core.roundNum == f
    ensures forall i :: 0 <= i < |core.nodes| ==>
      (core.nodes[i].payload == Some(f) <==> i in Takers(core.config, f))
  {
    hide Accounted, RoundStart, FinalWave, Takers, FloodRows, Progress;
    core.FloodIdentical();
  }

  method SeedInitiator(core: Core, f: nat)
    requires core.Running() && forall i :: 0 <= i < |core.nodes| ==> core.nodes[i].payload == None
    modifies core.nodes`payload
    ensures core.Running() && core.nodes[core.Initiator()].payload == Some(f)
    ensures forall i :: 0 <= i < |core.nodes| && i != core.Initiator() ==> core.nodes[i].payload == None
  {
    hide Accounted;
    core.nodes[core.Initiator()].payload := Some(f);
    assert Meters(core.nodes) == old(Meters(core.nodes));
  }

  /**
    The calibration run: floods until all are done or the slots run out.  A node counts as
    covered exactly when the wave of that very flood reached it.
   */
  method Run(core: Core, numFloods: nat) returns (floods: nat, receiversCovered: nat, opportunities: nat)
    requires core.Running() && core.roundNum == 0
    modifies core, core.nodes, core.metrics`snapshots, core.metrics`history
    ensures floods <= numFloods && receiversCovered == Covered(core.config, floods)
    ensures opportunities == floods * (|core.config.g| - 1) && receiversCovered <= opportunities
    ensures floods == numFloods || RoundStart(core.config, floods) >= core.config.maxSlots
    ensures core.Sound()
  {
    hide Accounted, RoundStart, FinalWave, Takers, Receivers;
    floods, receiversCovered, opportunities := 0, 0, 0;
    for f := 0 to numFloods
      invariant core.Running() && core.roundNum == floods == f
      invariant receiversCovered == Covered(core.config, floods)
      invariant opportunities == floods * (|core.config.g| - 1)
    {
      if core.currentSlot >= core.config.maxSlots {
        break;
      }
      var covered := FloodOnce(core);
      receiversCovered := receiversCovered + covered;
      assert (floods + 1) * (|core.config.g| - 1) == floods * (|core.config.g| - 1) + (|core.config.g| - 1);
      opportunities := opportunities + (|core.config.g| - 1);
      floods := floods + 1;
    }
    CoverageBounded(core.config, floods);
  }
}
