/**
  What a capture-effect run leaves behind, proposal by proposal and slot by slot, said in terms
  of whose word has reached whom.
 */
module CeOutcomes {
  import opened Network
  import opened Nodes
  import opened Metrics
  import opened CeProtocols
  import opened CeRun
  import opened CeSlots
  import opened CeVotes
  import CeTwoPc
  import CePaxos
  import opened CeEngine
  import opened CeSimulator

  /** Proposal `id` gets a round. */
  ghost predicate Runs(c: CeConfig, id: nat)
    requires ValidConfig(c)
  {
    StartOf(c, id) < c.maxSlots
  }

  /** The round of proposal `id`. */
  ghost function RoundFor(c: CeConfig, id: nat): (env: CeEnv)
    requires ValidConfig(c)
    ensures ValidEnv(env)
  {
    EnvAt(c, id, StartOf(c, id))
  }

  // ---------------------------------------------------------------- outcomes

  /** The word of all nodes has reached all nodes when the round of proposal `id` ends. */
  ghost predicate AllToAll(c: CeConfig, id: nat)
    requires ValidConfig(c)
  {
    var env := RoundFor(c, id);
    forall i: nat :: i < |c.g| ==> ReachedBy(env, Steps(env, 0), i) == Upto(|c.g|)
  }

  /** A two-phase-commit proposal is recorded Committed exactly if all votes were YES and have reached all nodes. */
  lemma TwoPcRecorded(c: CeConfig, id: nat)
    requires ValidConfig(c) && c.protocol.TwoPcCE? && Runs(c, id)
    ensures OutcomeOf(c, id) == Committed <==> CeTwoPc.EveryoneYes(RoundFor(c, id).proto) && AllToAll(c, id)
    ensures OutcomeOf(c, id) == Committed || OutcomeOf(c, id) == Aborted
  {
    hide StartOf, ReachedBy, Round, Steps, PayloadsAt, Upto;
    var env := RoundFor(c, id);
    var k := Steps(env, 0);
    var ps := PayloadsAt(env, k);
    CeTwoPc.CommittedOutcome(env, k);
    if CeTwoPc.EveryoneYes(env.proto) {
      forall i: nat | i < |ps| ensures InPhase(ps[i], Commit) <==> ReachedBy(env, k, i) == Upto(|ps|) {
        VotesExactly(env, k, i);
        NodeInRange(|ps|, i);
        forall j: nat ensures j in Upto(|ps|) <==> j < |ps| {
          UptoIs(|ps|, j);
        }
      }
      if AllToAll(c, id) {
        assert AllInPhase(ps, Commit);
      }
    }
  }

  lemma UptoIs(n: nat, j: nat)
    ensures j in Upto(n) <==> j < n
  {
  }

  /** The nodes that the word of a majority has reached when the round of proposal `id` ends. */
  ghost function Quorums(c: CeConfig, id: nat): set<nat>
    requires ValidConfig(c)
  {
    var env := RoundFor(c, id);
    set i: nat | i < |c.g| && |ReachedBy(env, Steps(env, 0), i)| >= |c.g| / 2 + 1
  }

  /** A Paxos proposal is recorded Committed exactly if the word of a majority has reached each node of a majority. */
  lemma PaxosRecorded(c: CeConfig, id: nat)
    requires ValidConfig(c) && c.protocol.PaxosCE? && Runs(c, id)
    ensures OutcomeOf(c, id) == if |Quorums(c, id)| >= |c.g| / 2 + 1 then Committed else TimedOut
  {
    hide StartOf, ReachedBy, Round, Steps, PayloadsAt, GoalCount;
    var env := RoundFor(c, id);
    var k := Steps(env, 0);
    CePaxos.CommittedMeansMajority(env, k);
    forall i: nat | i < |c.g|
      ensures NodeGoal(env.proto, PayloadsAt(env, k)[i]) <==> |ReachedBy(env, k, i)| >= |c.g| / 2 + 1
    {
      QuorumExactly(env, k, i);
    }
    assert CePaxos.Certified(env.proto, PayloadsAt(env, k)) == Quorums(c, id);
  }

  /** A message is recorded Committed exactly if it has reached everybody. */
  lemma TomRecorded(c: CeConfig, id: nat)
    requires ValidConfig(c) && c.protocol.TomCE? && Runs(c, id)
    ensures var env := RoundFor(c, id);
      OutcomeOf(c, id) == if AllReached(env, Steps(env, 0)) then Committed else TimedOut
  {
    hide StartOf, ReachedBy, Round, Steps, PayloadsAt;
    TomOutcome(RoundFor(c, id), Steps(RoundFor(c, id), 0));
  }

  // ---------------------------------------------------------------- records

  /** A round takes `n` slots: up to and with the first that meets the goal, or all it may take. */
  ghost predicate Lasts(env: CeEnv, n: nat)
    requires ValidEnv(env)
  {
    && n <= env.maxRoundSlots && (forall q: nat :: q + 1 < n ==> !GoalAt(env, q))
    && (n < env.maxRoundSlots ==> n > 0 && GoalAt(env, n - 1))
  }

  /**
    Every proposal has its record, in order: with slots left, the window of its round, and
    otherwise an empty one and TimedOut.
   */
  lemma RecordIs(c: CeConfig, k: nat, id: nat)
    requires ValidConfig(c) && id < k
    ensures var rec, env := Records(c, k)[id], RoundFor(c, id);
      && rec.proposalId == id && rec.startSlot == env.start && rec.endSlot == rec.startSlot + rec.latency
      && if rec.startSlot < c.maxSlots then Lasts(env, rec.latency) else rec.latency == 0 && rec.outcome == TimedOut
  {
    hide Round, GoalAt, StartOf;
    RecordsAre(c, k, id);
    NextProposal(c, id);
  }

  // ---------------------------------------------------------------- progress

  /** The progress that nodes report before proposal `k` is the number of the last proposal decided, or 0. */
  lemma {:induction false} ProgressIs(c: CeConfig, k: nat)
    requires ValidConfig(c)
    ensures if exists id: nat :: id < k && OutcomeOf(c, id) != TimedOut
            then exists id: nat :: id < k && OutcomeOf(c, id) != TimedOut && ProgressBefore(c, k) == id + 1
                   && forall m: nat :: id < m < k ==> OutcomeOf(c, m) == TimedOut
            else ProgressBefore(c, k) == 0
  {
    hide OutcomeOf;
    if k > 0 {
      ProgressIs(c, k - 1);
    }
  }

  // ---------------------------------------------------------------- rows and meters

  /** The nodes in state `s` in slot `q` of a round. */
  ghost function InState(env: CeEnv, q: nat, s: NodeState): set<nat>
    requires ValidEnv(env)
  {
    set i: nat | i < |env.g| && Round(env, q)[i].state == s
  }

  /** Slot `q` of a round has the row of its own states, and the progress reported then. */
  lemma {:induction false} RowOfSlot(env: CeEnv, progress: seq<nat>, k: nat, q: nat)
    requires ValidEnv(env) && q < k && progress != []
    ensures |RoundRows(env, progress, k)| == k
    ensures var row := RoundRows(env, progress, k)[q];
      && row.slot == env.start + q && row.listening == |InState(env, q, Listen)|
      && row.flooding == |InState(env, q, Flood)| && row.sleeping == |InState(env, q, Sleep)|
      && row.goalReached in progress && forall p :: p in progress ==> p <= row.goalReached
  {
    RowsNumbered(env, progress, k);
    if q < k - 1 {
      RowOfSlot(env, progress, k - 1, q);
    } else {
      var states := StatesOf(Round(env, q));
      RowIs(env.start + q, states, progress);
      forall s: NodeState ensures Those(states, s) == InState(env, q, s) {
      }
    }
  }

  /** Row `row` shows the `q`-th slot of the round of proposal `id`, and the progress reported before it. */
  ghost predicate Shows(c: CeConfig, id: nat, q: nat, row: Snapshot)
    requires ValidConfig(c)
  {
    var env := RoundFor(c, id);
    && row.slot == env.start + q && row.listening == |InState(env, q, Listen)|
    && row.flooding == |InState(env, q, Flood)| && row.sleeping == |InState(env, q, Sleep)|
    && row.goalReached == ProgressBefore(c, id)
  }

  lemma RowsShow(c: CeConfig, id: nat)
    requires ValidConfig(c)
    ensures |RowsOf(c, id)| == StartOf(c, id + 1) - StartOf(c, id)
    ensures forall q: nat :: q < |RowsOf(c, id)| ==> Shows(c, id, q, RowsOf(c, id)[q])
  {
    hide TickedSlots, RoundRows, StartOf, ProgressBefore, InState, OutcomeOf;
    NextProposal(c, id);
    var env, progress := RoundFor(c, id), Everyone(|c.g|, ProgressBefore(c, id));
    RowsNumbered(env, progress, TickedSlots(env));
    forall q: nat | q < |RowsOf(c, id)| ensures Shows(c, id, q, RowsOf(c, id)[q]) {
      RowOfSlot(env, progress, TickedSlots(env), q);
    }
  }

  /** Every slot that a run takes for a proposal has the row of that round, and the progress reported before it. */
  lemma {:induction false} HistoryIs(c: CeConfig, k: nat, id: nat, q: nat)
    requires ValidConfig(c) && id < k && q < StartOf(c, id + 1) - StartOf(c, id)
    ensures |HistoryOf(c, k)| == StartOf(c, k) && StartOf(c, id) + q < |HistoryOf(c, k)|
    ensures Shows(c, id, q, HistoryOf(c, k)[StartOf(c, id) + q])
  {
    hide RowsOf, StartOf, Shows;
    HistoryLength(c, k - 1);
    RowsShow(c, k - 1);
    if id < k - 1 {
      HistoryIs(c, k - 1, id, q);
    }
  }

  lemma {:induction false} HistoryLength(c: CeConfig, k: nat)
    requires ValidConfig(c)
    ensures |HistoryOf(c, k)| == StartOf(c, k)
  {
    hide RowsOf, StartOf, Shows;
    if k > 0 {
      HistoryLength(c, k - 1);
      RowsShow(c, k - 1);
    } else {
      NextProposal(c, 0);
    }
  }

  /**
    The first row of a round shows its initiator flooding, the node whose turn it is, and all
    others listening; nobody has met the goal.
   */
  lemma FirstRow(c: CeConfig, id: nat)
    requires ValidConfig(c) && Runs(c, id)
    ensures InState(RoundFor(c, id), 0, Flood) == {id % |c.g|}
    ensures InState(RoundFor(c, id), 0, Listen) == Upto(|c.g|) - {id % |c.g|}
    ensures forall i: nat :: i < |c.g| ==> !Round(RoundFor(c, id), 0)[i].goalReached
  {
    hide StartOf, Round;
    var env := RoundFor(c, id);
    forall i: nat | i < |c.g|
      ensures Round(env, 0)[i].state == (if i == id % |c.g| then Flood else Listen) && !Round(env, 0)[i].goalReached
    {
      StartsExactly(env, i);
      FlagAtStart(env, i);
    }
  }

  /** How many of the first `k` slots of a round node `i` spends in state `s`. */
  ghost function SlotsIn(env: CeEnv, i: nat, k: nat, s: NodeState): nat
    requires ValidEnv(env) && i < |env.g|
  {
    if k == 0 then 0 else SlotsIn(env, i, k - 1, s) + if i in InState(env, k - 1, s) then 1 else 0
  }

  /** A meter of a node rises in a round by the slots the node spends in that state. */
  lemma {:induction false} MeterOfNode(env: CeEnv, meters: seq<Energy>, k: nat, i: nat, s: NodeState)
    requires ValidEnv(env) && |meters| == |env.g| && i < |env.g|
    ensures Spent(MetersAt(env, meters, k)[i], s) == Spent(meters[i], s) + SlotsIn(env, i, k, s)
  {
    hide Round, ValidEnv;
    if k > 0 {
      MeterOfNode(env, meters, k - 1, i, s);
      assert MetersAt(env, meters, k)[i] == Charge(MetersAt(env, meters, k - 1)[i], Round(env, k - 1)[i].state);
    }
  }
}
