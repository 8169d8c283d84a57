/**
  What every payload of a capture-effect round says, bit by bit, in terms of who has heard
  whom: whose word has reached a node, and what the node makes of it.
 */
module CeVotes {
  import opened Wrappers
  import opened Bitmaps
  import opened Messages
  import opened Network
  import opened Nodes
  import opened Metrics
  import opened CeProtocols
  import opened CeRun
  import opened CeSlots

  // ---------------------------------------------------------------- sets of bits

  lemma UnitedVoters(a: seq<bool>, b: seq<bool>, n: nat)
    requires |a| == |b| == n
    ensures Voters(OrBits(a, b, n)) == Voters(a) + Voters(b)
  {
  }

  lemma AddedVoter(a: seq<bool>, id: nat)
    requires id < |a|
    ensures Voters(WithBit(a, id)) == Voters(a[id := true]) == Voters(a) + {id}
  {
  }

  lemma SingleVoter(n: nat, id: nat)
    requires id < n
    ensures Voters(OneBit(n, id)) == Voters(NoBits(n)[id := true]) == {id}
  {
  }

  lemma AllVote(n: nat, bits: seq<bool>)
    requires |bits| == n > 0
    ensures HasUnanimity(n, bits) <==> Voters(bits) == Upto(n)
  {
    if Voters(bits) == Upto(n) {
      forall i: nat | i < n ensures bits[i] {
        assert i in Voters(bits);
      }
    }
  }

  // ---------------------------------------------------------------- whose word has reached a node

  /**
    The nodes whose word has reached node `i` by the `k`-th slot: the initiator has its own
    from the start, and whoever hears a node that has something to say has all of that, and
    adds its own.
   */
  ghost function ReachedBy(env: CeEnv, k: nat, i: nat): (s: set<nat>)
    requires ValidEnv(env) && i < |env.g|
    ensures s != {} ==> i in s
    ensures s <= Upto(|env.g|)
  {
    if k == 0 then (if i == env.initiator then {i} else {})
    else
      var mine, h := ReachedBy(env, k - 1, i), Heard(env, k - 1, i);
      var theirs := if h.Some? then ReachedBy(env, k - 1, h.value) else {};
      if theirs == {} then mine else mine + theirs + {i}
  }

  function Shown(payload: Payload): set<nat> {
    match payload
    case Blank => {}
    case TwoPc(pkt) => Voters(pkt.bits)
    case Paxos(pkt) => Voters(pkt.bits)
    case Tom(pkt) => Voters(pkt.bits)
  }

  /** The slot of node `i` seen through its payload. */
  lemma PayloadStep(env: CeEnv, k: nat, i: nat)
    requires ValidEnv(env) && i < |env.g|
    ensures forall j: nat :: j < |env.g| ==> Shaped(env.proto, PayloadsAt(env, k)[j], j)
    ensures var ps, h := PayloadsAt(env, k), Heard(env, k, i);
      if h.None? then PayloadsAt(env, k + 1)[i] == ps[i]
      else Mergeable(env.proto, ps[i], ps[h.value], i)
           && PayloadsAt(env, k + 1)[i] == Merge(env.proto, ps[i], ps[h.value], i).0
  {
    hide Round, Merge, Captured, Shaped, Recovers, Mergeable;
    RoundStep(env, k);
    HeardIs(env, k, i);
    var ns := Round(env, k);
    var h := StepPayload(env, env.start + k, ns, i);
    assert forall j: nat :: j < |env.g| ==> Shaped(env.proto, ns[j].payload, j);
    if h.Some? {
      MergeShaped(env.proto, ns[i].payload, ns[h.value].payload, i, h.value);
    }
  }

  // ---------------------------------------------------------------- Paxos and multicast

  lemma UnionMerge(p: Protocol, a: Payload, b: Payload, i: nat, h: nat)
    requires !p.TwoPcCE? && i < p.numNodes && Shaped(p, a, i) && Shaped(p, b, h)
    ensures Mergeable(p, a, b, i)
    ensures b == Blank ==> Merge(p, a, b, i).0 == a
    ensures b != Blank ==> Shown(Merge(p, a, b, i).0) == Shown(a) + Shown(b) + {i}
  {
    hide Voters;
    match (a, b)
    case (Paxos(x), Paxos(y)) =>
      UnitedVoters(x.bits, y.bits, p.numNodes);
      AddedVoter(OrBits(x.bits, y.bits, p.numNodes), i);
    case (Tom(x), Tom(y)) =>
      UnitedVoters(x.bits, y.bits, p.numNodes);
      AddedVoter(OrBits(x.bits, y.bits, p.numNodes), i);
    case (_, Paxos(y)) => AddedVoter(y.bits, i);
    case (_, Tom(y)) => AddedVoter(y.bits, i);
    case _ =>
  }

  lemma OpeningShown(p: Protocol, initiator: nat)
    requires !p.TwoPcCE? && initiator < p.numNodes
    ensures Shown(Opening(p, initiator)) == {initiator}
  {
    SingleVoter(p.numNodes, initiator);
  }

  /**
    In a Paxos or multicast round a node's bitmap names exactly the nodes whose word has
    reached it, whatever the losses, captures and timeouts; before any has, it holds nothing.
   */
  lemma {:induction false} ShowsExactly(env: CeEnv, k: nat, i: nat)
    requires ValidEnv(env) && !env.proto.TwoPcCE? && i < |env.g|
    ensures Shown(PayloadsAt(env, k)[i]) == ReachedBy(env, k, i)
    ensures PayloadsAt(env, k)[i] == Blank <==> ReachedBy(env, k, i) == {}
    ensures Shaped(env.proto, PayloadsAt(env, k)[i], i)
  {
    hide Round, Merge, Shaped, Heard, Shown, Mergeable, Opening;
    if k == 0 {
      OpeningShown(env.proto, env.initiator);
      OpeningShaped(env.proto, env.initiator);
      FirstPayloads(env);
      BlankShows(env.proto, PayloadsAt(env, 0)[i], i);
    } else {
      PayloadStep(env, k - 1, i);
      ShowsExactly(env, k - 1, i);
      PayloadStep(env, k, i);
      var ps, h := PayloadsAt(env, k - 1), Heard(env, k - 1, i);
      if h.Some? {
        ShowsExactly(env, k - 1, h.value);
        UnionMerge(env.proto, ps[i], ps[h.value], i, h.value);
      }
      BlankShows(env.proto, PayloadsAt(env, k)[i], i);
    }
  }

  lemma FirstPayloads(env: CeEnv)
    requires ValidEnv(env)
    ensures forall j: nat :: j < |env.g| ==>
      PayloadsAt(env, 0)[j] == if j == env.initiator then Opening(env.proto, j) else Blank
    ensures forall j: nat :: j < |env.g| ==> Shaped(env.proto, PayloadsAt(env, 0)[j], j)
  {
    OpeningShaped(env.proto, env.initiator);
  }

  lemma BlankShows(p: Protocol, payload: Payload, i: nat)
    requires Shaped(p, payload, i)
    ensures payload == Blank <==> Shown(payload) == {}
  {
    if payload != Blank {
      assert i in Shown(payload);
    }
  }

  /** A Paxos node meets its goal exactly when the word of a majority has reached it. */
  lemma QuorumExactly(env: CeEnv, k: nat, i: nat)
    requires ValidEnv(env) && env.proto.PaxosCE? && i < |env.g|
    ensures NodeGoal(env.proto, PayloadsAt(env, k)[i]) <==> |ReachedBy(env, k, i)| >= |env.g| / 2 + 1
  {
    hide ReachedBy, Round;
    ShowsExactly(env, k, i);
    if PayloadsAt(env, k)[i] != Blank {
      VotersCounted(PayloadsAt(env, k)[i].pax.bits);
    }
  }

  ghost predicate AllReached(env: CeEnv, k: nat)
    requires ValidEnv(env)
  {
    forall i: nat :: i < |env.g| ==> ReachedBy(env, k, i) != {}
  }

  /** A multicast round is recorded Committed exactly if every node holds the message, which then is the genuine one. */
  lemma TomOutcome(env: CeEnv, k: nat)
    requires ValidEnv(env) && env.proto.TomCE?
    ensures Outcome(env.proto, PayloadsAt(env, k)) == Committed <==> AllReached(env, k)
    ensures Outcome(env.proto, PayloadsAt(env, k)) != Committed ==> Outcome(env.proto, PayloadsAt(env, k)) == TimedOut
    ensures forall i: nat :: i < |env.g| && ReachedBy(env, k, i) != {} ==>
      PayloadsAt(env, k)[i].Tom? && PayloadsAt(env, k)[i].tom.data == Msg(env.proto.currentTerm)
  {
    hide ReachedBy, Round;
    forall i: nat | i < |env.g|
      ensures ReachedBy(env, k, i) != {} <==> NodeGoal(env.proto, PayloadsAt(env, k)[i])
      ensures ReachedBy(env, k, i) != {} ==>
        PayloadsAt(env, k)[i].Tom? && PayloadsAt(env, k)[i].tom.data == Msg(env.proto.currentTerm)
    {
      ShowsExactly(env, k, i);
    }
    hide NodeGoal;
    var ps := PayloadsAt(env, k);
    if NetworkGoal(env.proto, ps) {
      forall i: nat | i < |env.g| ensures ReachedBy(env, k, i) != {} {
        assert NodeGoal(env.proto, ps[i]);
      }
    }
  }

  // ---------------------------------------------------------------- packets of other terms

  function TermOf(payload: Payload): nat
    requires payload != Blank
  {
    match payload
    case TwoPc(pkt) => pkt.term
    case Paxos(pkt) => pkt.term
    case Tom(pkt) => pkt.term
  }

  predicate OfProtocol(p: Protocol, payload: Payload) {
    match p
    case TwoPcCE(_, _, _) => payload.TwoPc?
    case PaxosCE(_, _) => payload.Paxos?
    case TomCE(_, _) => payload.Tom?
  }

  /**
    Any two packets of a protocol: an older one is ignored; a newer one replaces what is there,
    as received in Paxos, and in the other two just as if nothing had been there.
   */
  lemma NewerTermWins(p: Protocol, a: Payload, b: Payload, i: nat)
    requires Mergeable(p, a, b, i) && OfProtocol(p, a) && OfProtocol(p, b)
    ensures TermOf(b) < TermOf(a) ==> Merge(p, a, b, i) == (a, false)
    ensures TermOf(b) > TermOf(a) ==> Merge(p, a, b, i) == if p.PaxosCE? then (b, true) else Merge(p, Blank, b, i)
    ensures TermOf(Merge(p, a, b, i).0) == if TermOf(b) > TermOf(a) then TermOf(b) else TermOf(a)
    ensures TermOf(b) > TermOf(a) ==> Merge(p, a, b, i).1
  {
  }

  /**
    Any two packets of the same term, in multicast and in Paxos: the data are taken over if
    there are none, every bit among the nodes that either has is there afterwards, and one's own.
   */
  lemma SameTermUnites(p: Protocol, a: Payload, b: Payload, i: nat)
    requires !p.TwoPcCE? && Mergeable(p, a, b, i) && OfProtocol(p, a) && OfProtocol(p, b) && TermOf(a) == TermOf(b)
    ensures var (merged, newInfo) := Merge(p, a, b, i);
      && OfProtocol(p, merged) && |BitsOf(merged)| == |BitsOf(a)| && (newInfo <==> merged != a)
      && (forall j :: 0 <= j < |BitsOf(a)| ==>
            (BitsOf(merged)[j] <==> BitsOf(a)[j] || j == i || (j < p.numNodes && j < |BitsOf(b)| && BitsOf(b)[j])))
      && DataOf(merged) == if p.TomCE? && DataOf(a) == Empty then DataOf(b) else DataOf(a)
  {
  }

  function BitsOf(payload: Payload): seq<bool>
    requires payload != Blank
  {
    match payload
    case TwoPc(pkt) => pkt.bits
    case Paxos(pkt) => pkt.bits
    case Tom(pkt) => pkt.bits
  }

  function DataOf(payload: Payload): Data
    requires payload != Blank
  {
    match payload
    case TwoPc(pkt) => pkt.data
    case Paxos(pkt) => pkt.data
    case Tom(pkt) => pkt.data
  }

  // ---------------------------------------------------------------- two-phase commit

  ghost function Unwilling(p: Protocol): set<nat>
    requires p.TwoPcCE?
  {
    set j: nat | j < p.numNodes && p.votesNo(p.currentTerm, j)
  }

  /** What a node makes of the votes that have reached it. */
  ghost function PhaseOf(p: Protocol, votes: set<nat>): Phase
    requires p.TwoPcCE?
  {
    if votes * Unwilling(p) != {} then Abort else if votes == Upto(p.numNodes) then Commit else Prepare
  }

  /**
    The nodes whose acknowledgement of its decision has reached node `i` by the `k`-th slot;
    none before it has decided.
   */
  ghost function AckedBy(env: CeEnv, k: nat, i: nat): (s: set<nat>)
    requires ValidEnv(env) && env.proto.TwoPcCE? && i < |env.g|
  {
    if PhaseOf(env.proto, ReachedBy(env, k, i)) == Prepare then {}
    else if k == 0 then {i}
    else
      var h := Heard(env, k - 1, i);
      AckedBy(env, k - 1, i) + (if h.Some? then AckedBy(env, k - 1, h.value) else {}) + {i}
  }

  /** Node `i` has been reached by these votes and these acknowledgements, and says just that. */
  ghost predicate Says(p: Protocol, payload: Payload, i: nat, votes: set<nat>, acks: set<nat>)
    requires p.TwoPcCE?
  {
    && Shaped(p, payload, i) && votes <= Upto(p.numNodes)
    && if payload == Blank then votes == acks == {}
       else i in votes && payload.two.phase == PhaseOf(p, votes)
            && if payload.two.phase == Prepare then Shown(payload) == votes && acks == {} else Shown(payload) == acks
  }

  /** What two nodes' votes make together. */
  ghost function Together(votes: set<nat>, theirs: set<nat>, i: nat): set<nat> {
    if theirs == {} then votes else votes + theirs + {i}
  }

  ghost predicate MergeSays(p: Protocol, a: Payload, b: Payload, i: nat, va: set<nat>, aa: set<nat>, vb: set<nat>,
                            ab: set<nat>)
    requires p.TwoPcCE?
  {
    var votes := Together(va, vb, i);
    Says(p, Merge(p, a, b, i).0, i, votes, if PhaseOf(p, votes) == Prepare then {} else aa + ab + {i})
  }

  lemma BlankBrings(p: Protocol, a: Payload, i: nat, va: set<nat>, aa: set<nat>)
    requires p.TwoPcCE? && i < p.numNodes && Says(p, a, i, va, aa)
    ensures MergeSays(p, a, Blank, i, va, aa, {}, {})
  {
    assert 0 in Upto(p.numNodes);
    if a != Blank && a.two.phase != Prepare {
      assert i in Shown(a) && aa + {} + {i} == aa;
    }
  }

  /** Hearing of a decision: the acknowledgements that came with it, those already there, and one's own. */
  lemma DecisionHeard(p: Protocol, a: Payload, b: Payload, i: nat, h: nat)
    requires p.TwoPcCE? && i < p.numNodes && Shaped(p, a, i) && Shaped(p, b, h)
    requires InPhase(b, Abort) || (InPhase(b, Commit) && !InPhase(a, Abort))
    ensures var merged := Merge(p, a, b, i).0;
      && InPhase(merged, b.two.phase) && Shaped(p, merged, i)
      && Shown(merged) == (if InPhase(a, b.two.phase) then Shown(a) else {}) + Shown(b) + {i}
  {
  }

  lemma AbortMerge(p: Protocol, a: Payload, b: Payload, i: nat, h: nat, va: set<nat>, aa: set<nat>, vb: set<nat>,
                   ab: set<nat>)
    requires p.TwoPcCE? && i < p.numNodes && h < p.numNodes && Says(p, a, i, va, aa) && Says(p, b, h, vb, ab)
    requires InPhase(b, Abort)
    ensures MergeSays(p, a, b, i, va, aa, vb, ab)
  {
    hide Merge, Shown, Upto, Unwilling;
    DecisionHeard(p, a, b, i, h);
    assert vb * Unwilling(p) <= (va + vb + {i}) * Unwilling(p);
    NodeInRange(p.numNodes, i);
  }

  lemma NodeInRange(n: nat, i: nat)
    requires i < n
    ensures i in Upto(n)
  {
  }

  lemma CommitMerge(p: Protocol, a: Payload, b: Payload, i: nat, h: nat, va: set<nat>, aa: set<nat>, vb: set<nat>,
                    ab: set<nat>)
    requires p.TwoPcCE? && i < p.numNodes && h < p.numNodes && Says(p, a, i, va, aa) && Says(p, b, h, vb, ab)
    requires InPhase(b, Commit)
    ensures MergeSays(p, a, b, i, va, aa, vb, ab)
  {
    hide Merge, Shown, Upto;
    NodeInRange(p.numNodes, i);
    assert vb == Upto(p.numNodes) && va + vb + {i} == vb;
    assert va * Unwilling(p) <= vb * Unwilling(p);
    DecisionHeard(p, a, b, i, h);
  }

  /** A vote that arrives at a node that has decided is no news. */
  lemma VoteTooLate(p: Protocol, a: Payload, b: Payload, i: nat, h: nat, va: set<nat>, aa: set<nat>, vb: set<nat>)
    requires p.TwoPcCE? && i < p.numNodes && h < p.numNodes && Says(p, a, i, va, aa) && Says(p, b, h, vb, {})
    requires InPhase(b, Prepare) && a != Blank && a.two.phase != Prepare
    ensures MergeSays(p, a, b, i, va, aa, vb, {})
  {
  }

  /** The first votes that reach a node. */
  lemma FirstVotes(p: Protocol, b: Payload, i: nat, h: nat, vb: set<nat>)
    requires p.TwoPcCE? && i < p.numNodes && h < p.numNodes && Says(p, b, h, vb, {}) && InPhase(b, Prepare)
    ensures MergeSays(p, Blank, b, i, {}, {}, vb, {})
  {
    var voted := WithBit(b.two.bits, i);
    AddedVoter(b.two.bits, i);
    AllVote(p.numNodes, voted);
    SingleVoter(p.numNodes, i);
    hide Voters, Upto, OneBit, WithBit;
  }

  /** Votes that reach a node that has some already. */
  lemma FurtherVotes(p: Protocol, a: Payload, b: Payload, i: nat, h: nat, va: set<nat>, vb: set<nat>)
    requires p.TwoPcCE? && i < p.numNodes && h < p.numNodes && Says(p, a, i, va, {}) && Says(p, b, h, vb, {})
    requires InPhase(b, Prepare) && InPhase(a, Prepare)
    ensures MergeSays(p, a, b, i, va, {}, vb, {})
  {
    var united := OrBits(a.two.bits, b.two.bits, p.numNodes);
    assert united[i];
    UnitedVoters(a.two.bits, b.two.bits, p.numNodes);
    AllVote(p.numNodes, united);
    SingleVoter(p.numNodes, i);
    hide Voters, Upto, OneBit, OrBits;
  }

  lemma MergedSays(p: Protocol, a: Payload, b: Payload, i: nat, h: nat, va: set<nat>, aa: set<nat>, vb: set<nat>,
                   ab: set<nat>)
    requires p.TwoPcCE? && i < p.numNodes && h < p.numNodes && Says(p, a, i, va, aa) && Says(p, b, h, vb, ab)
    ensures MergeSays(p, a, b, i, va, aa, vb, ab)
  {
    hide MergeSays, PhaseOf, Shown;
    if b == Blank {
      BlankBrings(p, a, i, va, aa);
    } else if b.two.phase == Abort {
      AbortMerge(p, a, b, i, h, va, aa, vb, ab);
    } else if b.two.phase == Commit {
      CommitMerge(p, a, b, i, h, va, aa, vb, ab);
    } else if a != Blank && a.two.phase != Prepare {
      VoteTooLate(p, a, b, i, h, va, aa, vb);
    } else if a == Blank {
      FirstVotes(p, b, i, h, vb);
    } else {
      FurtherVotes(p, a, b, i, h, va, vb);
    }
  }

  lemma OpeningSays(p: Protocol, initiator: nat)
    requires p.TwoPcCE? && initiator < p.numNodes
    ensures Says(p, Opening(p, initiator), initiator, {initiator},
                 if PhaseOf(p, {initiator}) == Prepare then {} else {initiator})
    ensures Opening(p, initiator) != Blank
  {
    OpeningShaped(p, initiator);
    SingleVoter(p.numNodes, initiator);
    AllVote(p.numNodes, NoBits(p.numNodes)[initiator := true]);
    hide Voters, OneBit, NoBits;
  }

  lemma NobodyUndecided(p: Protocol)
    requires p.TwoPcCE? && p.numNodes > 0
    ensures PhaseOf(p, {}) == Prepare
  {
    assert 0 in Upto(p.numNodes);
  }

  lemma {:induction false} SaysInFull(env: CeEnv, k: nat, i: nat)
    requires ValidEnv(env) && env.proto.TwoPcCE? && i < |env.g|
    ensures Says(env.proto, PayloadsAt(env, k)[i], i, ReachedBy(env, k, i), AckedBy(env, k, i))
  {
    hide Round, Merge, Shaped, Heard, Opening, Says, PhaseOf, Mergeable;
    NobodyUndecided(env.proto);
    if k == 0 {
      FirstPayloads(env);
      OpeningSays(env.proto, env.initiator);
      BlankSays(env.proto, i);
    } else {
      PayloadStep(env, k - 1, i);
      SaysInFull(env, k - 1, i);
      var ps, h := PayloadsAt(env, k - 1), Heard(env, k - 1, i);
      var votes, acks := ReachedBy(env, k - 1, i), AckedBy(env, k - 1, i);
      if h.Some? {
        SaysInFull(env, k - 1, h.value);
        MergedSays(env.proto, ps[i], ps[h.value], i, h.value, votes, acks, ReachedBy(env, k - 1, h.value),
                   AckedBy(env, k - 1, h.value));
      } else {
        BlankSays(env.proto, i);
        MergedSays(env.proto, ps[i], Blank, i, i, votes, acks, {}, {});
        MergeShaped(env.proto, ps[i], Blank, i, i) by {
          SaysShaped(env.proto, ps[i], i, votes, acks);
        }
      }
    }
  }

  lemma BlankSays(p: Protocol, i: nat)
    requires p.TwoPcCE? && i < p.numNodes
    ensures Says(p, Blank, i, {}, {})
  {
  }

  lemma SaysShaped(p: Protocol, payload: Payload, i: nat, votes: set<nat>, acks: set<nat>)
    requires p.TwoPcCE? && Says(p, payload, i, votes, acks)
    ensures Shaped(p, payload, i) && Shaped(p, Blank, i)
  {
  }

  /**
    A two-phase-commit payload in full, for any losses, captures, timeouts and votes: a node
    that no vote has reached holds nothing; one that a NO has reached aborts; one that all
    votes have reached commits; any other is preparing, and its bitmap names exactly the nodes
    whose votes have reached it.  Once it has decided, its bitmap names exactly the nodes
    whose acknowledgements have.
   */
  lemma VotesExactly(env: CeEnv, k: nat, i: nat)
    requires ValidEnv(env) && env.proto.TwoPcCE? && i < |env.g|
    ensures var payload, votes := PayloadsAt(env, k)[i], ReachedBy(env, k, i);
      if votes == {} then payload == Blank
      else
        && payload.TwoPc?
        && (InPhase(payload, Abort) <==> exists j: nat :: j in votes && env.proto.votesNo(env.proto.currentTerm, j))
        && (InPhase(payload, Commit) <==>
              votes == Upto(|env.g|) && forall j: nat :: j in votes ==> !env.proto.votesNo(env.proto.currentTerm, j))
        && Shown(payload) == if InPhase(payload, Prepare) then votes else AckedBy(env, k, i)
  {
    hide Round, AckedBy, ReachedBy, PayloadsAt;
    SaysInFull(env, k, i);
    var votes := ReachedBy(env, k, i);
    if j: nat :| j in votes && env.proto.votesNo(env.proto.currentTerm, j) {
      assert j in votes * Unwilling(env.proto);
    }
  }

  /** A node meets its goal in a two-phase-commit round exactly when a NO or all votes have reached it. */
  lemma DecidedExactly(env: CeEnv, k: nat, i: nat)
    requires ValidEnv(env) && env.proto.TwoPcCE? && i < |env.g|
    ensures var votes := ReachedBy(env, k, i);
      NodeGoal(env.proto, PayloadsAt(env, k)[i])
      <==> votes == Upto(|env.g|) || exists j: nat :: j in votes && env.proto.votesNo(env.proto.currentTerm, j)
  {
    hide Round, ReachedBy, PayloadsAt, Upto;
    VotesExactly(env, k, i);
    NodeInRange(|env.g|, i);
  }

  // ---------------------------------------------------------------- a round that must commit

  /** Node `i` listens, and `u` is the only neighbour that floods: it is heard. */
  lemma OnlyVoice(env: CeEnv, k: nat, i: nat, u: nat)
    requires ValidEnv(env) && i < |env.g| && u < |env.g| && i in env.g[u] && !env.lost(env.start + k, i, u)
    requires Round(env, k)[i].state == Listen && !Recovers(env, k, i) && Round(env, k)[u].state == Flood
    requires forall w: nat :: w < |env.g| && i in env.g[w] && Round(env, k)[w].state == Flood ==> w == u
    ensures Heard(env, k, i) == Some(u)
  {
    hide Round, Captured, Recovers;
    CaptureSound(env, env.start + k, Round(env, k), i);
  }

  lemma NoVoice(env: CeEnv, k: nat, i: nat)
    requires ValidEnv(env) && i < |env.g|
    requires Round(env, k)[i].state == Listen ==>
      forall w: nat :: w < |env.g| && i in env.g[w] ==> Round(env, k)[w].state != Flood
    ensures Heard(env, k, i) == None
  {
    hide Round, Captured, Recovers;
    CaptureSound(env, env.start + k, Round(env, k), i);
  }

  /** An undecided node changes what it says exactly if more votes reach it. */
  lemma VotesAreNews(env: CeEnv, k: nat, i: nat)
    requires ValidEnv(env) && env.proto.TwoPcCE? && i < |env.g|
    requires PhaseOf(env.proto, ReachedBy(env, k, i)) == Prepare
    ensures Changes(env, k, i) <==> ReachedBy(env, k + 1, i) != ReachedBy(env, k, i)
  {
    hide Round, ReachedBy, PayloadsAt, Heard;
    SaysInFull(env, k, i);
    SaysInFull(env, k + 1, i);
    var a, b := PayloadsAt(env, k)[i], PayloadsAt(env, k + 1)[i];
    hide AckedBy, PhaseOf;
    if a.TwoPc? && b.TwoPc? && Shown(a) == Shown(b) && a.two.phase == b.two.phase {
      SameBits(a.two.bits, b.two.bits);
    }
  }

  lemma SameBits(a: seq<bool>, b: seq<bool>)
    requires |a| == |b| && Voters(a) == Voters(b)
    ensures a == b
  {
    forall j | 0 <= j < |a| ensures a[j] == b[j] {
      assert a[j] <==> j in Voters(a);
      assert b[j] <==> j in Voters(b);
    }
  }

  /** Three willing nodes in a star around the initiator; nothing is lost, nobody recovers, any capture order. */
  ghost predicate Star(env: CeEnv) {
    && ValidEnv(env) && env.g == [{1, 2}, {0}, {0}] && env.initiator == 0 && env.maxRoundSlots == 20
    && env.proto.TwoPcCE? && (forall t, j :: !env.proto.votesNo(t, j))
    && (forall s, i :: !env.coin(s, i)) && forall s, t, u :: !env.lost(s, t, u)
  }

  /** The states and the votes of the hub and of its leaves `h` and `l`. */
  ghost predicate StarAt(env: CeEnv, k: nat, h: nat, l: nat, states: seq<NodeState>, votes: seq<set<nat>>)
    requires Star(env)
  {
    && (h == 1 || h == 2) && h + l == 3 && |states| == |votes| == 3
    && Round(env, k)[0].state == states[0] && Round(env, k)[h].state == states[1]
    && Round(env, k)[l].state == states[2]
    && ReachedBy(env, k, 0) == votes[0] && ReachedBy(env, k, h) == votes[1] && ReachedBy(env, k, l) == votes[2]
  }

  lemma StarOpens(env: CeEnv)
    requires Star(env)
    ensures StarAt(env, 0, 1, 2, [Flood, Listen, Listen], [{0}, {}, {}])
  {
    StartsExactly(env, 0);
    StartsExactly(env, 1);
    StartsExactly(env, 2);
    hide Round;
  }

  lemma Undecided(env: CeEnv, votes: set<nat>)
    requires Star(env)
    ensures PhaseOf(env.proto, votes) == if votes == {0, 1, 2} then Commit else Prepare
  {
    assert Upto(3) == {0, 1, 2};
  }

  /** Somebody is still preparing, or has not heard anything: no goal. */
  lemma NotYet(env: CeEnv, k: nat, i: nat)
    requires Star(env) && i < 3 && ReachedBy(env, k, i) != {0, 1, 2}
    ensures forall j: nat :: j <= k ==> !GoalAt(env, j)
  {
    hide Round, ReachedBy;
    forall j: nat | j <= k ensures !GoalAt(env, j) {
      VotesGrow(env, j, k, i);
      Undecided(env, ReachedBy(env, j, i));
      SaysInFull(env, j, i);
      assert ReachedBy(env, j, i) <= Upto(3);
      assert Upto(3) == {0, 1, 2};
    }
  }

  lemma {:induction false} VotesGrow(env: CeEnv, j: nat, k: nat, i: nat)
    requires ValidEnv(env) && i < |env.g| && j <= k
    ensures ReachedBy(env, j, i) <= ReachedBy(env, k, i) <= Upto(|env.g|)
  {
    hide Round, Heard;
    if j < k {
      VotesGrow(env, j, k - 1, i);
    }
  }

  /** A slot of the star at a node whose source is known. */
  lemma StarTurn(env: CeEnv, k: nat, i: nat, h: Option<nat>)
    requires Star(env) && i < 3 && Heard(env, k, i) == h && (forall j: nat :: j <= k ==> !GoalAt(env, j))
    requires h.Some? ==> ReachedBy(env, k, h.value) != {} && ReachedBy(env, k, i) != {0, 1, 2}
    ensures ReachedBy(env, k + 1, i)
         == ReachedBy(env, k, i) + if h.Some? then ReachedBy(env, k, h.value) + {i} else {}
    ensures Round(env, k + 1)[i].state == if ReachedBy(env, k + 1, i) != ReachedBy(env, k, i) then Flood else Listen
  {
    hide Round, Heard, PayloadsAt;
    FloodsExactly(env, k, i);
    var mine := ReachedBy(env, k, i);
    assert mine + {} == mine;
    if h.Some? {
      Undecided(env, mine);
      VotesAreNews(env, k, i);
    } else {
      PayloadStep(env, k, i);
    }
  }

  /** The first two slots: the hub is heard by both leaves, and then hears one of them. */
  lemma StarGathers(env: CeEnv) returns (h: nat, l: nat)
    requires Star(env)
    ensures StarAt(env, 1, h, l, [Listen, Flood, Flood], [{0}, {0, h}, {0, l}])
    ensures StarAt(env, 2, h, l, [Flood, Listen, Listen], [{0, h}, {0, h}, {0, l}])
  {
    hide Round, ReachedBy, Heard, Captured;
    StarOpens(env);
    NotYet(env, 0, 1);
    NoVoice(env, 0, 0);
    StarTurn(env, 0, 0, None);
    OnlyVoice(env, 0, 1, 0);
    StarTurn(env, 0, 1, Some(0));
    OnlyVoice(env, 0, 2, 0);
    StarTurn(env, 0, 2, Some(0));
    var heard := HubHears(env, 1);
    h, l := heard, 3 - heard;
    NotYet(env, 1, 0);
    StarTurn(env, 1, 0, Some(h));
    NoVoice(env, 1, 1);
    StarTurn(env, 1, 1, None);
    NoVoice(env, 1, 2);
    StarTurn(env, 1, 2, None);
    assert {0} + ({0, h} + {0}) == {0, h};
  }

  lemma HubHears(env: CeEnv, k: nat) returns (h: nat)
    requires Star(env) && Round(env, k)[0].state == Listen
    requires Round(env, k)[1].state == Flood || Round(env, k)[2].state == Flood
    ensures (h == 1 || h == 2) && Heard(env, k, 0) == Some(h) && Round(env, k)[h].state == Flood
  {
    hide Round, Captured;
    CaptureSound(env, env.start + k, Round(env, k), 0);
    h := Heard(env, k, 0).value;
  }

  /** The next two: the other leaf has all votes and commits, and the hub hears of it. */
  lemma StarDecides(env: CeEnv, h: nat, l: nat)
    requires Star(env) && StarAt(env, 2, h, l, [Flood, Listen, Listen], [{0, h}, {0, h}, {0, l}])
    ensures StarAt(env, 3, h, l, [Listen, Listen, Flood], [{0, h}, {0, h}, {0, 1, 2}])
    ensures StarAt(env, 4, h, l, [Flood, Listen, Listen], [{0, 1, 2}, {0, h}, {0, 1, 2}])
  {
    hide Round, ReachedBy, Heard, Captured;
    NotYet(env, 2, 0);
    NoVoice(env, 2, 0);
    StarTurn(env, 2, 0, None);
    OnlyVoice(env, 2, h, 0);
    StarTurn(env, 2, h, Some(0));
    OnlyVoice(env, 2, l, 0);
    StarTurn(env, 2, l, Some(0));
    assert {0, h} + ({0, h} + {h}) == {0, h} && {0, l} + ({0, h} + {l}) == {0, 1, 2};
    NotYet(env, 3, 0);
    OnlyVoice(env, 3, 0, l);
    StarTurn(env, 3, 0, Some(l));
    NoVoice(env, 3, h);
    StarTurn(env, 3, h, None);
    NoVoice(env, 3, l);
    StarTurn(env, 3, l, None);
    assert {0, h} + ({0, 1, 2} + {0}) == {0, 1, 2};
  }

  /**
    The union of votes is what decides: with no loss, no timeout and nobody voting NO, a star
    of three commits, for every capture order, with the goal in its sixth slot.
   */
  lemma StarCommits(env: CeEnv)
    requires Star(env)
    ensures Steps(env, 0) == 5 && GoalMet(env) && TickedSlots(env) == 6
    ensures Outcome(env.proto, PayloadsAt(env, 5)) == Committed
  {
    hide Round, ReachedBy, Heard, Captured;
    var h, l := StarGathers(env);
    StarDecides(env, h, l);
    NotYet(env, 4, h);
    OnlyVoice(env, 4, h, 0);
    StarTurn(env, 4, h, Some(0));
    assert {0, h} + ({0, 1, 2} + {h}) == {0, 1, 2};
    VotesGrow(env, 4, 5, 0);
    VotesGrow(env, 4, 5, l);
    assert Upto(3) == {0, 1, 2};
    forall i: nat | i < 3 ensures InPhase(PayloadsAt(env, 5)[i], Commit) {
      VotesExactly(env, 5, i);
    }
    assert GoalAt(env, 5);
  }
}
