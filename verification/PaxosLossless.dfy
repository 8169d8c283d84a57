/**
  Paxos pipeline runs without loss, in closed form: every node's state, the
  global books and the number of rounds, as functions of the round number.
 */
module PaxosLossless {
  import opened Wrappers
  import opened Bitmaps
  import opened Messages
  import opened Metrics
  import opened Ledger
  import opened Network
  import opened Rotation
  import opened PaxosNode
  import opened PaxosRun
  import opened PaxosSafety

  ghost predicate Lossless(c: Plan) {
    c.n >= 2 && forall r: nat, i: nat :: i < c.n ==> i in c.parts(r)
  }

  /** Proposals made, and proposals committed, by the end of `r` rounds. */
  function Made(c: Plan, r: nat): nat {
    if r < c.proposals then r else c.proposals
  }

  function Done(c: Plan, r: nat): (d: nat)
    ensures d <= Made(c, r)
  {
    if r <= c.n / 2 then 0 else Made(c, r - c.n / 2)
  }

  /** The bitmap of a set of nodes. */
  ghost function Marked(n: nat, s: set<nat>): (bits: seq<bool>)
    ensures |bits| == n
  {
    seq(n, b requires 0 <= b < n => b in s)
  }

  /** Terms `lo .. hi` pending at node `j`, with the votes of their initiators since, and its own. */
  ghost function Open(n: nat, lo: nat, hi: nat, r: nat, j: nat): (ps: seq<Pending>)
    requires lo <= hi && n > 0
    ensures |ps| == hi - lo
  {
    seq(hi - lo, k requires 0 <= k < hi - lo => Pending(lo + k, Tx(lo + k), Marked(n, Inits(n, lo + k, r) + {j})))
  }

  ghost function Logged(k: nat): (log: seq<(nat, Data)>)
    ensures |log| == k
  {
    seq(k, t requires 0 <= t < k => (t, Tx(t)))
  }

  /** A node with `done` terms committed in order and the terms up to `made` pending. */
  ghost function InStep(n: nat, done: nat, made: nat, r: nat, j: nat, seen: Option<nat>): PaxosState
    requires done <= made && n > 0
  {
    PaxosState(seen, if done == 0 then None else Some(done - 1), Logged(done), Open(n, done, made, r, j))
  }

  ghost function Seen(c: Plan, r: nat): Option<nat> {
    if Made(c, r) >= 2 then Some(Made(c, r) - 1) else None
  }

  /** The global state after `r` rounds, but for the stop flag. */
  ghost predicate Exact(c: Plan, sys: Sys, r: nat)
    requires c.n > 0
  {
    && |sys.states| == c.n
    && (forall j :: 0 <= j < c.n ==> sys.states[j] == InStep(c.n, Done(c, r), Made(c, r), r, j, Seen(c, r)))
    && BooksExact(c, sys, r, Done(c, r))
    && sys.termCounter == sys.generated == Made(c, r)
    && sys.pbTerm == None && sys.pbData == Empty
  }

  ghost predicate BooksExact(c: Plan, sys: Sys, r: nat, done: nat) {
    && sys.starts == StartsUpTo(c, Made(c, r))
    && sys.committed == Upto(done)
    && sys.records == RecordsUpTo(c, done)
  }

  ghost function StartsUpTo(c: Plan, k: nat): map<nat, nat> {
    map t: nat | t < k :: c.preparedAt(t)
  }

  /** Term `t` is committed in the preparation of round `t + n / 2`. */
  ghost function RecordsUpTo(c: Plan, k: nat): (rs: seq<ProposalRecord>)
    ensures |rs| == k
  {
    if k == 0 then []
    else RecordsUpTo(c, k - 1) + [Record(k - 1, c.preparedAt(k - 1), c.preparedAt(k - 1 + c.n / 2), Committed)]
  }

  // ---------------------------------------------------------------- bitmaps and initiators

  lemma MarkedOr(n: nat, a: set<nat>, b: set<nat>)
    ensures OrBits(Marked(n, a), Marked(n, b), n) == Marked(n, a + b)
  {
  }

  lemma MarkedBit(n: nat, a: set<nat>, i: nat)
    requires i < n
    ensures WithBit(Marked(n, a), i) == Marked(n, a + {i})
    ensures OneBit(n, i) == Marked(n, {i}) && WithBit(NoBits(n), i) == Marked(n, {i})
  {
  }

  lemma MarkedMajority(n: nat, s: set<nat>)
    requires s <= Upto(n)
    ensures HasMajority(Marked(n, s)) <==> |s| >= n / 2 + 1
  {
    VotersCounted(Marked(n, s));
    assert Voters(Marked(n, s)) == s;
  }

  // ---------------------------------------------------------------- commits in order

  lemma LoggedIn(k: nat, t: nat)
    ensures InLog(Logged(k), t) <==> t < k
  {
    if t < k {
      assert Logged(k)[t].0 == t;
    }
  }

  lemma {:induction false} CommitNothing(st: PaxosState, t: nat, upTo: nat)
    requires forall u: nat :: u <= upTo ==> InLog(st.log, u)
    ensures CommittedRange(st, t, upTo) == (st, [])
    decreases upTo + 1 - t
  {
    if t <= upTo {
      CommitNothing(st, t + 1, upTo);
    }
  }

  lemma {:induction false} CommitNext(st: PaxosState, t: nat, upTo: nat)
    requires t <= upTo && !InLog(st.log, upTo) && forall u: nat :: u < upTo ==> InLog(st.log, u)
    ensures CommittedRange(st, t, upTo) == (CommittedTerm(st, upTo), [upTo])
    decreases upTo - t
  {
    if t < upTo {
      CommitNext(st, t + 1, upTo);
    } else {
      hide InLog;
      assert CommittedRange(CommittedTerm(st, upTo), upTo + 1, upTo) == (CommittedTerm(st, upTo), []);
      assert [upTo] + [] == [upTo];
    }
  }

  /** Committing the first pending term moves it to the end of the log. */
  lemma CommitFirst(n: nat, done: nat, made: nat, r: nat, j: nat, seen: Option<nat>)
    requires n > 0 && done < made
    ensures CommittedUpTo(InStep(n, done, made, r, j, seen), done) == (InStep(n, done + 1, made, r, j, seen), [done])
  {
    var st := InStep(n, done, made, r, j, seen);
    forall u: nat ensures InLog(st.log, u) <==> u < done {
      LoggedIn(done, u);
    }
    CommitNext(st, 0, done);
    PositionAt(st.pending, 0);
    hide Inits, Marked;
    assert Without(st.pending, 0) == Open(n, done + 1, made, r, j);
    assert Logged(done) + [(done, Tx(done))] == Logged(done + 1);
  }

  /** What a node in step learns from a packet that is at most one commit ahead of it. */
  lemma Catches(n: nat, done: nat, done': nat, made: nat, r: nat, j: nat, seen: Option<nat>)
    requires n > 0 && done <= made && done <= done' <= done + 1 && done' > 0 && done' <= made
    ensures CommittedUpTo(InStep(n, done, made, r, j, seen), done' - 1)
         == (InStep(n, done', made, r, j, seen), if done == done' then [] else [done])
  {
    if done == done' {
      forall u: nat ensures InLog(Logged(done), u) <==> u < done {
        LoggedIn(done, u);
      }
      CommitNothing(InStep(n, done, made, r, j, seen), 0, done - 1);
    } else {
      CommitFirst(n, done, made, r, j, seen);
    }
  }

  // ---------------------------------------------------------------- preparing

  lemma ReachesQuorum(n: nat, lo: nat, hi: nat, r: nat, k: nat)
    requires n >= 2 && lo <= hi <= r + 1 && r <= lo + n / 2 && k < hi - lo
    ensures QuorumReached(Open(n, lo, hi, r, r % n), lo + k) <==> lo + k + n / 2 == r
  {
    var ps := Open(n, lo, hi, r, r % n);
    PositionAt(ps, k);
    InitsExact(n, lo + k, r);
    MarkedMajority(n, Inits(n, lo + k, r) + {r % n});
  }

  /** The quorum scan finds the term of `n / 2` rounds ago, and no other. */
  lemma {:induction false} ScanFinds(n: nat, lo: nat, hi: nat, r: nat, k: nat)
    requires n >= 2 && lo <= hi <= r + 1 && r <= lo + n / 2 && k <= hi - lo
    ensures HighestQuorum(Open(n, lo, hi, r, r % n), k)
         == if k > 0 && lo + n / 2 == r then Some(lo) else None
  {
    hide QuorumReached, Inits, Marked;
    if k > 0 {
      ScanFinds(n, lo, hi, r, k - 1);
      ReachesQuorum(n, lo, hi, r, k - 1);
    }
  }

  lemma {:induction false} NoGap(st: PaxosState, t: nat, upTo: nat)
    requires forall u: nat :: t <= u < upTo ==> IsPending(st.pending, u)
    ensures GapFrom(st, t, upTo) == None
    decreases upTo - t
  {
    if t < upTo {
      NoGap(st, t + 1, upTo);
    }
  }

  lemma OpenPending(n: nat, lo: nat, hi: nat, r: nat, j: nat, t: nat)
    requires n > 0 && lo <= hi
    ensures IsPending(Open(n, lo, hi, r, j), t) <==> lo <= t < hi
  {
    if lo <= t < hi {
      assert Open(n, lo, hi, r, j)[t - lo].term == t;
    }
  }

  /** A node in step reports no gap. */
  lemma StepNoGap(n: nat, done: nat, made: nat, r: nat, j: nat, seen: Option<nat>)
    requires n > 0 && done <= made
    ensures Gap(InStep(n, done, made, r, j, seen), made) == None
  {
    forall u: nat | done <= u < made ensures IsPending(Open(n, done, made, r, j), u) {
      OpenPending(n, done, made, r, j, u);
    }
    NoGap(InStep(n, done, made, r, j, seen), done, made);
  }

  lemma Proposes(c: Plan, sys: Sys, r: nat)
    requires Lossless(c) && Exact(c, sys, r)
    ensures WithProposal(sys, c.n, c.proposals, r % c.n)
         == InStep(c.n, Done(c, r), Made(c, r + 1), r, r % c.n, Seen(c, r))
  {
    var i := r % c.n;
    if r < c.proposals {
      MarkedBit(c.n, {}, i);
      InitsEmpty(c.n, r);
      assert Inits(c.n, r, r) + {i} == {i};
      hide Inits, Marked;
      assert Open(c.n, Done(c, r), r, r, i) + [Pending(r, Tx(r), OneBit(c.n, i))] == Open(c.n, Done(c, r), r + 1, r, i);
    }
  }

  /** The initiator's own commit in round `r` takes in exactly the term of `n / 2` rounds ago. */
  lemma Commits(c: Plan, r: nat, i: nat)
    requires Lossless(c) && i == r % c.n
    ensures var done, done' := Done(c, r), Done(c, r + 1);
      done <= done' <= done + 1 && (done' > done ==> done + c.n / 2 == r)
      && QuorumCommit(InStep(c.n, done, Made(c, r + 1), r, i, Seen(c, r)))
         == (InStep(c.n, done', Made(c, r + 1), r, i, Seen(c, r)), if done' == done then [] else [done])
  {
    hide Inits, Marked, QuorumReached, CommittedUpTo, Seen;
    var done, made := Done(c, r), Made(c, r + 1);
    if done < made {
      ScanFinds(c.n, done, made, r, made - done);
      if done + c.n / 2 == r {
        CommitFirst(c.n, done, made, r, i, Seen(c, r));
      }
    }
  }

  ghost function ExactPacket(c: Plan, r: nat): Packet
    requires c.n > 0
  {
    var i, t := r % c.n, if Made(c, r + 1) == 0 then 0 else Made(c, r + 1) - 1;
    Packet(t, if Done(c, r + 1) == 0 then None else Some(Done(c, r + 1) - 1),
           Marked(c.n, if Done(c, r + 1) <= t < Made(c, r + 1) then Inits(c.n, t, r + 1) else {i}),
           0, i, if r < c.proposals then Tx(t) else Empty, None, Empty)
  }

  lemma FlagsExact(n: nat, st: PaxosState, lo: nat, hi: nat, r: nat, t: nat)
    requires n > 0 && lo <= hi && t <= r && st.pending == Open(n, lo, hi, r, r % n)
    ensures FlagsFor(st, n, t, r % n) == Marked(n, if lo <= t < hi then Inits(n, t, r + 1) else {r % n})
  {
    hide Inits, Marked, IsPending, NoBits;
    var i := r % n;
    OpenPending(n, lo, hi, r, i, t);
    if lo <= t < hi {
      PositionAt(st.pending, t - lo);
      InitsSnoc(n, t, r);
      MarkedBit(n, Inits(n, t, r + 1), i);
      assert Inits(n, t, r + 1) + {i} == Inits(n, t, r + 1);
    } else {
      MarkedBit(n, {}, i);
    }
  }

  ghost predicate MidExact(c: Plan, sys: Sys, r: nat)
    requires c.n > 0
  {
    && |sys.states| == c.n
    && (forall j :: 0 <= j < c.n ==> sys.states[j] == MidState(c, r, j))
    && BooksExact(c, sys, r + 1, Done(c, r + 1))
    && sys.termCounter == sys.generated == Made(c, r + 1)
    && sys.pbTerm == None && sys.pbData == Empty
  }

  /** Between the two halves of round `r` only the initiator has moved. */
  ghost function MidState(c: Plan, r: nat, j: nat): PaxosState
    requires c.n > 0
  {
    if j == r % c.n then InStep(c.n, Done(c, r + 1), Made(c, r + 1), r, j, Seen(c, r))
    else InStep(c.n, Done(c, r), Made(c, r), r, j, Seen(c, r))
  }

  lemma SendsExact(c: Plan, sys: Sys, r: nat)
    requires Lossless(c) && Exact(c, sys, r)
    ensures Prepared(c, sys, r).1 == ExactPacket(c, r)
  {
    hide InStep, Inits, Marked, Open, Done, RecordsUpTo, StartsUpTo, QuorumCommit, Gap, WithProposal,
         FlagsFor, Announced;
    var i := r % c.n;
    StepNoGap(c.n, Done(c, r), Made(c, r), r, i, Seen(c, r));
    Proposes(c, sys, r);
    Commits(c, r, i);
    AcceptedIs(c.n, Done(c, r + 1), Made(c, r + 1), r, i, Seen(c, r));
    FlagsExact(c.n, InStep(c.n, Done(c, r + 1), Made(c, r + 1), r, i, Seen(c, r)), Done(c, r + 1), Made(c, r + 1), r,
               ExactPacket(c, r).currentTerm);
  }

  lemma PrepareExact(c: Plan, sys: Sys, r: nat)
    requires Lossless(c) && Exact(c, sys, r)
    ensures MidExact(c, Prepared(c, sys, r).0, r)
  {
    hide InStep, Inits, Marked, Open, Done, RecordsUpTo, QuorumCommit, Gap, WithProposal, FlagsFor, Announced,
         StartsUpTo, Upto;
    Proposes(c, sys, r);
    Commits(c, r, r % c.n);
    var newly := if Done(c, r + 1) == Done(c, r) then [] else [Done(c, r)];
    AnnouncedExact(c, sys, r, newly);
    StartsExtended(c, r);
  }

  lemma StartsExtended(c: Plan, r: nat)
    ensures StartsUpTo(c, Made(c, r + 1))
         == if r < c.proposals then StartsUpTo(c, Made(c, r))[r := c.preparedAt(r)] else StartsUpTo(c, Made(c, r))
  {
  }

  lemma AcceptedIs(n: nat, done: nat, made: nat, r: nat, j: nat, seen: Option<nat>)
    requires n > 0 && done <= made
    ensures InStep(n, done, made, r, j, seen).lastAccepted == if done == 0 then None else Some(done - 1)
    ensures InStep(n, done, made, r, j, seen).log == Logged(done)
    ensures InStep(n, done, made, r, j, seen).pending == Open(n, done, made, r, j)
  {
  }

  lemma AnnouncedExact(c: Plan, sys: Sys, r: nat, newly: seq<nat>)
    requires Lossless(c) && sys.committed == Upto(Done(c, r)) && sys.records == RecordsUpTo(c, Done(c, r))
    requires Done(c, r) <= Done(c, r + 1) <= Done(c, r) + 1
    requires Done(c, r + 1) > Done(c, r) ==> Done(c, r) + c.n / 2 == r
    requires newly == if Done(c, r + 1) == Done(c, r) then [] else [Done(c, r)]
    ensures Announced(sys.committed, sys.records, newly, StartsUpTo(c, Made(c, r + 1)), c.preparedAt(r))
         == (Upto(Done(c, r + 1)), RecordsUpTo(c, Done(c, r + 1)))
  {
    var t, starts := Done(c, r), StartsUpTo(c, Made(c, r + 1));
    if newly != [] {
      assert t in starts;
      AnnounceOne(sys.committed, sys.records, t, starts, c.preparedAt(r));
      hide Done, Made, StartsUpTo, Announced, Upto, RecordsUpTo;
      SegmentGrows(c, t);
    }
  }

  lemma AnnounceOne(committed: set<nat>, records: seq<ProposalRecord>, t: nat, starts: map<nat, nat>, slot: nat)
    requires t in starts
    ensures Announced(committed, records, [t], starts, slot)
         == if t in committed then (committed, records)
            else (committed + {t}, records + [Record(t, starts[t], slot, Committed)])
  {
    assert [t][..0] == [];
    assert Announced(committed, records, [], starts, slot) == (committed, records);
  }

  lemma SegmentGrows(c: Plan, t: nat)
    ensures t !in Upto(t) && Upto(t) + {t} == Upto(t + 1)
    ensures RecordsUpTo(c, t) + [Record(t, c.preparedAt(t), c.preparedAt(t + c.n / 2), Committed)]
         == RecordsUpTo(c, t + 1)
  {
  }

  // ---------------------------------------------------------------- processing

  /** Merging the packet's votes and one's own brings the votes of every pending term up to date. */
  lemma MergesOpen(n: nat, ps: seq<Pending>, vs: seq<set<nat>>, lo: nat, hi: nat, r: nat, t: nat, f: set<nat>, j: nat)
    requires n > 0 && j < n && lo <= hi <= t + 1 && |ps| == |vs| == hi - lo
    requires forall k :: 0 <= k < |ps| ==> ps[k] == Pending(lo + k, Tx(lo + k), Marked(n, vs[k]))
    requires forall k :: 0 <= k < |ps| ==> vs[k] + f + {j} == Inits(n, lo + k, r + 1) + {j}
    ensures MergedVotes(MergedVotes(ps, t, Marked(n, f)), t, OneBit(n, j)) == Open(n, lo, hi, r + 1, j)
  {
    hide Inits, Marked, OneBit, OrBits;
    MarkedBit(n, {}, j);
    var merged := MergedVotes(MergedVotes(ps, t, Marked(n, f)), t, OneBit(n, j));
    forall k | 0 <= k < |ps| ensures merged[k] == Open(n, lo, hi, r + 1, j)[k] {
      MarkedOr(n, vs[k], f);
      MarkedOr(n, vs[k] + f, {j});
    }
  }

  /** Each pending term had the votes of its initiators; the packet adds this round's. */
  lemma VotesCatchUp(n: nat, t: nat, u: nat, r: nat, j: nat)
    requires n > 0 && t <= u <= r
    ensures Inits(n, t, r) + {j} + Inits(n, u, r + 1) + {j} == Inits(n, t, r + 1) + {j}
  {
    InitsSnoc(n, t, r);
    InitsSnoc(n, u, r);
    InitsGrow(n, t, u, r, r);
    hide Inits;
  }

  /** A node that has every pending term of the packet just merges. */
  lemma MergesStep(n: nat, lo: nat, hi: nat, r: nat, t: nat, j: nat, f: set<nat>)
    requires n > 0 && j < n && lo <= hi <= t + 1 && t <= r && (lo < hi ==> lo <= t && f == Inits(n, t, r + 1))
    ensures MergedVotes(MergedVotes(Open(n, lo, hi, r, j), t, Marked(n, f)), t, OneBit(n, j))
         == Open(n, lo, hi, r + 1, j)
  {
    var vs := seq(hi - lo, k requires 0 <= k < hi - lo => Inits(n, lo + k, r) + {j});
    forall k | 0 <= k < hi - lo ensures vs[k] + f + {j} == Inits(n, lo + k, r + 1) + {j} {
      VotesCatchUp(n, lo + k, t, r, j);
    }
    hide Inits, Marked, OneBit, MergedVotes;
    MergesOpen(n, Open(n, lo, hi, r, j), vs, lo, hi, r, t, f, j);
  }

  /** A node that hears of this round's term takes it in and merges. */
  lemma TakesStep(n: nat, lo: nat, r: nat, j: nat)
    requires n > 0 && j < n && lo <= r
    ensures var f := Marked(n, Inits(n, r, r + 1));
      MergedVotes(MergedVotes(Open(n, lo, r, r, j) + [Pending(r, Tx(r), f)], r, f), r, OneBit(n, j))
      == Open(n, lo, r + 1, r + 1, j)
  {
    var f := Inits(n, r, r + 1);
    var vs := seq(r - lo, k requires 0 <= k < r - lo => Inits(n, lo + k, r) + {j}) + [f];
    forall k | 0 <= k < r + 1 - lo ensures vs[k] + f + {j} == Inits(n, lo + k, r + 1) + {j} {
      if k < r - lo {
        VotesCatchUp(n, lo + k, r, r, j);
      }
    }
    var ps := Open(n, lo, r, r, j) + [Pending(r, Tx(r), Marked(n, f))];
    hide Inits, Marked, OneBit, MergedVotes;
    MergesOpen(n, ps, vs, lo, r + 1, r, r, f, j);
  }

  lemma Learns(c: Plan, r: nat, j: nat)
    requires Lossless(c) && j < c.n
    ensures Done(c, r + 1) <= Made(c, r)
    ensures var made := if j == r % c.n then Made(c, r + 1) else Made(c, r);
      LearnCommits(MidState(c, r, j), ExactPacket(c, r)).0
      == InStep(c.n, Done(c, r + 1), made, r, j, Seen(c, r))
  {
    hide InStep, Inits, Marked, CommittedUpTo;
    var made := if j == r % c.n then Made(c, r + 1) else Made(c, r);
    Commits(c, r, r % c.n);
    hide QuorumCommit;
    var done, done' := if j == r % c.n then Done(c, r + 1) else Done(c, r), Done(c, r + 1);
    if done' > 0 {
      Catches(c.n, done, done', made, r, j, Seen(c, r));
    }
  }

  lemma NotesTerm(c: Plan, r: nat, st: PaxosState)
    requires st.highestSeen == Seen(c, r)
    ensures NoteTerm(st, if Made(c, r + 1) == 0 then 0 else Made(c, r + 1) - 1) == st.(highestSeen := Seen(c, r + 1))
  {
  }

  lemma ReceivesExact(c: Plan, r: nat, j: nat)
    requires Lossless(c) && j < c.n
    ensures Received(MidState(c, r, j), j, c.n, ExactPacket(c, r))
         == InStep(c.n, Done(c, r + 1), Made(c, r + 1), r + 1, j, Seen(c, r + 1))
  {
    hide Inits, Marked, Open, OneBit, MergedVotes, CommittedUpTo, MidState, Logged, Done, InLog;
    var pkt, i := ExactPacket(c, r), r % c.n;
    var made := if j == i then Made(c, r + 1) else Made(c, r);
    var lo, t := Done(c, r + 1), pkt.currentTerm;
    Learns(c, r, j);
    var st0 := LearnCommits(MidState(c, r, j), pkt).0;
    hide LearnCommits;
    NotesTerm(c, r, st0);
    var st1 := NoteTerm(st0, t);
    hide NoteTerm;
    OpenPending(c.n, lo, made, r, j, t);
    LoggedIn(lo, t);
    if j != i && r < c.proposals {
      TakesStep(c.n, lo, r, j);
    } else {
      MergesStep(c.n, lo, made, r, t, j, if lo <= t < Made(c, r + 1) then Inits(c.n, t, r + 1) else {i});
    }
  }

  lemma ProcessesExact(c: Plan, sys: Sys, r: nat, k: nat)
    requires Lossless(c) && k < c.n && |sys.states| == c.n && sys.states[k] == MidState(c, r, k)
    requires sys.committed == Upto(Done(c, r + 1))
    ensures ProcessNode(c, sys, r, ExactPacket(c, r), k)
         == sys.(states := sys.states[k := InStep(c.n, Done(c, r + 1), Made(c, r + 1), r + 1, k, Seen(c, r + 1))])
  {
    ReceivesExact(c, r, k);
    OldNewsExact(c, r, k);
    hide MidState, InStep, Received, LearnCommits, Announced, Supply, Absorbed, Upto, Done;
    NothingNew(sys.committed, sys.records, LearnCommits(MidState(c, r, k), ExactPacket(c, r)).1, sys.starts,
               c.processedAt(r));
  }

  lemma OldNewsExact(c: Plan, r: nat, k: nat)
    requires Lossless(c) && k < c.n
    ensures forall t: nat :: t in LearnCommits(MidState(c, r, k), ExactPacket(c, r)).1 ==> t < Done(c, r + 1)
  {
    hide InStep, Inits, Marked, CommittedUpTo, Open;
    Commits(c, r, r % c.n);
    hide QuorumCommit;
    var done, done' := if k == r % c.n then Done(c, r + 1) else Done(c, r), Done(c, r + 1);
    if done' > 0 {
      Catches(c.n, done, done', if k == r % c.n then Made(c, r + 1) else Made(c, r), r, k, Seen(c, r));
    }
  }

  /** After the first `k` nodes of round `r` have processed the packet. */
  ghost predicate PartExact(c: Plan, sys: Sys, r: nat, k: nat)
    requires c.n > 0 && k <= c.n
  {
    && |sys.states| == c.n
    && (forall j :: 0 <= j < k ==>
          sys.states[j] == InStep(c.n, Done(c, r + 1), Made(c, r + 1), r + 1, j, Seen(c, r + 1)))
    && (forall j :: k <= j < c.n ==> sys.states[j] == MidState(c, r, j))
    && BooksExact(c, sys, r + 1, Done(c, r + 1))
    && sys.termCounter == sys.generated == Made(c, r + 1)
    && sys.pbTerm == None && sys.pbData == Empty
  }

  lemma {:induction false} ProcessExact(c: Plan, sys: Sys, r: nat, k: nat)
    requires Lossless(c) && MidExact(c, sys, r) && k <= c.n
    ensures PartExact(c, ProcessUpTo(c, sys, r, ExactPacket(c, r), k), r, k)
  {
    hide MidState, InStep, ProcessNode, ExactPacket, Done, RecordsUpTo, StartsUpTo, Upto;
    if k > 0 {
      ProcessExact(c, sys, r, k - 1);
      ProcessesExact(c, ProcessUpTo(c, sys, r, ExactPacket(c, r), k - 1), r, k - 1);
    }
  }

  /** Without loss the system is, after every round, in the state `Exact` describes. */
  lemma {:induction false} LosslessExact(c: Plan, r: nat)
    requires Lossless(c)
    ensures Exact(c, After(c, r), r)
  {
    hide InStep, Prepared, ProcessUpTo, ExactPacket, RecordsUpTo, StartsUpTo, ShouldStop, MidExact;
    if r > 0 {
      var sys := After(c, r - 1);
      LosslessExact(c, r - 1);
      PrepareExact(c, sys, r - 1);
      SendsExact(c, sys, r - 1);
      ProcessExact(c, Prepared(c, sys, r - 1).0, r - 1, c.n);
    } else {
      StartExact(c);
    }
  }

  lemma StartExact(c: Plan)
    requires Lossless(c)
    ensures Exact(c, Start(c.n), 0)
  {
    forall j: nat | j < c.n ensures InStep(c.n, 0, 0, 0, j, None) == FRESH {
    }
  }

  // ---------------------------------------------------------------- what a lossless run looks like

  /** Term `t` is committed everywhere by round `t + n / 2`, and not before: the bound of NoEarlyCommit is met. */
  lemma CommitsOnTime(c: Plan, r: nat, i: nat, t: nat)
    requires Lossless(c) && i < c.n
    ensures InLog(After(c, r).states[i].log, t) <==> t < c.proposals && t + c.n / 2 < r
    ensures HasAccepted(After(c, r).states[i], t) <==> t < c.proposals && t + c.n / 2 < r
    ensures t in After(c, r).committed <==> t < c.proposals && t + c.n / 2 < r
  {
    LosslessExact(c, r);
    hide After, Inits, Marked, Open;
    LoggedIn(Done(c, r), t);
    assert After(c, r).states[i] == InStep(c.n, Done(c, r), Made(c, r), r, i, Seen(c, r));
  }

  /** After every round all nodes hold the same log: the first so many terms, in order, with their data. */
  lemma IdenticalLogs(c: Plan, r: nat, i: nat)
    requires Lossless(c) && i < c.n
    ensures After(c, r).states[i].log == Logged(Done(c, r))
    ensures |After(c, r).states[i].pending| == Made(c, r) - Done(c, r)
  {
    LosslessExact(c, r);
    hide After, Inits, Marked, Open;
    assert After(c, r).states[i] == InStep(c.n, Done(c, r), Made(c, r), r, i, Seen(c, r));
  }

  /** The rounds of a lossless run: half a turn past the last proposal, unless the idle-round timeout comes first. */
  function Rounds(c: Plan): (k: nat)
    ensures k >= c.proposals
  {
    c.proposals + if c.n / 2 <= 1002 then c.n / 2 else 1002
  }

  lemma StopsWhen(c: Plan, sys: Sys, r: nat)
    requires Lossless(c) && c.proposals >= 1 && Exact(c, sys, r + 1)
    ensures ShouldStop(c, sys, r) <==> r + 1 >= Rounds(c)
  {
    hide Inits, Marked, Open, StartsUpTo, RecordsUpTo, InLog;
    var log := Logged(Done(c, r + 1));
    forall t: nat ensures InLog(log, t) <==> t < Done(c, r + 1) {
      LoggedIn(Done(c, r + 1), t);
    }
    UptoSize(Done(c, r + 1));
    assert sys.states[0] == InStep(c.n, Done(c, r + 1), Made(c, r + 1), r + 1, 0, Seen(c, r + 1));
  }

  /** A lossless run of at least one proposal asks to stop after exactly `Rounds` rounds. */
  lemma {:induction false} LosslessLength(c: Plan, r: nat)
    requires Lossless(c) && c.proposals >= 1
    ensures After(c, r).stop <==> r >= Rounds(c)
  {
    hide Exact, RoundOf, Rounds;
    if r > 0 {
      LosslessLength(c, r - 1);
      LosslessExact(c, r);
      RoundFlag(c, After(c, r - 1), r - 1);
    }
  }

  lemma RoundFlag(c: Plan, sys: Sys, r: nat)
    requires Lossless(c) && c.proposals >= 1 && |sys.states| == c.n && Exact(c, RoundOf(c, sys, r), r + 1)
    ensures RoundOf(c, sys, r).stop <==> sys.stop || r + 1 >= Rounds(c)
  {
    hide Exact, ProcessUpTo, ShouldStop, Rounds, QuorumCommit, FlagsFor, Gap, Announced, WithProposal;
    var (sys1, pkt) := Prepared(c, sys, r);
    FlagUntouched(c, sys1, r, pkt, c.n);
    var sys2 := ProcessUpTo(c, sys1, r, pkt, c.n);
    SameButFlag(c, sys2, r, RoundOf(c, sys, r).stop);
    StopsWhen(c, sys2, r);
  }

  lemma SameButFlag(c: Plan, sys: Sys, r: nat, stop: bool)
    requires c.n > 0 && Exact(c, sys.(stop := stop), r + 1)
    ensures Exact(c, sys, r + 1)
  {
  }

  lemma {:induction false} FlagUntouched(c: Plan, sys: Sys, r: nat, pkt: Packet, k: nat)
    requires c.n > 0 && |sys.states| == c.n && k <= c.n
    ensures ProcessUpTo(c, sys, r, pkt, k).stop == sys.stop
  {
    if k > 0 {
      FlagUntouched(c, sys, r, pkt, k - 1);
      hide Received, LearnCommits, Announced, Supply, Absorbed;
    }
  }

  /** When it stops everything is committed everywhere, just when half a turn is within the timeout. */
  lemma StopsComplete(c: Plan, i: nat)
    requires Lossless(c) && c.proposals >= 1 && i < c.n
    ensures |After(c, Rounds(c)).states[i].log| == c.proposals <==> c.n / 2 <= 1002
  {
    IdenticalLogs(c, Rounds(c), i);
  }

  /** With 2006 nodes a lossless run of one proposal gives up after 1003 rounds, the proposal in no log. */
  lemma StopsTooSoon() returns (c: Plan)
    ensures Lossless(c) && c.n == 2006 && c.proposals == 1
    ensures forall r: nat :: After(c, r).stop <==> r >= 1003
    ensures forall i: nat :: i < c.n ==> After(c, 1003).states[i].log == []
  {
    c := Plan(2006, 1, 0, r => Upto(2006), r => r, r => r + 1);
    hide After;
    forall r: nat ensures After(c, r).stop <==> r >= 1003 {
      LosslessLength(c, r);
    }
    forall i: nat | i < c.n ensures After(c, 1003).states[i].log == [] {
      IdenticalLogs(c, 1003, i);
    }
  }
}
