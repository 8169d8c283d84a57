/** Local state of one node of the Paxos pipeline: a committed log and the proposals still gathering votes. */
module PaxosNode {
  import opened Wrappers
  import opened Bitmaps
  import opened Messages

  datatype Pending = Pending(term: nat, data: Data, bits: seq<bool>)

  datatype PaxosState = PaxosState(
    highestSeen: Option<nat>,
    lastAccepted: Option<nat>,
    log: seq<(nat, Data)>,
    pending: seq<Pending>)

  const FRESH := PaxosState(None, None, [], [])

  predicate InLog(log: seq<(nat, Data)>, t: nat) {
    exists i :: 0 <= i < |log| && log[i].0 == t
  }

  predicate IsPending(pending: seq<Pending>, t: nat) {
    exists i :: 0 <= i < |pending| && pending[i].term == t
  }

  /** The first pending proposal of term `t`, if any. */
  function Position(pending: seq<Pending>, t: nat): (r: Option<nat>)
    ensures r.Some? ==> r.value < |pending| && pending[r.value].term == t
    ensures r.Some? <==> IsPending(pending, t)
  {
    if pending == [] then None
    else if pending[0].term == t then Some(0)
    else
      var r := Position(pending[1..], t);
      assert forall i :: 0 < i < |pending| ==> pending[i] == pending[1..][i - 1];
      if r.Some? then Some(r.value + 1) else None
  }

  lemma {:induction false} PositionAt(pending: seq<Pending>, k: nat)
    requires k < |pending|
    requires forall j :: 0 <= j < k ==> pending[j].term != pending[k].term
    ensures Position(pending, pending[k].term) == Some(k)
  {
    if k > 0 {
      PositionAt(pending[1..], k - 1);
    }
  }

  /** Votes count for every pending proposal up to a term. */
  function MergedVotes(pending: seq<Pending>, upTo: nat, bits: seq<bool>): (r: seq<Pending>)
    ensures |r| == |pending|
  {
    seq(|pending|, i requires 0 <= i < |pending| =>
      var p := pending[i];
      if p.term <= upTo then p.(bits := OrBits(p.bits, bits, |bits|)) else p)
  }

  predicate HasMajority(bits: seq<bool>) {
    Votes(bits) >= |bits| / 2 + 1
  }

  predicate QuorumReached(pending: seq<Pending>, t: nat) {
    var pos := Position(pending, t);
    pos.Some? && HasMajority(pending[pos.value].bits)
  }

  function Without(pending: seq<Pending>, pos: nat): seq<Pending>
    requires pos < |pending|
  {
    pending[..pos] + pending[pos + 1..]
  }

  function Later(a: Option<nat>, t: nat): Option<nat> {
    if a.Some? && a.value >= t then a else Some(t)
  }

  function CommittedTerm(st: PaxosState, t: nat): PaxosState {
    if InLog(st.log, t) then st
    else
      var pos := Position(st.pending, t);
      var st' :=
        if pos.Some? then
          st.(pending := Without(st.pending, pos.value), log := st.log + [(t, st.pending[pos.value].data)])
        else st;
      st'.(lastAccepted := Later(st'.lastAccepted, t))
  }

  /** Commit the terms `t ..= upTo` that are not in the log yet, listing them. */
  function CommittedRange(st: PaxosState, t: nat, upTo: nat): (PaxosState, seq<nat>)
    decreases upTo + 1 - t
  {
    if t > upTo then (st, [])
    else if InLog(st.log, t) then CommittedRange(st, t + 1, upTo)
    else
      var (st', newly) := CommittedRange(CommittedTerm(st, t), t + 1, upTo);
      (st', [t] + newly)
  }

  function CommittedUpTo(st: PaxosState, upTo: nat): (PaxosState, seq<nat>) {
    CommittedRange(st, 0, upTo)
  }

  /** The first term in `t .. upTo` that is neither in the log nor pending. */
  function GapFrom(st: PaxosState, t: nat, upTo: nat): Option<nat>
    decreases upTo - t
  {
    if t >= upTo then None
    else if !InLog(st.log, t) && !IsPending(st.pending, t) then Some(t)
    else GapFrom(st, t + 1, upTo)
  }

  function Gap(st: PaxosState, upTo: nat): Option<nat> {
    GapFrom(st, if st.lastAccepted.Some? then st.lastAccepted.value + 1 else 0, upTo)
  }

  /** The quorum scan of a preparing initiator over its first `k` pending proposals. */
  function HighestQuorum(pending: seq<Pending>, k: nat): (r: Option<nat>)
    requires k <= |pending|
  {
    if k == 0 then None
    else
      var r := HighestQuorum(pending, k - 1);
      var t := pending[k - 1].term;
      if QuorumReached(pending, t) && (if r.Some? then r.value else 0) <= t then Some(t) else r
  }

  // ---------------------------------------------------------------- bookkeeping invariants

  /**
    Pending terms are unique and not in the log; log terms are unique and not
    beyond the last accepted one; every datum is the one proposed for its term.
   */
  ghost predicate Tidy(st: PaxosState) {
    && (forall i, j :: 0 <= i < j < |st.pending| ==> st.pending[i].term != st.pending[j].term)
    && (forall i, j :: 0 <= i < j < |st.log| ==> st.log[i].0 != st.log[j].0)
    && (forall i :: 0 <= i < |st.pending| ==>
          !InLog(st.log, st.pending[i].term) && st.pending[i].data == Tx(st.pending[i].term))
    && (forall i :: 0 <= i < |st.log| ==>
          st.log[i].1 == Tx(st.log[i].0) && st.lastAccepted.Some? && st.log[i].0 <= st.lastAccepted.value)
  }

  /** Votes and seen terms do not matter to tidiness. */
  lemma SameProposalsTidy(st: PaxosState, st': PaxosState)
    requires Tidy(st) && st'.log == st.log && st'.lastAccepted == st.lastAccepted && |st'.pending| == |st.pending|
    requires forall i :: 0 <= i < |st.pending| ==>
      st'.pending[i].term == st.pending[i].term && st'.pending[i].data == st.pending[i].data
    ensures Tidy(st')
  {
    hide InLog;
    forall i | 0 <= i < |st'.pending|
      ensures !InLog(st'.log, st'.pending[i].term) && st'.pending[i].data == Tx(st'.pending[i].term)
    {
      assert !InLog(st.log, st.pending[i].term);
    }
  }

  lemma NewProposalTidy(st: PaxosState, t: nat, bits: seq<bool>)
    requires Tidy(st) && !IsPending(st.pending, t) && !InLog(st.log, t)
    ensures Tidy(st.(pending := st.pending + [Pending(t, Tx(t), bits)]))
  {
    hide InLog, IsPending;
    NotPending(st.pending, t);
    var st' := st.(pending := st.pending + [Pending(t, Tx(t), bits)]);
    forall i, j | 0 <= i < j < |st'.pending| ensures st'.pending[i].term != st'.pending[j].term {
      assert st'.pending[i] == st.pending[i];
      if j < |st.pending| {
        assert st'.pending[j] == st.pending[j];
      }
    }
    forall i | 0 <= i < |st'.pending|
      ensures !InLog(st'.log, st'.pending[i].term) && st'.pending[i].data == Tx(st'.pending[i].term)
    {
      if i < |st.pending| {
        assert st'.pending[i] == st.pending[i];
        assert !InLog(st.log, st.pending[i].term);
      }
    }
    assert st'.log == st.log && st'.lastAccepted == st.lastAccepted;
  }

  lemma NotPending(pending: seq<Pending>, t: nat)
    requires !IsPending(pending, t)
    ensures forall i :: 0 <= i < |pending| ==> pending[i].term != t
  {
  }

  /** Every pending proposal of `b` is one of `a`. */
  ghost predicate FewerPending(a: seq<Pending>, b: seq<Pending>) {
    forall i :: 0 <= i < |b| ==> b[i] in a
  }

  lemma CommitTermTidy(st: PaxosState, t: nat)
    requires Tidy(st)
    ensures var st' := CommittedTerm(st, t);
      && Tidy(st') && FewerPending(st.pending, st'.pending)
      && st'.highestSeen == st.highestSeen
      && (forall u: nat :: InLog(st'.log, u) <==> InLog(st.log, u) || (u == t && IsPending(st.pending, t)))
      && !IsPending(st'.pending, t)
      && (!InLog(st.log, t) ==> st'.lastAccepted == Later(st.lastAccepted, t))
      && (InLog(st.log, t) ==> st' == st)
  {
    var pos := Position(st.pending, t);
    if !InLog(st.log, t) {
      if pos.Some? {
        LogGrows(st.log, (t, st.pending[pos.value].data));
      }
      NotLogged(st.log, t);
      hide InLog;
    }
  }

  lemma LogGrows(log: seq<(nat, Data)>, e: (nat, Data))
    ensures forall u: nat :: InLog(log + [e], u) <==> InLog(log, u) || u == e.0
  {
    forall u: nat ensures InLog(log + [e], u) <==> InLog(log, u) || u == e.0 {
      if InLog(log, u) {
        var i :| 0 <= i < |log| && log[i].0 == u;
        assert (log + [e])[i].0 == u;
      }
      assert (log + [e])[|log|].0 == e.0;
    }
  }

  lemma NotLogged(log: seq<(nat, Data)>, t: nat)
    requires !InLog(log, t)
    ensures forall i :: 0 <= i < |log| ==> log[i].0 != t
  {
  }

  lemma LoggedIsAccepted(st: PaxosState, t: nat)
    requires Tidy(st) && InLog(st.log, t)
    ensures st.lastAccepted.Some? && t <= st.lastAccepted.value
  {
    var i :| 0 <= i < |st.log| && st.log[i].0 == t;
  }

  lemma FewerTransitive(a: seq<Pending>, b: seq<Pending>, c: seq<Pending>)
    requires FewerPending(a, b) && FewerPending(b, c)
    ensures FewerPending(a, c)
  {
    forall i | 0 <= i < |c| ensures c[i] in a {
      assert c[i] in b;
    }
  }

  /** What committing a range of terms does to tidy books. */
  lemma {:induction false} CommitRangeTidy(st: PaxosState, t: nat, upTo: nat)
    requires Tidy(st)
    ensures var (st', newly) := CommittedRange(st, t, upTo);
      && Tidy(st') && FewerPending(st.pending, st'.pending)
      && st'.highestSeen == st.highestSeen
      && st'.lastAccepted == (if t <= upTo then Later(st.lastAccepted, upTo) else st.lastAccepted)
      && (forall v: nat :: InLog(st'.log, v) <==> InLog(st.log, v) || (t <= v <= upTo && IsPending(st.pending, v)))
      && (forall v: nat :: v in newly <==> t <= v <= upTo && !InLog(st.log, v))
    decreases upTo + 1 - t
  {
    hide Tidy, InLog, IsPending, CommittedTerm, FewerPending;
    if t <= upTo {
      var st1 := CommittedTerm(st, t);
      CommitTermTidy(st, t);
      CommitRangeTidy(st1, t + 1, upTo);
      PendingShrinks(st, st1, t);
      if InLog(st.log, t) {
        LoggedIsAccepted(st, t);
      }
      FewerTransitive(st.pending, st1.pending, CommittedRange(st1, t + 1, upTo).0.pending);
    } else {
      FewerSelf(st.pending);
    }
  }

  lemma FewerSelf(a: seq<Pending>)
    ensures FewerPending(a, a)
  {
  }

  /** Committing a term takes nothing but that term out of the pending list. */
  lemma PendingShrinks(st: PaxosState, st1: PaxosState, t: nat)
    requires st1 == CommittedTerm(st, t)
    ensures forall v: nat :: v != t ==> (IsPending(st1.pending, v) <==> IsPending(st.pending, v))
  {
    var pos := Position(st.pending, t);
    if !InLog(st.log, t) && pos.Some? {
      forall v: nat | v != t ensures IsPending(st1.pending, v) <==> IsPending(st.pending, v) {
        if IsPending(st.pending, v) {
          var i :| 0 <= i < |st.pending| && st.pending[i].term == v;
          assert st1.pending[if i < pos.value then i else i - 1].term == v;
        }
        if IsPending(st1.pending, v) {
          var i :| 0 <= i < |st1.pending| && st1.pending[i].term == v;
          assert st.pending[if i < pos.value then i else i + 1].term == v;
        }
      }
    }
  }
}
